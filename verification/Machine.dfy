// Reconcile as a state machine: one step per client call. Between any two steps the environment
// may act, a call may fail (before or after taking effect), a cached read may return any earlier
// stored version, and the process may stop.
module Machine {
  import opened Wrappers
  import opened Cluster
  import opened Storage

  // What distinguishes the two reconcilers, and what the machine leaves abstract: resolving a
  // configuration, validating it, hashing it.
  datatype Controller = Controller(
    name: string,
    hasApiReader: bool,
    resolve: (Option<string>, Spec) -> Result<Effective, string>,
    validate: Effective -> Option<string>,
    hash: Effective -> string)

  datatype Event = Event(warning: bool, reason: Reason)

  datatype Exit = Done | Requeue(seconds: nat) | Failed

  // What one pass has read and written so far; the history the invariants speak about.
  // `sent` is the full Deployment apply that was put on the wire, whatever came back.
  datatype Pass = Pass(
    resource: Resource,
    preset: Option<string>,
    claim: Option<Claim>,
    cached: Option<Deployment>,
    readBack: Option<Deployment>,
    sent: Option<Payload>,
    deploymentApplied: bool,
    serviceApplied: bool,
    seen: Option<Deployment>,
    counted: nat)

  // The snapshot, the staged status and the events emitted so far.
  datatype Local = Local(orig: Resource, status: Status, pass: Pass, events: seq<Event>)

  datatype Control =
    | Idle
    | WantPreset(l: Local)
    | WantClaim(l: Local, e: Effective)
    | WantCached(l: Local, refusal: Message)
    | WantAuthoritative(l: Local, refusal: Message, cached: Deployment)
    | WantRewrite(l: Local, refusal: Message, cached: Deployment, authoritative: Deployment)
    | WantReadBack(l: Local, refusal: Message, cached: Deployment)
    | WantApplyDeployment(l: Local, e: Effective)
    | WantApplyService(l: Local, e: Effective)
    | WantService(l: Local, e: Effective)
    | WantDeployment(l: Local, e: Effective, service: Service)
    | WantEndpoint(l: Local, e: Effective, seen: Deployment)
    | WantPatch(l: Local, exit: Exit)

  datatype State = State(
    world: World,
    control: Control,
    passes: seq<Pass>,     // finished or abandoned passes
    events: seq<Event>,    // events emitted by finished passes
    cursor: nat)           // newest resource version the cache has handed out

  // The outcome of a client call. Lost: the server did it, the caller saw an error.
  datatype Answer =
    | Cached(version: nat)
    | Current
    | Missing
    | Broken(error: string)
    | PresetIs(preset: string)
    | ClaimIs(claim: Claim)
    | ServiceIs(service: Service)
    | EndpointIs(url: string)
    | Accepted
    | Lost(error: string)
    | Refused(error: string)
    | Unencodable

  datatype Action = Env(e: Environment) | Reply(now: int, a: Answer) | Crash

  // ---------------------------------------------------------------------------------------
  // Pieces of Reconcile
  // ---------------------------------------------------------------------------------------

  function Replicas(spec: Spec): nat
  {
    if spec.replicas.Some? then spec.replicas.value else 1
  }

  predicate SpecDecidesReadOnly(spec: Spec)
  {
    spec.pvcReadOnly.Some? && (spec.overrides.None? || spec.overrides.value.pvcReadOnly.None?)
  }

  // The configuration the Deployment is rendered from.
  function EffectiveOf(k: Controller, preset: Option<string>, spec: Spec): Result<Effective, string>
  {
    var r := k.resolve(preset, spec);
    if r.Success? && SpecDecidesReadOnly(spec)
    then Success(r.value.(pvcReadOnly := spec.pvcReadOnly.value)) else r
  }

  function ApiKey(spec: Spec): Option<string>
  {
    if spec.overrides.Some? && spec.overrides.value.apiKey.Some? then spec.overrides.value.apiKey else spec.apiKey
  }

  function Render(r: Resource, e: Effective): Payload
  {
    Payload(r.uid, Replicas(r.spec), Template(e, e.pvcReadOnly, r.spec.pvcName, ApiKey(r.spec), r.spec.rest))
  }

  function Set(l: Local, kind: Kind, truth: Truth, reason: Reason, message: Message, now: int): Local
  {
    l.(status := l.status.(conditions :=
         SetCondition(l.status.conditions, Condition(kind, truth, reason, message, l.orig.generation, now))))
  }

  // Set a condition and emit a warning if its truth value changed.
  function Warn(l: Local, kind: Kind, truth: Truth, reason: Reason, message: Message, now: int): Local
  {
    var l' := Set(l, kind, truth, reason, message, now);
    if Flips(l.status.conditions, kind, truth) then l'.(events := l.events + [Event(true, reason)]) else l'
  }

  // Resolve, the late PVCReadOnly change, the hash, validation.
  function Resolved(k: Controller, l: Local, preset: Option<string>, now: int): Control
  {
    match k.resolve(preset, l.orig.spec)
    case Failure(_) => WantPatch(l, Failed)
    case Success(e0) =>
      var late := SpecDecidesReadOnly(l.orig.spec);
      var e := if late then e0.(pvcReadOnly := l.orig.spec.pvcReadOnly.value) else e0;
      var hash := if late then k.hash(e) else k.hash(e0);
      var l := l.(status := l.status.(hash := hash), pass := l.pass.(preset := preset));
      match k.validate(e)
      case Some(message) => WantPatch(Warn(l, Ready, No, InvalidConfiguration, Invalid(message), now), Failed)
      case None => WantClaim(l, e)
  }

  function Start(k: Controller, r: Resource, now: int): Control
  {
    var l := Local(r, r.status, Pass(r, None, None, None, None, None, false, false, None, 0), []);
    if r.spec.presetRef.Some? then WantPreset(l)
    else Resolved(k, Set(l, PresetResolved, Yes, OverridesUsed, NoPresetRef, now), None, now)
  }

  // The unsafe-storage exits: StorageReady goes back to No and Ready with it.
  function Unsafe(l: Local, message: Message, exit: Exit, now: int): Control
  {
    var l := Set(l, StorageReady, No, ReplicaStorageUnsafe, message, now);
    WantPatch(Set(l, Ready, No, ReplicaStorageUnsafe, message, now), exit)
  }

  function NotRemediated(l: Local, refusal: Message, now: int): Control
  {
    Unsafe(l, refusal, Done, now)
  }

  function RemediationFailed(l: Local, refusal: Message, why: Fault, now: int): Control
  {
    Unsafe(l, RefusalUnremediated(refusal, why), Failed, now)
  }

  function Remediated(l: Local, refusal: Message, now: int): Control
  {
    Unsafe(l, RefusalRemediated(refusal), Done, now)
  }

  // IsControlledBy, and the replica test of the corrective path.
  predicate Owns(r: Resource, d: Deployment)
  {
    d.controller == Some(r.uid)
  }

  predicate Multiple(d: Deployment)
  {
    d.replicas.Some? && d.replicas.value > 1
  }

  function FailApply(l: Local, message: Message, now: int): Control
  {
    WantPatch(Warn(l, Ready, No, ApplyFailed, message, now), Failed)
  }

  // setVLLMCondition from a Deployment condition that may be absent.
  function SetMirrored(l: Local, kind: Kind, m: Option<Mirrored>, now: int): Local
  {
    if m.None? then l
    else Set(l, kind, m.value.truth, MirroredReason(m.value.reason), MirroredMessage(m.value.message), now)
  }

  // Section 6: the ready count only when the Deployment status is current, then the two mirrored conditions.
  function Mirror(l: Local, d: Deployment, now: int): Local
  {
    var l := if d.status.observedGeneration >= d.generation
             then l.(status := l.status.(readyReplicas := d.status.readyReplicas)) else l;
    var l := l.(pass := l.pass.(seen := Some(d), counted := l.status.readyReplicas));
    SetMirrored(SetMirrored(l, DeploymentAvailable, d.status.available, now), Progressing, d.status.progressing, now)
  }

  predicate Serving(l: Local, d: Deployment)
  {
    d.status.available.Some? && d.status.available.value.truth == Yes
    && l.status.readyReplicas >= Replicas(l.orig.spec)
  }

  // Section 8.
  function Finish(l: Local, d: Deployment, url: string, now: int): Control
  {
    var l := l.(status := l.status.(endpoint := url));
    if Serving(l, d) then
      var l' := Set(l, Ready, Yes, AllReady, PodsReady, now);
      WantPatch(if Flips(l.status.conditions, Ready, Yes)
                then l'.(events := l.events + [Event(false, AllReady)]) else l', Done)
    else
      WantPatch(match d.status.progressing
                case Some(m) => Set(l, Ready, No, MirroredReason(m.reason), MirroredMessage(m.message), now)
                case None => Set(l, Ready, No, DeploymentUnavailable, Waiting, now), Requeue(60))
  }

  function AfterDeployment(l: Local, e: Effective, service: Service, d: Deployment, now: int): Control
  {
    var l := Mirror(l, d, now);
    if Replicas(l.orig.spec) == 0 then
      var l := Set(l, Ready, No, ScaledToZero, NoPods, now);
      WantPatch(l.(status := l.status.(endpoint := "")), Requeue(60))
    else match service
      case NodePort => WantEndpoint(l, e, d)
      case Addressed(url) => Finish(l, d, url, now)
  }

  // ---------------------------------------------------------------------------------------
  // Steps. An answer that does not fit the pending call leaves the state alone.
  // ---------------------------------------------------------------------------------------

  function Go(s: State, c: Control): State
  {
    s.(control := c)
  }

  function End(s: State, w: World, l: Local): State
  {
    s.(world := w, control := Idle, passes := s.passes + [l.pass], events := s.events + l.events)
  }

  function StepRead(k: Controller, s: State, now: int, a: Answer): State
    requires s.control.Idle?
  {
    if a.Cached? && a.version < |s.world.resources| && s.world.resources[a.version].Some? then
      Go(s, Start(k, s.world.resources[a.version].value, now)).(cursor := if a.version > s.cursor then a.version else s.cursor)
    else s
  }

  function StepPreset(k: Controller, s: State, l: Local, now: int, a: Answer): State
  {
    if l.orig.spec.presetRef.None? then s else
    var name := l.orig.spec.presetRef.value;
    match a
    case Missing =>
      var l := Warn(l, PresetResolved, No, PresetNotFound, NoSuchPreset(name), now);
      Go(s, WantPatch(Set(l, Ready, No, PresetNotFound, PresetAbsent, now), Requeue(15)))
    case Broken(_) => Go(s, WantPatch(l, Failed))
    case PresetIs(preset) =>
      var l := Set(l, PresetResolved, Yes, PresetFound, UsingPreset(name), now);
      Go(s, Resolved(k, l, Some(preset), now))
    case _ => s
  }

  // The gate: apply, or go corrective.
  function AfterClaim(k: Controller, l: Local, e: Effective, claim: Claim, now: int): Control
  {
    var l := Set(l, StorageReady, Yes, PVCFound, ClaimExists, now);
    var l := l.(pass := l.pass.(claim := Some(claim)));
    var replicas := Replicas(l.orig.spec);
    if Shareable(claim.modes, replicas, e.pvcReadOnly) then WantApplyDeployment(l, e)
    else if !k.hasApiReader then RemediationFailed(l, Refusal(replicas, claim.modes), NoReader, now)
    else WantCached(l, Refusal(replicas, claim.modes))
  }

  function StepClaim(k: Controller, s: State, l: Local, e: Effective, now: int, a: Answer): State
  {
    match a
    case Missing =>
      var l := Warn(l, StorageReady, No, PVCNotFound, NoSuchClaim(l.orig.spec.pvcName), now);
      Go(s, WantPatch(Set(l, Ready, No, PVCNotFound, StorageNotReady, now), Requeue(15)))
    case Broken(_) => Go(s, WantPatch(l, Failed))
    case ClaimIs(claim) => Go(s, AfterClaim(k, l, e, claim, now))
    case _ => s
  }

  function StepCached(s: State, l: Local, refusal: Message, now: int, a: Answer): State
  {
    match a
    case Missing => Go(s, NotRemediated(l, refusal, now))
    case Broken(error) => Go(s, RemediationFailed(l, refusal, CachedRead(error), now))
    case Cached(version) =>
      if version >= |s.world.deployments| then s
      else (match s.world.deployments[version]
        case None => Go(s, NotRemediated(l, refusal, now))
        case Some(d) =>
          if !Owns(l.orig, d) || !Multiple(d) then Go(s, NotRemediated(l, refusal, now))
          else Go(s, WantAuthoritative(l.(pass := l.pass.(cached := Some(d))), refusal, d)))
    case _ => s
  }

  function StepAuthoritative(s: State, l: Local, refusal: Message, cached: Deployment, now: int, a: Answer): State
  {
    match a
    case Broken(error) => Go(s, RemediationFailed(l, refusal, PreRead(error), now))
    case Current =>
      (match Last(s.world.deployments)
       case None => Go(s, RemediationFailed(l, refusal, PreRead("not found"), now))
       case Some(d) =>
         if d.uid != cached.uid || !Owns(l.orig, d) then
           Go(s, RemediationFailed(l, refusal, PreReadChanged, now))
         else if !Multiple(d) then Go(s, NotRemediated(l, refusal, now))
         else Go(s, WantRewrite(l, refusal, cached, d)))
    case _ => s
  }

  function StepRewrite(s: State, l: Local, refusal: Message, cached: Deployment, d: Deployment, now: int, a: Answer): State
  {
    var done := ApplyOneReplica(s.world, d.resourceVersion);
    match a
    case Accepted =>
      if done.Some? then Go(s, WantReadBack(l, refusal, cached)).(world := done.value)
      else Go(s, RemediationFailed(l, refusal, Rewriting("refused"), now))
    case Lost(error) =>
      if done.Some? then
        Go(s, RemediationFailed(l, refusal, Rewriting(error), now)).(world := done.value)
      else s
    case Refused(error) => Go(s, RemediationFailed(l, refusal, Rewriting(error), now))
    case _ => s
  }

  function StepReadBack(s: State, l: Local, refusal: Message, cached: Deployment, now: int, a: Answer): State
  {
    match a
    case Broken(error) => Go(s, RemediationFailed(l, refusal, ReadBack(error), now))
    case Current =>
      (match Last(s.world.deployments)
       case None => Go(s, RemediationFailed(l, refusal, ReadBack("not found"), now))
       case Some(d) =>
         if d.uid != cached.uid || !Owns(l.orig, d) then
           Go(s, RemediationFailed(l, refusal, ReadBackChanged, now))
         else if d.replicas != Some(1) then
           Go(s, RemediationFailed(l, refusal, ReadBackReplicas(d.replicas), now))
         else Go(s, Remediated(l.(pass := l.pass.(readBack := Some(d))), refusal, now)))
    case _ => s
  }

  function StepApplyDeployment(k: Controller, s: State, l: Local, e: Effective, now: int, a: Answer): State
  {
    var p := Render(l.orig, e);
    var done := ApplyFull(s.world, p);
    var sent := l.(pass := l.pass.(sent := Some(p)));
    match a
    case Unencodable => Go(s, WantPatch(l, Failed))
    case Accepted =>
      if done.Some? then
        var l' := sent.(status := l.status.(deploymentName := k.name), pass := sent.pass.(deploymentApplied := true));
        Go(s, WantApplyService(l', e)).(world := done.value)
      else Go(s, FailApply(sent, ApplyDeployment("second controller"), now))
    case Lost(error) =>
      if done.Some? then Go(s, FailApply(sent, ApplyDeployment(error), now)).(world := done.value) else s
    case Refused(error) => Go(s, FailApply(sent, ApplyDeployment(error), now))
    case _ => s
  }

  function StepApplyService(k: Controller, s: State, l: Local, e: Effective, now: int, a: Answer): State
  {
    match a
    case Unencodable => Go(s, WantPatch(l, Failed))
    case Accepted =>
      Go(s, WantService(l.(status := l.status.(serviceName := "svc-" + k.name, observedGeneration := l.orig.generation),
                           pass := l.pass.(serviceApplied := true)), e))
    case Lost(error) => Go(s, FailApply(l, ApplyService(error), now))
    case Refused(error) => Go(s, FailApply(l, ApplyService(error), now))
    case _ => s
  }

  function StepService(s: State, l: Local, e: Effective, a: Answer): State
  {
    match a
    case Missing => Go(s, WantPatch(l, Requeue(1)))
    case Broken(_) => Go(s, WantPatch(l, Failed))
    case ServiceIs(service) => Go(s, WantDeployment(l, e, service))
    case _ => s
  }

  function StepDeployment(s: State, l: Local, e: Effective, service: Service, now: int, a: Answer): State
  {
    match a
    case Missing => Go(s, WantPatch(l, Requeue(1)))
    case Broken(_) => Go(s, WantPatch(l, Failed))
    case Cached(version) =>
      if version >= |s.world.deployments| then s
      else (match s.world.deployments[version]
        case None => Go(s, WantPatch(l, Requeue(1)))
        case Some(d) => Go(s, AfterDeployment(l, e, service, d, now)))
    case _ => s
  }

  function StepEndpoint(s: State, l: Local, d: Deployment, now: int, a: Answer): State
  {
    if a.EndpointIs? then Go(s, Finish(l, d, a.url, now)) else s
  }

  function StepPatch(s: State, l: Local, a: Answer): State
  {
    var done := PatchStatus(s.world, l.orig.status, l.status);
    match a
    case Accepted => End(s, if done.Some? then done.value else s.world, l)
    case Lost(_) => End(s, if done.Some? then done.value else s.world, l)
    case Refused(_) => End(s, s.world, l)
    case _ => s
  }

  function Step(k: Controller, s: State, now: int, a: Answer): State
  {
    match s.control
    case Idle => StepRead(k, s, now, a)
    case WantPreset(l) => StepPreset(k, s, l, now, a)
    case WantClaim(l, e) => StepClaim(k, s, l, e, now, a)
    case WantCached(l, refusal) => StepCached(s, l, refusal, now, a)
    case WantAuthoritative(l, refusal, cached) => StepAuthoritative(s, l, refusal, cached, now, a)
    case WantRewrite(l, refusal, cached, d) => StepRewrite(s, l, refusal, cached, d, now, a)
    case WantReadBack(l, refusal, cached) => StepReadBack(s, l, refusal, cached, now, a)
    case WantApplyDeployment(l, e) => StepApplyDeployment(k, s, l, e, now, a)
    case WantApplyService(l, e) => StepApplyService(k, s, l, e, now, a)
    case WantService(l, e) => StepService(s, l, e, a)
    case WantDeployment(l, e, service) => StepDeployment(s, l, e, service, now, a)
    case WantEndpoint(l, e, d) => StepEndpoint(s, l, d, now, a)
    case WantPatch(l, exit) => StepPatch(s, l, a)
  }

  function Act(k: Controller, s: State, action: Action): State
  {
    match action
    case Env(e) => s.(world := Interfere(s.world, e))
    case Reply(now, a) => Step(k, s, now, a)
    case Crash => if s.control.Idle? then s else End(s, s.world, s.control.l)
  }

  // Runs grow at the end, so that the last action is the one an inductive proof looks at.
  function Run(k: Controller, s: State, actions: seq<Action>): State
  {
    if actions == [] then s
    else Act(k, Run(k, s, actions[..|actions| - 1]), actions[|actions| - 1])
  }

  const BOOT := State(World([], []), Idle, [], [], 0)
}
