// The API server as the two reconcilers see it: versioned custom resources and Deployments,
// status conditions, the status merge patch, and the two server-side applies.
module Cluster {
  import opened Wrappers

  // ---------------------------------------------------------------------------------------
  // Status and conditions
  // ---------------------------------------------------------------------------------------

  datatype Truth = Yes | No | Unknown

  datatype Kind = PresetResolved | StorageReady | Progressing | DeploymentAvailable | Ready

  datatype Mode = ReadWriteOnce | ReadOnlyMany | ReadWriteMany | ReadWriteOncePod

  // Reasons and messages by their template and arguments; Mirrored text is the Deployment's own.
  datatype Reason =
    | OverridesUsed | PresetFound | PresetNotFound | InvalidConfiguration | PVCNotFound | PVCFound
    | ReplicaStorageUnsafe | ApplyFailed | ScaledToZero | AllReady | DeploymentUnavailable
    | MirroredReason(text: string)

  datatype Fault =
    | NoReader | CachedRead(error: string) | PreRead(error: string) | PreReadChanged
    | Rewriting(error: string) | ReadBack(error: string) | ReadBackChanged | ReadBackReplicas(got: Option<nat>)

  datatype Message =
    | NoPresetRef | UsingPreset(name: string) | NoSuchPreset(name: string) | PresetAbsent
    | Invalid(error: string) | NoSuchClaim(name: string) | StorageNotReady | ClaimExists
    | Refusal(replicas: nat, modes: seq<Mode>)
    | RefusalRemediated(refusal: Message)
    | RefusalUnremediated(refusal: Message, why: Fault)
    | ApplyDeployment(error: string) | ApplyService(error: string)
    | NoPods | PodsReady | Waiting
    | MirroredMessage(text: string)

  datatype Condition = Condition(
    kind: Kind, truth: Truth, reason: Reason, message: Message, generation: nat, since: int)

  datatype Status = Status(
    conditions: seq<Condition>,
    deploymentName: string,
    serviceName: string,
    readyReplicas: nat,
    endpoint: string,
    hash: string,
    observedGeneration: nat)

  const EMPTY_STATUS := Status([], "", "", 0, "", "", 0)

  // apimeta.FindStatusCondition: the first condition of that type.
  function Find(cs: seq<Condition>, kind: Kind): (c: Option<Condition>)
    ensures c.Some? ==> c.value in cs && c.value.kind == kind
  {
    if cs == [] then None
    else if cs[0].kind == kind then Some(cs[0])
    else Find(cs[1..], kind)
  }

  // apimeta.SetStatusCondition: append a new type; otherwise overwrite in place, moving the
  // transition time only when the truth value changes.
  function SetCondition(cs: seq<Condition>, c: Condition): (r: seq<Condition>)
  {
    if cs == [] then [c]
    else if cs[0].kind == c.kind then
      [c.(since := if cs[0].truth == c.truth then cs[0].since else c.since)] + cs[1..]
    else [cs[0]] + SetCondition(cs[1..], c)
  }

  // What setVLLMCondition and setLongContextCondition return: did the truth value change?
  predicate Flips(cs: seq<Condition>, kind: Kind, truth: Truth)
  {
    var prior := Find(cs, kind);
    prior.None? || prior.value.truth != truth
  }

  lemma {:induction false} SetConditionFinds(cs: seq<Condition>, c: Condition, kind: Kind)
    ensures Find(SetCondition(cs, c), kind) ==
            if kind != c.kind then Find(cs, kind)
            else Some(c.(since := if Flips(cs, kind, c.truth) then c.since else Find(cs, kind).value.since))
  {
    if cs != [] && cs[0].kind != c.kind {
      SetConditionFinds(cs[1..], c, kind);
      var r := SetCondition(cs, c);
      assert r[1..] == SetCondition(cs[1..], c);
    }
  }

  // The first condition of a kind, and nothing if there is none.
  lemma {:induction false} FindIsFirst(cs: seq<Condition>, kind: Kind, i: nat)
    requires i <= |cs| && forall j :: 0 <= j < i ==> cs[j].kind != kind
    requires i < |cs| ==> cs[i].kind == kind
    ensures Find(cs, kind) == if i < |cs| then Some(cs[i]) else None
  {
    if i > 0 { FindIsFirst(cs[1..], kind, i - 1); }
  }

  // The whole list after a write: the first condition of that kind is overwritten where it stands, or the
  // new one goes to the end; the time of the last transition stays unless the truth value changes.
  lemma {:induction false} SetConditionReplaces(cs: seq<Condition>, c: Condition, i: nat)
    requires i <= |cs| && forall j :: 0 <= j < i ==> cs[j].kind != c.kind
    requires i < |cs| ==> cs[i].kind == c.kind
    ensures SetCondition(cs, c) ==
      if i == |cs| then cs + [c]
      else if cs[i].truth == c.truth then cs[i := c.(since := cs[i].since)]
      else cs[i := c]
  {
    if i > 0 {
      SetConditionReplaces(cs[1..], c, i - 1);
      assert cs == [cs[0]] + cs[1..];
    }
  }

  predicate SaysSo(cs: seq<Condition>, c: Condition)
  {
    var prior := Find(cs, c.kind);
    prior.Some? && prior.value == c.(since := prior.value.since)
  }

  // Writing what is already there changes nothing, whatever the clock says.
  lemma {:induction false} SetConditionIsIdle(cs: seq<Condition>, c: Condition)
    requires SaysSo(cs, c)
    ensures SetCondition(cs, c) == cs
  {
    if cs[0].kind != c.kind {
      SetConditionIsIdle(cs[1..], c);
    }
  }

  // ---------------------------------------------------------------------------------------
  // The status patch: a JSON merge patch (section 2 of RFC 7396) computed from the snapshot.
  // A field absent from the patch keeps the server's value; the conditions array is replaced whole.
  // ---------------------------------------------------------------------------------------

  datatype Patch = Patch(
    conditions: Option<seq<Condition>>,
    deploymentName: Option<string>,
    serviceName: Option<string>,
    readyReplicas: Option<nat>,
    endpoint: Option<string>,
    hash: Option<string>,
    observedGeneration: Option<nat>)

  function Changed<T(==)>(before: T, after: T): Option<T>
  {
    if before == after then None else Some(after)
  }

  function Keep<T>(patched: Option<T>, server: T): T
  {
    if patched.Some? then patched.value else server
  }

  function MergeFrom(orig: Status, staged: Status): Patch
  {
    Patch(Changed(orig.conditions, staged.conditions),
          Changed(orig.deploymentName, staged.deploymentName),
          Changed(orig.serviceName, staged.serviceName),
          Changed(orig.readyReplicas, staged.readyReplicas),
          Changed(orig.endpoint, staged.endpoint),
          Changed(orig.hash, staged.hash),
          Changed(orig.observedGeneration, staged.observedGeneration))
  }

  function Merge(server: Status, p: Patch): Status
  {
    Status(Keep(p.conditions, server.conditions),
           Keep(p.deploymentName, server.deploymentName),
           Keep(p.serviceName, server.serviceName),
           Keep(p.readyReplicas, server.readyReplicas),
           Keep(p.endpoint, server.endpoint),
           Keep(p.hash, server.hash),
           Keep(p.observedGeneration, server.observedGeneration))
  }

  // ---------------------------------------------------------------------------------------
  // Objects
  // ---------------------------------------------------------------------------------------

  // A resolved configuration: the one field the reconcilers read themselves, and the rest of it.
  datatype Effective = Effective(body: string, pvcReadOnly: bool)

  datatype Overrides = Overrides(body: string, pvcReadOnly: Option<bool>, apiKey: Option<string>)

  datatype Spec = Spec(
    presetRef: Option<string>,
    overrides: Option<Overrides>,
    pvcName: string,
    pvcReadOnly: Option<bool>,
    replicas: Option<nat>,
    apiKey: Option<string>,
    rest: string)

  datatype Resource = Resource(uid: nat, generation: nat, spec: Spec, status: Status)

  datatype Claim = Claim(modes: seq<Mode>)

  // The part of a rendered Deployment that depends on the resource; modelsReadOnly is the
  // readOnly flag of the /models mount.
  datatype Template = Template(
    config: Effective, modelsReadOnly: bool, pvcName: string, apiKey: Option<string>, rest: string)

  datatype Payload = Payload(owner: nat, replicas: nat, template: Template)

  datatype Mirrored = Mirrored(truth: Truth, reason: string, message: string)

  datatype DeploymentStatus = DeploymentStatus(
    observedGeneration: nat, readyReplicas: nat, available: Option<Mirrored>, progressing: Option<Mirrored>)

  // The fields of a Deployment that an apply can own.
  datatype Field = ControllerField | ReplicasField | TemplateField

  const ALL_FIELDS: set<Field> := {ControllerField, ReplicasField, TemplateField}

  // `applied` is what the operator's last apply named, `shared` what some other manager owns.
  datatype Deployment = Deployment(
    uid: nat,
    resourceVersion: nat,
    generation: nat,
    controller: Option<nat>,
    replicas: Option<nat>,
    template: Option<Template>,
    applied: set<Field>,
    shared: set<Field>,
    status: DeploymentStatus)

  // A re-read Service: either of type NodePort, or of a type whose URL needs no node lookup.
  datatype Service = NodePort | Addressed(url: string)

  // ---------------------------------------------------------------------------------------
  // The server: every stored version of the two objects, oldest first
  // ---------------------------------------------------------------------------------------

  datatype World = World(
    resources: seq<Option<Resource>>,
    deployments: seq<Option<Deployment>>)

  function Last<T>(log: seq<Option<T>>): (r: Option<T>)
    ensures r.Some? ==> |log| > 0 && r == log[|log| - 1]
  {
    if log == [] then None else log[|log| - 1]
  }

  // Every write gets a fresh resource version.
  function Store(w: World, d: Deployment): World
  {
    w.(deployments := w.deployments + [Some(d.(resourceVersion := |w.deployments|))])
  }

  // Status().Patch: by name only, so it lands on whatever incarnation is current.
  function PatchStatus(w: World, orig: Status, staged: Status): Option<World>
  {
    match Last(w.resources)
    case None => None
    case Some(r) =>
      var status := Merge(r.status, MergeFrom(orig, staged));
      Some(if status == r.status then w
           else w.(resources := w.resources + [Some(r.(status := status))]))
  }

  // The frame of a status patch: what the pass left as its snapshot had it keeps the server's value, the
  // rest becomes what the pass staged, and nothing but the status changes.
  lemma PatchFrame(w: World, orig: Status, staged: Status, r: Resource)
    requires Last(w.resources) == Some(r)
    ensures PatchStatus(w, orig, staged).Some?
    ensures var w' := PatchStatus(w, orig, staged).value;
      && w'.deployments == w.deployments && Last(w'.resources).Some?
      && var r' := Last(w'.resources).value;
      && r'.uid == r.uid && r'.generation == r.generation && r'.spec == r.spec
      && w'.resources == w.resources + (if r'.status == r.status then [] else [Some(r')])
      && r'.status.conditions == (if staged.conditions == orig.conditions then r.status else staged).conditions
      && r'.status.deploymentName == (if staged.deploymentName == orig.deploymentName then r.status else staged).deploymentName
      && r'.status.serviceName == (if staged.serviceName == orig.serviceName then r.status else staged).serviceName
      && r'.status.readyReplicas == (if staged.readyReplicas == orig.readyReplicas then r.status else staged).readyReplicas
      && r'.status.endpoint == (if staged.endpoint == orig.endpoint then r.status else staged).endpoint
      && r'.status.hash == (if staged.hash == orig.hash then r.status else staged).hash
      && r'.status.observedGeneration ==
           (if staged.observedGeneration == orig.observedGeneration then r.status else staged).observedGeneration
  {
    assert w.resources + [] == w.resources;
  }

  // Forced server-side apply of a rendered Deployment. An object controlled by someone else
  // cannot get a second controller reference; what another manager set otherwise is taken from it.
  function ApplyFull(w: World, p: Payload): Option<World>
  {
    match Last(w.deployments)
    case None =>
      Some(Store(w, Deployment(|w.deployments|, 0, 1, Some(p.owner), Some(p.replicas), Some(p.template),
                               ALL_FIELDS, {}, DeploymentStatus(0, 0, None, None))))
    case Some(d) =>
      if d.controller.Some? && d.controller.value != p.owner then None
      else
        var sameSpec := d.replicas == Some(p.replicas) && d.template == Some(p.template);
        if sameSpec && d.controller == Some(p.owner) && d.applied == ALL_FIELDS then Some(w)
        else Some(Store(w, d.(controller := Some(p.owner), replicas := Some(p.replicas), template := Some(p.template),
                              applied := ALL_FIELDS, shared := d.shared * Untouched(d, p),
                              generation := if sameSpec then d.generation else d.generation + 1)))
  }

  // A full apply in full: refused exactly over another controller, it leaves the payload's three fields,
  // raises the generation exactly when the replicas or the template change, and leaves another manager
  // exactly those of its fields whose value it did not change.
  lemma ApplyFullMeans(w: World, p: Payload)
    ensures ApplyFull(w, p).None? <==>
      exists other :: other != p.owner && Last(w.deployments).Some? && Last(w.deployments).value.controller == Some(other)
    ensures ApplyFull(w, p).Some? ==>
      && var w' := ApplyFull(w, p).value;
      && w'.resources == w.resources && Last(w'.deployments).Some?
      && var d' := Last(w'.deployments).value;
      && (w'.deployments == w.deployments || w'.deployments == w.deployments + [Some(d')])
      && d'.controller == Some(p.owner) && d'.replicas == Some(p.replicas) && d'.template == Some(p.template)
      && d'.applied == {ControllerField, ReplicasField, TemplateField}
      && match Last(w.deployments)
         case None => d'.uid == |w.deployments| && d'.generation == 1 && d'.shared == {}
         case Some(d) =>
           && d'.uid == d.uid && d'.status == d.status
           && d'.generation == d.generation +
                (if d.replicas == Some(p.replicas) && d.template == Some(p.template) then 0 else 1)
           && (ControllerField in d'.shared <==> ControllerField in d.shared && d.controller == Some(p.owner))
           && (ReplicasField in d'.shared <==> ReplicasField in d.shared && d.replicas == Some(p.replicas))
           && (TemplateField in d'.shared <==> TemplateField in d.shared && d.template == Some(p.template))
  {
    if ApplyFull(w, p).None? {
      assert Last(w.deployments).value.controller.value != p.owner;
    }
  }

  // The fields that already have the payload's value.
  function Untouched(d: Deployment, p: Payload): set<Field>
  {
    (if d.controller == Some(p.owner) then {ControllerField} else {})
    + (if d.replicas == Some(p.replicas) then {ReplicasField} else {})
    + (if d.template == Some(p.template) then {TemplateField} else {})
  }

  // The fields that the operator alone owns.
  function Sole(d: Deployment): set<Field>
  {
    d.applied - d.shared
  }

  // The corrective apply: one field, preconditioned on the resource version and not forced, so that a
  // manager that owns another replica count makes it a conflict. A field that the operator alone owns and
  // this apply leaves out is removed; without its template a Deployment is not valid and is not stored.
  function ApplyOneReplica(w: World, resourceVersion: nat): Option<World>
  {
    match Last(w.deployments)
    case None => None
    case Some(d) =>
      if d.resourceVersion != resourceVersion then None
      else if ReplicasField in d.shared && d.replicas != Some(1) then None
      else if LosesTemplate(d) then None
      else Some(Store(w, d.(replicas := Some(1),
                            controller := if ControllerField in Sole(d) then None else d.controller,
                            applied := {ReplicasField}, generation := d.generation + 1)))
  }

  predicate LosesTemplate(d: Deployment)
  {
    d.template.Some? && TemplateField in Sole(d)
  }

  // ---------------------------------------------------------------------------------------
  // Everyone else: users edit, delete and recreate the resource; anything at all may happen to
  // the Deployment. Only the reconciler writes the resource's status.
  // ---------------------------------------------------------------------------------------

  datatype Environment =
    | EditSpec(spec: Spec)
    | DeleteResource
    | CreateResource(spec: Spec)
    | WriteDeployment(deployment: Deployment)
    | DeleteDeployment

  function Interfere(w: World, e: Environment): World
  {
    match e
    case EditSpec(spec) =>
      (match Last(w.resources)
       case None => w
       case Some(r) =>
         if r.spec == spec then w
         else w.(resources := w.resources + [Some(r.(spec := spec, generation := r.generation + 1))]))
    case DeleteResource => w.(resources := w.resources + [None])
    case CreateResource(spec) =>
      if Last(w.resources).Some? then w
      else w.(resources := w.resources + [Some(Resource(|w.resources|, 1, spec, EMPTY_STATUS))])
    case WriteDeployment(d) => Store(w, d)
    case DeleteDeployment => w.(deployments := w.deployments + [None])
  }
}
