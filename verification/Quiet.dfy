// Convergence: with no environment steps and no failures, repeated passes reach a fixpoint.
module Quiet {
  import opened Wrappers
  import opened Cluster
  import opened Storage
  import opened Machine

  // What the reads of everything but the resource and the Deployment return, round after round.
  datatype Surroundings = Surroundings(preset: Option<string>, claim: Option<Claim>, service: Service, url: string)

  // The answer of a cluster in which every call succeeds and the cache is up to date.
  function Honest(s: State, q: Surroundings): Answer
  {
    match s.control
    case Idle => if s.world.resources == [] then Missing else Cached(|s.world.resources| - 1)
    case WantPreset(_) => if q.preset.None? then Missing else PresetIs(q.preset.value)
    case WantClaim(_, _) => if q.claim.None? then Missing else ClaimIs(q.claim.value)
    case WantCached(_, _) => if s.world.deployments == [] then Missing else Cached(|s.world.deployments| - 1)
    case WantAuthoritative(_, _, _) => Current
    case WantReadBack(_, _, _) => Current
    case WantService(_, _) => ServiceIs(q.service)
    case WantDeployment(_, _, _) => if s.world.deployments == [] then Missing else Cached(|s.world.deployments| - 1)
    case WantEndpoint(_, _, _) => EndpointIs(q.url)
    case _ => Accepted
  }

  // At most n further calls of the pass in progress.
  function Drive(k: Controller, s: State, q: Surroundings, now: int, n: nat): State
    decreases n
  {
    if n == 0 || s.control.Idle? then s else Drive(k, Step(k, s, now, Honest(s, q)), q, now, n - 1)
  }

  // One whole pass: the longest path makes eight calls after reading the resource.
  function Round(k: Controller, s: State, q: Surroundings, now: int): State
  {
    Drive(k, Step(k, s, now, Honest(s, q)), q, now, 8)
  }

  // ---------------------------------------------------------------------------------------
  // What a calm pass amounts to: a list of condition writes, some fields, a Deployment log,
  // and at most one write that is announced when it flips its condition.
  // ---------------------------------------------------------------------------------------

  // An event sent only if writing `truth` flips the condition of that kind.
  datatype Announcement = Announcement(event: Event, kind: Kind, truth: Truth)

  datatype Plan = Plan(
    writes: seq<Condition>,
    hash: Option<string>,
    applied: bool,
    serviceName: Option<string>,
    readyReplicas: nat,
    endpoint: Option<string>,
    deployments: seq<Option<Deployment>>,
    announced: Option<Announcement>)

  function Write(r: Resource, kind: Kind, truth: Truth, reason: Reason, message: Message): Condition
  {
    Condition(kind, truth, reason, message, r.generation, 0)
  }

  // The corrective path: the message it ends with and the Deployment log it leaves. What the write leaves
  // may no longer be this resource's.
  function Correct(k: Controller, r: Resource, w: World, refusal: Message): (Message, seq<Option<Deployment>>)
  {
    var d := Last(w.deployments);
    if !k.hasApiReader then (RefusalUnremediated(refusal, NoReader), w.deployments)
    else if d.None? || !Owns(r, d.value) || !Multiple(d.value) then (refusal, w.deployments)
    else
      var done := ApplyOneReplica(w, d.value.resourceVersion);
      if done.None? then (RefusalUnremediated(refusal, Rewriting("refused")), w.deployments)
      else if ControllerField in Sole(d.value) then
        (RefusalUnremediated(refusal, ReadBackChanged), done.value.deployments)
      else (RefusalRemediated(refusal), done.value.deployments)
  }

  function MirrorWrite(r: Resource, kind: Kind, m: Option<Mirrored>): seq<Condition>
  {
    if m.None? then [] else [Write(r, kind, m.value.truth, MirroredReason(m.value.reason), MirroredMessage(m.value.message))]
  }

  function MirrorWrites(r: Resource, d: Deployment): seq<Condition>
  {
    MirrorWrite(r, DeploymentAvailable, d.status.available) + MirrorWrite(r, Progressing, d.status.progressing)
  }

  function ReadyCount(r: Resource, d: Deployment): nat
  {
    if d.status.observedGeneration >= d.generation then d.status.readyReplicas else r.status.readyReplicas
  }

  predicate IsReady(r: Resource, d: Deployment)
  {
    Replicas(r.spec) > 0
    && d.status.available.Some? && d.status.available.value.truth == Yes && ReadyCount(r, d) >= Replicas(r.spec)
  }

  function ReadyWrite(r: Resource, d: Deployment): Condition
  {
    if Replicas(r.spec) == 0 then Write(r, Ready, No, ScaledToZero, NoPods)
    else if IsReady(r, d) then Write(r, Ready, Yes, AllReady, PodsReady)
    else match d.status.progressing
      case Some(m) => Write(r, Ready, No, MirroredReason(m.reason), MirroredMessage(m.message))
      case None => Write(r, Ready, No, DeploymentUnavailable, Waiting)
  }

  function Url(r: Resource, q: Surroundings): string
  {
    if Replicas(r.spec) == 0 then "" else if q.service.NodePort? then q.url else q.service.url
  }

  function NoPlan(r: Resource, w: World): Plan
  {
    Plan([], None, false, None, r.status.readyReplicas, None, w.deployments, None)
  }

  function PlanOf(k: Controller, r: Resource, w: World, q: Surroundings): Plan
  {
    if r.spec.presetRef.None? then
      PlanResolved(k, r, w, q, None, Write(r, PresetResolved, Yes, OverridesUsed, NoPresetRef))
    else if q.preset.None? then
      NoPlan(r, w).(writes := [Write(r, PresetResolved, No, PresetNotFound, NoSuchPreset(r.spec.presetRef.value)),
                               Write(r, Ready, No, PresetNotFound, PresetAbsent)],
                    announced := Some(Announcement(Event(true, PresetNotFound), PresetResolved, No)))
    else
      PlanResolved(k, r, w, q, q.preset, Write(r, PresetResolved, Yes, PresetFound, UsingPreset(r.spec.presetRef.value)))
  }

  function PlanResolved(k: Controller, r: Resource, w: World, q: Surroundings, preset: Option<string>, found: Condition): Plan
  {
    var resolved := EffectiveOf(k, preset, r.spec);
    var p := NoPlan(r, w).(writes := [found]);
    if resolved.Failure? then p
    else PlanConfigured(k, r, w, q, p.(hash := Some(k.hash(resolved.value))), resolved.value)
  }

  function MirrorPlan(r: Resource, d: Deployment, p: Plan): Plan
  {
    p.(writes := p.writes + MirrorWrites(r, d), readyReplicas := ReadyCount(r, d))
  }

  function FinishPlan(r: Resource, d: Deployment, p: Plan, url: string): Plan
  {
    p.(writes := p.writes + [ReadyWrite(r, d)], endpoint := Some(url),
       announced := if IsReady(r, d) then Some(Announcement(Event(false, AllReady), Ready, Yes)) else None)
  }

  function UnsafePlan(r: Resource, p: Plan, message: Message, deployments: seq<Option<Deployment>>): Plan
  {
    p.(writes := p.writes + [Write(r, StorageReady, No, ReplicaStorageUnsafe, message)]
                 + [Write(r, Ready, No, ReplicaStorageUnsafe, message)],
       deployments := deployments)
  }

  function PlanConfigured(k: Controller, r: Resource, w: World, q: Surroundings, p: Plan, e: Effective): Plan
  {
    var verdict := k.validate(e);
    if verdict.Some? then
      p.(writes := p.writes + [Write(r, Ready, No, InvalidConfiguration, Invalid(verdict.value))],
         announced := Some(Announcement(Event(true, InvalidConfiguration), Ready, No)))
    else if q.claim.None? then
      p.(writes := p.writes + [Write(r, StorageReady, No, PVCNotFound, NoSuchClaim(r.spec.pvcName))]
                   + [Write(r, Ready, No, PVCNotFound, StorageNotReady)],
         announced := Some(Announcement(Event(true, PVCNotFound), StorageReady, No)))
    else
      var p := p.(writes := p.writes + [Write(r, StorageReady, Yes, PVCFound, ClaimExists)]);
      if !Shareable(q.claim.value.modes, Replicas(r.spec), e.pvcReadOnly) then
        var (message, deployments) := Correct(k, r, w, Refusal(Replicas(r.spec), q.claim.value.modes));
        UnsafePlan(r, p, message, deployments)
      else
        var done := ApplyFull(w, Render(r, e));
        if done.None? then
          p.(writes := p.writes + [Write(r, Ready, No, ApplyFailed, ApplyDeployment("second controller"))],
             announced := Some(Announcement(Event(true, ApplyFailed), Ready, No)))
        else
          var d := Last(done.value.deployments).value;
          var p := p.(applied := true, serviceName := Some("svc-" + k.name), deployments := done.value.deployments);
          FinishPlan(r, d, MirrorPlan(r, d, p), Url(r, q))
  }

  function SetAll(cs: seq<Condition>, ws: seq<Condition>, now: int): seq<Condition>
  {
    if ws == [] then cs
    else SetCondition(SetAll(cs, ws[..|ws| - 1], now), ws[|ws| - 1].(since := now))
  }

  function Perform(k: Controller, r: Resource, p: Plan, now: int): Status
  {
    Status(SetAll(r.status.conditions, p.writes, now),
           if p.applied then k.name else r.status.deploymentName,
           Keep(p.serviceName, r.status.serviceName),
           p.readyReplicas,
           Keep(p.endpoint, r.status.endpoint),
           Keep(p.hash, r.status.hash),
           if p.applied then r.generation else r.status.observedGeneration)
  }

  function Said(r: Resource, a: Option<Announcement>): seq<Event>
  {
    if a.Some? && Flips(r.status.conditions, a.value.kind, a.value.truth) then [a.value.event] else []
  }

  // ---------------------------------------------------------------------------------------
  // A calm round does what its plan says
  // ---------------------------------------------------------------------------------------

  lemma SetAllExtends(cs: seq<Condition>, ws: seq<Condition>, c: Condition, now: int)
    ensures SetAll(cs, ws + [c], now) == SetCondition(SetAll(cs, ws, now), c.(since := now))
  {
    assert (ws + [c])[..|ws|] == ws;
  }

  ghost predicate Writes(ws: seq<Condition>, kind: Kind)
  {
    exists i :: 0 <= i < |ws| && ws[i].kind == kind
  }

  lemma {:induction false} SetAllElsewhere(cs: seq<Condition>, ws: seq<Condition>, now: int, kind: Kind)
    requires !Writes(ws, kind)
    ensures Find(SetAll(cs, ws, now), kind) == Find(cs, kind)
  {
    if ws != [] {
      SetAllElsewhere(cs, ws[..|ws| - 1], now, kind);
      SetConditionFinds(SetAll(cs, ws[..|ws| - 1], now), ws[|ws| - 1].(since := now), kind);
    }
  }

  // The staged status is what the plan so far amounts to.
  ghost predicate Tracks(k: Controller, l: Local, r: Resource, p: Plan, now: int)
  {
    l.orig == r && l.status == Perform(k, r, p, now) && l.events == Said(r, p.announced)
  }

  lemma SetTracks(k: Controller, l: Local, r: Resource, p: Plan, now: int,
                  kind: Kind, truth: Truth, reason: Reason, message: Message)
    requires Tracks(k, l, r, p, now)
    ensures Tracks(k, Set(l, kind, truth, reason, message, now), r,
                   p.(writes := p.writes + [Write(r, kind, truth, reason, message)]), now)
  {
    SetAllExtends(r.status.conditions, p.writes, Write(r, kind, truth, reason, message), now);
  }

  lemma WarnTracks(k: Controller, l: Local, r: Resource, p: Plan, now: int,
                   kind: Kind, truth: Truth, reason: Reason, message: Message)
    requires Tracks(k, l, r, p, now) && p.announced.None? && !Writes(p.writes, kind)
    ensures Tracks(k, Warn(l, kind, truth, reason, message, now), r,
                   p.(writes := p.writes + [Write(r, kind, truth, reason, message)],
                      announced := Some(Announcement(Event(true, reason), kind, truth))), now)
  {
    SetTracks(k, l, r, p, now, kind, truth, reason, message);
    SetAllElsewhere(r.status.conditions, p.writes, now, kind);
  }

  // The end of every path: the patch of an up-to-date snapshot stores the staged status.
  lemma FlushStores(k: Controller, s: State, q: Surroundings, now: int, n: nat, r: Resource, p: Plan)
    requires s.control.WantPatch? && n > 0 && Last(s.world.resources) == Some(r)
    requires Tracks(k, s.control.l, r, p, now) && s.world.deployments == p.deployments
    ensures Ends(k, Drive(k, s, q, now, n), s, r, p, now)
  {
    var l := s.control.l;
    assert Merge(r.status, MergeFrom(r.status, l.status)) == l.status;
    var s' := Step(k, s, now, Honest(s, q));
    assert s' == StepPatch(s, l, Accepted);
    assert Drive(k, s, q, now, n) == Drive(k, s', q, now, n - 1) == s';
  }

  ghost predicate Ends(k: Controller, s': State, s: State, r: Resource, p: Plan, now: int)
  {
    && s'.control.Idle?
    && s'.world == World(if Perform(k, r, p, now) == r.status then s.world.resources
                         else s.world.resources + [Some(r.(status := Perform(k, r, p, now)))], p.deployments)
    && s'.events == s.events + Said(r, p.announced)
  }

  lemma DriveOne(k: Controller, s: State, s': State, q: Surroundings, now: int, n: nat)
    requires !s.control.Idle? && n > 0 && s' == Step(k, s, now, Honest(s, q))
    ensures Drive(k, s, q, now, n) == Drive(k, s', q, now, n - 1)
  {
  }

  lemma SetMirroredTracks(k: Controller, l: Local, r: Resource, p: Plan, now: int, kind: Kind, m: Option<Mirrored>)
    requires Tracks(k, l, r, p, now)
    ensures Tracks(k, SetMirrored(l, kind, m, now), r, p.(writes := p.writes + MirrorWrite(r, kind, m)), now)
  {
    if m.None? {
      assert p.writes + [] == p.writes;
    } else {
      SetTracks(k, l, r, p, now, kind, m.value.truth, MirroredReason(m.value.reason), MirroredMessage(m.value.message));
    }
  }

  lemma MirrorTracks(k: Controller, l: Local, r: Resource, p: Plan, now: int, d: Deployment)
    requires Tracks(k, l, r, p, now) && p.readyReplicas == r.status.readyReplicas
    ensures Tracks(k, Mirror(l, d, now), r, MirrorPlan(r, d, p), now)
  {
    hide SetAll, SetMirrored, MirrorWrite;
    var l0 := if d.status.observedGeneration >= d.generation
              then l.(status := l.status.(readyReplicas := d.status.readyReplicas)) else l;
    var l1 := l0.(pass := l0.pass.(seen := Some(d), counted := l0.status.readyReplicas));
    var p1 := p.(readyReplicas := ReadyCount(r, d));
    assert Tracks(k, l1, r, p1, now);
    SetMirroredTracks(k, l1, r, p1, now, DeploymentAvailable, d.status.available);
    var l2 := SetMirrored(l1, DeploymentAvailable, d.status.available, now);
    var p2 := p1.(writes := p1.writes + MirrorWrite(r, DeploymentAvailable, d.status.available));
    SetMirroredTracks(k, l2, r, p2, now, Progressing, d.status.progressing);
    assert p2.writes + MirrorWrite(r, Progressing, d.status.progressing) == p1.writes + MirrorWrites(r, d);
  }

  lemma FinishTracks(k: Controller, l: Local, r: Resource, p: Plan, now: int, d: Deployment, url: string)
    requires Tracks(k, l, r, p, now) && p.announced.None? && !Writes(p.writes, Ready)
    requires Replicas(r.spec) > 0 && l.status.readyReplicas == ReadyCount(r, d)
    ensures Finish(l, d, url, now).WantPatch? && Tracks(k, Finish(l, d, url, now).l, r, FinishPlan(r, d, p, url), now)
  {
    var l1 := l.(status := l.status.(endpoint := url));
    var p1 := p.(endpoint := Some(url));
    assert Tracks(k, l1, r, p1, now);
    SetAllElsewhere(r.status.conditions, p.writes, now, Ready);
    if IsReady(r, d) {
      SetTracks(k, l1, r, p1, now, Ready, Yes, AllReady, PodsReady);
    } else if d.status.progressing.Some? {
      var m := d.status.progressing.value;
      SetTracks(k, l1, r, p1, now, Ready, No, MirroredReason(m.reason), MirroredMessage(m.message));
    } else {
      SetTracks(k, l1, r, p1, now, Ready, No, DeploymentUnavailable, Waiting);
    }
  }

  lemma ZeroTracks(k: Controller, l: Local, r: Resource, p: Plan, now: int, d: Deployment)
    requires Tracks(k, l, r, p, now) && p.announced.None? && Replicas(r.spec) == 0
    ensures var l' := Set(l, Ready, No, ScaledToZero, NoPods, now);
      Tracks(k, l'.(status := l'.status.(endpoint := "")), r, FinishPlan(r, d, p, ""), now)
  {
    SetTracks(k, l, r, p, now, Ready, No, ScaledToZero, NoPods);
  }

  // From the re-read Deployment to the stored status.
  lemma DeploymentTail(k: Controller, s: State, q: Surroundings, now: int, n: nat, r: Resource, p: Plan, d: Deployment)
    requires s.control.WantDeployment? && s.control.service == q.service && n >= 3
    requires Last(s.world.resources) == Some(r) && Last(s.world.deployments) == Some(d) && s.world.deployments == p.deployments
    requires Tracks(k, s.control.l, r, p, now) && p.announced.None? && !Writes(p.writes, Ready)
    requires p.readyReplicas == r.status.readyReplicas
    ensures Ends(k, Drive(k, s, q, now, n), s, r, FinishPlan(r, d, MirrorPlan(r, d, p), Url(r, q)), now)
  {
    hide Mirror, Finish, MirrorWrites, Tracks, SetCondition, Ends, ReadyWrite, Perform, Drive, Serving;
    var l, e := s.control.l, s.control.e;
    MirrorTracks(k, l, r, p, now, d);
    var p1 := MirrorPlan(r, d, p);
    var l1 := Mirror(l, d, now);
    MirrorFacts(k, l, r, p, now, d);
    var s1 := Step(k, s, now, Honest(s, q));
    DriveOne(k, s, s1, q, now, n);
    assert s1.control == AfterDeployment(l, e, q.service, d, now);
    if Replicas(r.spec) == 0 {
      ZeroTracks(k, l1, r, p1, now, d);
      FlushStores(k, s1, q, now, n - 1, r, FinishPlan(r, d, p1, ""));
      EndsAlike(k, Drive(k, s1, q, now, n - 1), s1, s, r, FinishPlan(r, d, p1, ""), now);
    } else {
      FinishTracks(k, l1, r, p1, now, d, Url(r, q));
      if q.service.NodePort? {
        var s2 := Step(k, s1, now, Honest(s1, q));
        DriveOne(k, s1, s2, q, now, n - 1);
        assert s2.control == Finish(l1, d, q.url, now);
        FlushStores(k, s2, q, now, n - 2, r, FinishPlan(r, d, p1, Url(r, q)));
        EndsAlike(k, Drive(k, s2, q, now, n - 2), s2, s, r, FinishPlan(r, d, p1, Url(r, q)), now);
      } else {
        FlushStores(k, s1, q, now, n - 1, r, FinishPlan(r, d, p1, Url(r, q)));
        EndsAlike(k, Drive(k, s1, q, now, n - 1), s1, s, r, FinishPlan(r, d, p1, Url(r, q)), now);
      }
    }
  }

  lemma MirrorFacts(k: Controller, l: Local, r: Resource, p: Plan, now: int, d: Deployment)
    requires Tracks(k, l, r, p, now) && p.readyReplicas == r.status.readyReplicas && !Writes(p.writes, Ready)
    ensures Mirror(l, d, now).orig == r && l.orig == r && Mirror(l, d, now).status.readyReplicas == ReadyCount(r, d)
    ensures !Writes(MirrorPlan(r, d, p).writes, Ready)
  {
  }

  lemma EndsAlike(k: Controller, s': State, s1: State, s: State, r: Resource, p: Plan, now: int)
    requires Ends(k, s', s1, r, p, now) && s1.events == s.events && s1.world.resources == s.world.resources
    ensures Ends(k, s', s, r, p, now)
  {
  }

  // From the cleared gate to the stored status.
  lemma ApplyTail(k: Controller, s: State, q: Surroundings, now: int, n: nat, r: Resource, p: Plan)
    requires s.control.WantApplyDeployment? && n >= 6
    requires Last(s.world.resources) == Some(r) && s.world.deployments == p.deployments
    requires Tracks(k, s.control.l, r, p, now) && p.announced.None? && !Writes(p.writes, Ready)
    requires p.readyReplicas == r.status.readyReplicas && !p.applied && p.serviceName.None?
    ensures var done := ApplyFull(s.world, Render(r, s.control.e));
      Ends(k, Drive(k, s, q, now, n), s, r,
           if done.None? then
             p.(writes := p.writes + [Write(r, Ready, No, ApplyFailed, ApplyDeployment("second controller"))],
                announced := Some(Announcement(Event(true, ApplyFailed), Ready, No)))
           else
             var d := Last(done.value.deployments).value;
             var p := p.(applied := true, serviceName := Some("svc-" + k.name), deployments := done.value.deployments);
             FinishPlan(r, d, MirrorPlan(r, d, p), Url(r, q)), now)
  {
    hide SetCondition, Ends, Drive, Warn, SetAll, Said;
    var l, e := s.control.l, s.control.e;
    var done := ApplyFull(s.world, Render(r, e));
    var s1 := Step(k, s, now, Honest(s, q));
    DriveOne(k, s, s1, q, now, n);
    var sent := l.(pass := l.pass.(sent := Some(Render(r, e))));
    if done.None? {
      WarnTracks(k, sent, r, p, now, Ready, No, ApplyFailed, ApplyDeployment("second controller"));
      var p' := p.(writes := p.writes + [Write(r, Ready, No, ApplyFailed, ApplyDeployment("second controller"))],
                   announced := Some(Announcement(Event(true, ApplyFailed), Ready, No)));
      FlushStores(k, s1, q, now, n - 1, r, p');
      EndsAlike(k, Drive(k, s1, q, now, n - 1), s1, s, r, p', now);
    } else {
      assert s1.control.WantApplyService? && s1.world == done.value;
      var s2 := Step(k, s1, now, Honest(s1, q));
      DriveOne(k, s1, s2, q, now, n - 1);
      assert s2.control.WantService?;
      var s3 := Step(k, s2, now, Honest(s2, q));
      DriveOne(k, s2, s3, q, now, n - 2);
      var p' := p.(applied := true, serviceName := Some("svc-" + k.name), deployments := done.value.deployments);
      assert s3.control.WantDeployment? && s3.control.service == q.service;
      assert Tracks(k, s3.control.l, r, p', now);
      var d := Last(done.value.deployments).value;
      DeploymentTail(k, s3, q, now, n - 3, r, p', d);
      EndsAlike(k, Drive(k, s3, q, now, n - 3), s3, s, r, FinishPlan(r, d, MirrorPlan(r, d, p'), Url(r, q)), now);
    }
  }

  // Any state about to store an unsafe-storage exit.
  lemma UnsafeStores(k: Controller, s: State, s1: State, q: Surroundings, now: int, n: nat,
                     l: Local, r: Resource, p: Plan, message: Message, exit: Exit)
    requires s1.control == Unsafe(l, message, exit, now) && n > 0 && Tracks(k, l, r, p, now)
    requires Last(s.world.resources) == Some(r) && s1.world.resources == s.world.resources && s1.events == s.events
    ensures Ends(k, Drive(k, s1, q, now, n), s, r, UnsafePlan(r, p, message, s1.world.deployments), now)
  {
    hide SetCondition, SetAll, Ends, Drive;
    SetTracks(k, l, r, p, now, StorageReady, No, ReplicaStorageUnsafe, message);
    var p1 := p.(writes := p.writes + [Write(r, StorageReady, No, ReplicaStorageUnsafe, message)]);
    SetTracks(k, Set(l, StorageReady, No, ReplicaStorageUnsafe, message, now), r, p1, now,
              Ready, No, ReplicaStorageUnsafe, message);
    var p2 := UnsafePlan(r, p, message, s1.world.deployments);
    FlushStores(k, s1, q, now, n, r, p2);
    EndsAlike(k, Drive(k, s1, q, now, n), s1, s, r, p2, now);
  }

  // The corrective path.
  lemma CorrectTail(k: Controller, s: State, q: Surroundings, now: int, n: nat, r: Resource, p: Plan)
    requires s.control.WantCached? && n >= 5 && k.hasApiReader
    requires Last(s.world.resources) == Some(r) && s.world.deployments == p.deployments
    requires Tracks(k, s.control.l, r, p, now)
    ensures var (message, deployments) := Correct(k, r, s.world, s.control.refusal);
      Ends(k, Drive(k, s, q, now, n), s, r, UnsafePlan(r, p, message, deployments), now)
  {
    hide SetCondition, SetAll, Ends, Drive, Unsafe, Perform, UnsafePlan;
    var l, refusal := s.control.l, s.control.refusal;
    var current := Last(s.world.deployments);
    var s1 := Step(k, s, now, Honest(s, q));
    DriveOne(k, s, s1, q, now, n);
    if current.None? || !Owns(r, current.value) || !Multiple(current.value) {
      assert s1.control == NotRemediated(l, refusal, now);
      UnsafeStores(k, s, s1, q, now, n - 1, l, r, p, refusal, Done);
    } else {
      var d := current.value;
      var l1 := l.(pass := l.pass.(cached := Some(d)));
      assert s1.control == WantAuthoritative(l1, refusal, d);
      var s2 := Step(k, s1, now, Honest(s1, q));
      DriveOne(k, s1, s2, q, now, n - 1);
      assert s2.control == WantRewrite(l1, refusal, d, d);
      RewriteTail(k, s, s2, q, now, n - 2, r, p, l1, refusal, d);
    }
  }

  lemma RewriteTail(k: Controller, s: State, s2: State, q: Surroundings, now: int, n: nat, r: Resource, p: Plan,
                    l: Local, refusal: Message, d: Deployment)
    requires s2.control == WantRewrite(l, refusal, d, d) && n >= 3 && k.hasApiReader
    requires Last(s.world.resources) == Some(r) && s2.world == s.world && s2.events == s.events
    requires Last(s.world.deployments) == Some(d) && Owns(r, d) && Multiple(d) && Tracks(k, l, r, p, now)
    ensures var (message, deployments) := Correct(k, r, s.world, refusal);
      Ends(k, Drive(k, s2, q, now, n), s, r, UnsafePlan(r, p, message, deployments), now)
  {
    hide SetCondition, SetAll, Ends, Drive, Unsafe, Perform, UnsafePlan;
    var s3 := Step(k, s2, now, Honest(s2, q));
    DriveOne(k, s2, s3, q, now, n);
    if ApplyOneReplica(s.world, d.resourceVersion).None? {
      assert s3.control == RemediationFailed(l, refusal, Rewriting("refused"), now);
      UnsafeStores(k, s, s3, q, now, n - 1, l, r, p, RefusalUnremediated(refusal, Rewriting("refused")), Failed);
    } else {
      assert s3.control == WantReadBack(l, refusal, d);
      var s4 := Step(k, s3, now, Honest(s3, q));
      DriveOne(k, s3, s4, q, now, n - 1);
      if ControllerField in Sole(d) {
        assert s4.control == RemediationFailed(l, refusal, ReadBackChanged, now);
        UnsafeStores(k, s, s4, q, now, n - 2, l, r, p, RefusalUnremediated(refusal, ReadBackChanged), Failed);
      } else {
        var l2 := l.(pass := l.pass.(readBack := Last(s3.world.deployments)));
        assert s4.control == Remediated(l2, refusal, now);
        UnsafeStores(k, s, s4, q, now, n - 2, l2, r, p, RefusalRemediated(refusal), Done);
      }
    }
  }

  // From the resolved, validated configuration to the stored status.
  lemma ClaimTail(k: Controller, s: State, q: Surroundings, now: int, n: nat, r: Resource, p: Plan)
    requires s.control.WantClaim? && n >= 7 && k.validate(s.control.e) == None
    requires Last(s.world.resources) == Some(r) && s.world.deployments == p.deployments
    requires Tracks(k, s.control.l, r, p, now) && p.announced.None?
    requires !Writes(p.writes, Ready) && !Writes(p.writes, StorageReady)
    requires p.readyReplicas == r.status.readyReplicas && !p.applied && p.serviceName.None?
    ensures Ends(k, Drive(k, s, q, now, n), s, r, PlanConfigured(k, r, s.world, q, p, s.control.e), now)
  {
    hide SetCondition, SetAll, Ends, Drive, Tracks, Perform, Warn, Set, Unsafe, MirrorPlan, FinishPlan, Correct;
    var l, e := s.control.l, s.control.e;
    var s1 := Step(k, s, now, Honest(s, q));
    DriveOne(k, s, s1, q, now, n);
    TracksOrig(k, l, r, p, now);
    if q.claim.None? {
      var l1 := Warn(l, StorageReady, No, PVCNotFound, NoSuchClaim(r.spec.pvcName), now);
      WarnTracks(k, l, r, p, now, StorageReady, No, PVCNotFound, NoSuchClaim(r.spec.pvcName));
      var p1 := p.(writes := p.writes + [Write(r, StorageReady, No, PVCNotFound, NoSuchClaim(r.spec.pvcName))],
                   announced := Some(Announcement(Event(true, PVCNotFound), StorageReady, No)));
      SetTracks(k, l1, r, p1, now, Ready, No, PVCNotFound, StorageNotReady);
      assert s1.control == WantPatch(Set(l1, Ready, No, PVCNotFound, StorageNotReady, now), Requeue(15));
      var p2 := p1.(writes := p1.writes + [Write(r, Ready, No, PVCNotFound, StorageNotReady)]);
      FlushStores(k, s1, q, now, n - 1, r, p2);
      EndsAlike(k, Drive(k, s1, q, now, n - 1), s1, s, r, p2, now);
    } else {
      var claim := q.claim.value;
      SetTracks(k, l, r, p, now, StorageReady, Yes, PVCFound, ClaimExists);
      var l1 := Set(l, StorageReady, Yes, PVCFound, ClaimExists, now);
      var l2 := l1.(pass := l1.pass.(claim := Some(claim)));
      var p2 := p.(writes := p.writes + [Write(r, StorageReady, Yes, PVCFound, ClaimExists)]);
      TracksAlike(k, l1, l2, r, p2, now);
      SetKeepsOrig(l, StorageReady, Yes, PVCFound, ClaimExists, now);
      var refusal := Refusal(Replicas(r.spec), claim.modes);
      if Shareable(claim.modes, Replicas(r.spec), e.pvcReadOnly) {
        assert s1.control == WantApplyDeployment(l2, e);
        ApplyTail(k, s1, q, now, n - 1, r, p2);
        EndsAlike(k, Drive(k, s1, q, now, n - 1), s1, s, r, PlanConfigured(k, r, s.world, q, p, e), now);
      } else if !k.hasApiReader {
        assert s1.control == Unsafe(l2, RefusalUnremediated(refusal, NoReader), Failed, now);
        UnsafeStores(k, s, s1, q, now, n - 1, l2, r, p2, RefusalUnremediated(refusal, NoReader), Failed);
        NoReaderCorrects(k, r, s.world, refusal);
      } else {
        assert s1.control == WantCached(l2, refusal);
        CorrectTail(k, s1, q, now, n - 1, r, p2);
        var (message, deployments) := Correct(k, r, s.world, refusal);
        EndsAlike(k, Drive(k, s1, q, now, n - 1), s1, s, r, UnsafePlan(r, p2, message, deployments), now);
      }
    }
  }

  lemma TracksOrig(k: Controller, l: Local, r: Resource, p: Plan, now: int)
    requires Tracks(k, l, r, p, now)
    ensures l.orig == r
  {
  }

  lemma TracksAlike(k: Controller, l: Local, l': Local, r: Resource, p: Plan, now: int)
    requires Tracks(k, l, r, p, now) && l'.orig == l.orig && l'.status == l.status && l'.events == l.events
    ensures Tracks(k, l', r, p, now)
  {
  }

  lemma SetKeepsOrig(l: Local, kind: Kind, truth: Truth, reason: Reason, message: Message, now: int)
    ensures Set(l, kind, truth, reason, message, now).orig == l.orig
  {
  }

  lemma NoReaderCorrects(k: Controller, r: Resource, w: World, refusal: Message)
    requires !k.hasApiReader
    ensures Correct(k, r, w, refusal) == (RefusalUnremediated(refusal, NoReader), w.deployments)
  {
  }

  // From the resolved preset on.
  lemma ResolvedTail(k: Controller, s: State, s1: State, q: Surroundings, now: int, n: nat,
                     r: Resource, l: Local, preset: Option<string>, found: Condition)
    requires s1.control == Resolved(k, l, preset, now) && n >= 7
    requires s1.world == s.world && s1.events == s.events && Last(s.world.resources) == Some(r)
    requires found.kind == PresetResolved
    requires Tracks(k, l, r, NoPlan(r, s.world).(writes := [found]), now)
    ensures Ends(k, Drive(k, s1, q, now, n), s, r, PlanResolved(k, r, s.world, q, preset, found), now)
  {
    hide SetCondition, SetAll, Ends, Drive, Warn, Set, PlanConfigured;
    var p := NoPlan(r, s.world).(writes := [found]);
    var resolved := k.resolve(preset, r.spec);
    if resolved.Failure? {
      FlushStores(k, s1, q, now, n, r, p);
      EndsAlike(k, Drive(k, s1, q, now, n), s1, s, r, p, now);
    } else {
      var e := EffectiveOf(k, preset, r.spec).value;
      var l1 := l.(status := l.status.(hash := k.hash(e)), pass := l.pass.(preset := preset));
      var p1 := p.(hash := Some(k.hash(e)));
      assert Tracks(k, l1, r, p1, now);
      if k.validate(e).Some? {
        var m := k.validate(e).value;
        WarnTracks(k, l1, r, p1, now, Ready, No, InvalidConfiguration, Invalid(m));
        var p2 := p1.(writes := p1.writes + [Write(r, Ready, No, InvalidConfiguration, Invalid(m))],
                      announced := Some(Announcement(Event(true, InvalidConfiguration), Ready, No)));
        assert s1.control == WantPatch(Warn(l1, Ready, No, InvalidConfiguration, Invalid(m), now), Failed);
        FlushStores(k, s1, q, now, n, r, p2);
        EndsAlike(k, Drive(k, s1, q, now, n), s1, s, r, p2, now);
        InvalidPlan(k, r, s.world, q, p1, e);
      } else {
        assert s1.control == WantClaim(l1, e);
        ClaimTail(k, s1, q, now, n, r, p1);
        EndsAlike(k, Drive(k, s1, q, now, n), s1, s, r, PlanConfigured(k, r, s.world, q, p1, e), now);
      }
    }
  }

  lemma InvalidPlan(k: Controller, r: Resource, w: World, q: Surroundings, p: Plan, e: Effective)
    requires k.validate(e).Some?
    ensures PlanConfigured(k, r, w, q, p, e) ==
      p.(writes := p.writes + [Write(r, Ready, No, InvalidConfiguration, Invalid(k.validate(e).value))],
         announced := Some(Announcement(Event(true, InvalidConfiguration), Ready, No)))
  {
  }

  // A calm round does what its plan says, and nothing else.
  lemma RoundFollowsPlan(k: Controller, s: State, q: Surroundings, now: int, r: Resource)
    requires s.control.Idle? && Last(s.world.resources) == Some(r)
    ensures Ends(k, Round(k, s, q, now), s, r, PlanOf(k, r, s.world, q), now)
  {
    hide SetCondition, SetAll, Ends, Drive, PlanResolved, Resolved, Warn, Set;
    var p0 := NoPlan(r, s.world);
    var l := Local(r, r.status, Pass(r, None, None, None, None, None, false, false, None, 0), []);
    NothingTracks(k, l, r, s.world, now);
    var s1 := Step(k, s, now, Honest(s, q));
    assert s1.control == Start(k, r, now) && s1.world == s.world && s1.events == s.events;
    if r.spec.presetRef.None? {
      SetTracks(k, l, r, p0, now, PresetResolved, Yes, OverridesUsed, NoPresetRef);
      var found := Write(r, PresetResolved, Yes, OverridesUsed, NoPresetRef);
      assert p0.writes + [found] == [found];
      ResolvedTail(k, s, s1, q, now, 8, r, Set(l, PresetResolved, Yes, OverridesUsed, NoPresetRef, now), None, found);
    } else {
      var name := r.spec.presetRef.value;
      var s2 := Step(k, s1, now, Honest(s1, q));
      DriveOne(k, s1, s2, q, now, 8);
      if q.preset.None? {
        var l1 := Warn(l, PresetResolved, No, PresetNotFound, NoSuchPreset(name), now);
        WarnTracks(k, l, r, p0, now, PresetResolved, No, PresetNotFound, NoSuchPreset(name));
        var p1 := p0.(writes := p0.writes + [Write(r, PresetResolved, No, PresetNotFound, NoSuchPreset(name))],
                      announced := Some(Announcement(Event(true, PresetNotFound), PresetResolved, No)));
        SetTracks(k, l1, r, p1, now, Ready, No, PresetNotFound, PresetAbsent);
        var p2 := p1.(writes := p1.writes + [Write(r, Ready, No, PresetNotFound, PresetAbsent)]);
        assert s2.control == WantPatch(Set(l1, Ready, No, PresetNotFound, PresetAbsent, now), Requeue(15));
        FlushStores(k, s2, q, now, 7, r, p2);
        EndsAlike(k, Drive(k, s2, q, now, 7), s2, s, r, p2, now);
        assert p2 == PlanOf(k, r, s.world, q);
      } else {
        SetTracks(k, l, r, p0, now, PresetResolved, Yes, PresetFound, UsingPreset(name));
        var found := Write(r, PresetResolved, Yes, PresetFound, UsingPreset(name));
        assert p0.writes + [found] == [found];
        ResolvedTail(k, s, s2, q, now, 7, r, Set(l, PresetResolved, Yes, PresetFound, UsingPreset(name), now), q.preset, found);
      }
    }
  }

  lemma NothingTracks(k: Controller, l: Local, r: Resource, w: World, now: int)
    requires l.orig == r && l.status == r.status && l.events == []
    ensures Tracks(k, l, r, NoPlan(r, w), now)
  {
  }
}
