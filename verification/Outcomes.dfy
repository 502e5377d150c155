// What one undisturbed pass reports, case by case, and how every pass ends.
module Outcomes {
  import opened Wrappers
  import opened Cluster
  import opened Machine
  import opened Quiet
  import Fixpoint
  import opened Conditions
  import Storage

  // ---------------------------------------------------------------------------------------
  // Reading a status
  // ---------------------------------------------------------------------------------------

  // The condition of that kind says this, for the resource as it is.
  predicate Reads(r: Resource, kind: Kind, truth: Truth, reason: Reason, message: Message)
  {
    var c := Find(r.status.conditions, kind);
    c.Some? && c.value == Condition(kind, truth, reason, message, r.generation, c.value.since)
  }

  // It says what a Deployment condition said, if there was one.
  predicate Mirrors(r: Resource, kind: Kind, m: Option<Mirrored>)
  {
    m.Some? ==> Reads(r, kind, m.value.truth, MirroredReason(m.value.reason), MirroredMessage(m.value.message))
  }

  // The truth value that the condition of that kind had before, if there was one.
  function Before(r: Resource, kind: Kind): Option<Truth>
  {
    var c := Find(r.status.conditions, kind);
    if c.None? then None else Some(c.value.truth)
  }

  // The configuration that a pass in these surroundings resolves.
  ghost predicate Gets(k: Controller, r: Resource, q: Surroundings, e: Effective)
  {
    && (r.spec.presetRef.Some? ==> q.preset.Some?)
    && Resolves(k, Fresh(r).(preset := if r.spec.presetRef.None? then None else q.preset), e)
  }

  // The claim lets several pods share it, or there is one pod at most.
  predicate Allows(claim: Claim, spec: Spec, e: Effective)
  {
    Wanted(spec) <= 1 || ReadWriteMany in claim.modes || (ReadOnlyMany in claim.modes && e.pvcReadOnly)
  }

  // Nothing but conditions and the hash differs.
  predicate OnlyReported(r: Resource, r': Resource)
  {
    r' == r.(status := r.status.(conditions := r'.status.conditions, hash := r'.status.hash))
  }

  function Stored(s: State): Resource
    requires Last(s.world.resources).Some?
  {
    Last(s.world.resources).value
  }

  // ---------------------------------------------------------------------------------------
  // From plans to statuses
  // ---------------------------------------------------------------------------------------

  lemma RoundStores(k: Controller, s: State, q: Surroundings, now: int, r: Resource, p: Plan)
    requires s.control.Idle? && Last(s.world.resources) == Some(r) && p == PlanOf(k, r, s.world, q)
    ensures var s' := Round(k, s, q, now);
      && s'.control.Idle? && Last(s'.world.resources) == Some(r.(status := Perform(k, r, p, now)))
      && s'.world.deployments == p.deployments
      && s'.events == s.events +
           if p.announced.Some? && Before(r, p.announced.value.kind) != Some(p.announced.value.truth)
           then [p.announced.value.event] else []
  {
    hide Round, PlanOf, Perform;
    RoundFollowsPlan(k, s, q, now, r);
  }

  lemma LastWriteReads(k: Controller, r: Resource, p: Plan, now: int, i: nat)
    requires i < |p.writes| && Fixpoint.IsFinal(p.writes, i) && p.writes[i].generation == r.generation
    ensures var c := p.writes[i];
      Reads(r.(status := Perform(k, r, p, now)), c.kind, c.truth, c.reason, c.message)
  {
    hide SetAll;
    Fixpoint.WritingSettles(r.status.conditions, p.writes, now);
    assert SaysSo(SetAll(r.status.conditions, p.writes, now), p.writes[i]);
  }

  // ---------------------------------------------------------------------------------------
  // The outcomes
  // ---------------------------------------------------------------------------------------

  lemma PresetIsMissing(k: Controller, s: State, q: Surroundings, now: int, r: Resource, name: string)
    requires s.control.Idle? && Last(s.world.resources) == Some(r) && r.spec.presetRef == Some(name) && q.preset.None?
    ensures var s' := Round(k, s, q, now);
      && Last(s'.world.resources).Some? && var r' := Stored(s');
      && OnlyReported(r, r') && r'.status.hash == r.status.hash && s'.world.deployments == s.world.deployments
      && Reads(r', PresetResolved, No, PresetNotFound, NoSuchPreset(name))
      && Reads(r', Ready, No, PresetNotFound, PresetAbsent)
      && s'.events == s.events + if Before(r, PresetResolved) == Some(No) then [] else [Event(true, PresetNotFound)]
  {
    hide Round, Reads, SetAll;
    var p := PlanOf(k, r, s.world, q);
    RoundStores(k, s, q, now, r, p);
    LastWriteReads(k, r, p, now, 0);
    LastWriteReads(k, r, p, now, 1);
  }

  lemma ConfigurationDoesNotResolve(k: Controller, s: State, q: Surroundings, now: int, r: Resource)
    requires s.control.Idle? && Last(s.world.resources) == Some(r) && (r.spec.presetRef.Some? ==> q.preset.Some?)
    requires k.resolve(if r.spec.presetRef.None? then None else q.preset, r.spec).Failure?
    ensures var s' := Round(k, s, q, now);
      && Last(s'.world.resources).Some? && var r' := Stored(s');
      && OnlyReported(r, r') && r'.status.hash == r.status.hash && s'.world.deployments == s.world.deployments
      && (if r.spec.presetRef.None? then Reads(r', PresetResolved, Yes, OverridesUsed, NoPresetRef)
          else Reads(r', PresetResolved, Yes, PresetFound, UsingPreset(r.spec.presetRef.value)))
      && s'.events == s.events
  {
    hide Round, Reads, SetAll, PlanConfigured;
    var p := PlanOf(k, r, s.world, q);
    RoundStores(k, s, q, now, r, p);
    LastWriteReads(k, r, p, now, 0);
  }

  // The plan of a pass that gets a configuration.
  lemma PlanWhenResolved(k: Controller, r: Resource, w: World, q: Surroundings, e: Effective) returns (p: Plan)
    requires Gets(k, r, q, e)
    ensures PlanOf(k, r, w, q) == PlanConfigured(k, r, w, q, p, e)
    ensures p == NoPlan(r, w).(writes := p.writes, hash := Some(k.hash(e))) && |p.writes| == 1
    ensures p.writes[0] == if r.spec.presetRef.None? then Write(r, PresetResolved, Yes, OverridesUsed, NoPresetRef)
                           else Write(r, PresetResolved, Yes, PresetFound, UsingPreset(r.spec.presetRef.value))
  {
    hide PlanConfigured;
    var found := if r.spec.presetRef.None? then Write(r, PresetResolved, Yes, OverridesUsed, NoPresetRef)
                 else Write(r, PresetResolved, Yes, PresetFound, UsingPreset(r.spec.presetRef.value));
    p := NoPlan(r, w).(writes := [found], hash := Some(k.hash(e)));
  }

  lemma ConfigurationIsInvalid(k: Controller, s: State, q: Surroundings, now: int, r: Resource, e: Effective, why: string)
    requires s.control.Idle? && Last(s.world.resources) == Some(r) && Gets(k, r, q, e) && k.validate(e) == Some(why)
    ensures var s' := Round(k, s, q, now);
      && Last(s'.world.resources).Some? && var r' := Stored(s');
      && OnlyReported(r, r') && r'.status.hash == k.hash(e) && s'.world.deployments == s.world.deployments
      && Reads(r', Ready, No, InvalidConfiguration, Invalid(why))
      && s'.events == s.events + if Before(r, Ready) == Some(No) then [] else [Event(true, InvalidConfiguration)]
  {
    hide Round, Reads, SetAll, PlanOf, Gets, Correct, ApplyFull, MirrorWrites;
    var p := PlanOf(k, r, s.world, q);
    var _ := PlanWhenResolved(k, r, s.world, q, e);
    RoundStores(k, s, q, now, r, p);
    LastWriteReads(k, r, p, now, 1);
  }

  lemma ClaimIsMissing(k: Controller, s: State, q: Surroundings, now: int, r: Resource, e: Effective)
    requires s.control.Idle? && Last(s.world.resources) == Some(r) && Gets(k, r, q, e) && k.validate(e) == None
    requires q.claim.None?
    ensures var s' := Round(k, s, q, now);
      && Last(s'.world.resources).Some? && var r' := Stored(s');
      && OnlyReported(r, r') && r'.status.hash == k.hash(e) && s'.world.deployments == s.world.deployments
      && Reads(r', StorageReady, No, PVCNotFound, NoSuchClaim(r.spec.pvcName))
      && Reads(r', Ready, No, PVCNotFound, StorageNotReady)
      && s'.events == s.events + if Before(r, StorageReady) == Some(No) then [] else [Event(true, PVCNotFound)]
  {
    hide Round, Reads, SetAll, PlanOf, Gets, Correct, ApplyFull, MirrorWrites;
    var p := PlanOf(k, r, s.world, q);
    var _ := PlanWhenResolved(k, r, s.world, q, e);
    RoundStores(k, s, q, now, r, p);
    LastWriteReads(k, r, p, now, 1);
    LastWriteReads(k, r, p, now, 2);
  }

  // Whatever becomes of the corrective path, it sends no event and the same words stand in both conditions.
  lemma StorageIsUnsafe(k: Controller, s: State, q: Surroundings, now: int, r: Resource, e: Effective) returns (message: Message)
    requires s.control.Idle? && Last(s.world.resources) == Some(r) && Gets(k, r, q, e) && k.validate(e) == None
    requires q.claim.Some? && !Allows(q.claim.value, r.spec, e)
    ensures Plainly(message) == Refusal(Wanted(r.spec), q.claim.value.modes)
    ensures var s' := Round(k, s, q, now);
      && Last(s'.world.resources).Some? && var r' := Stored(s');
      && OnlyReported(r, r') && r'.status.hash == k.hash(e)
      && Reads(r', StorageReady, No, ReplicaStorageUnsafe, message)
      && Reads(r', Ready, No, ReplicaStorageUnsafe, message)
      && s'.events == s.events
  {
    hide Round, Reads, SetAll, PlanOf, Gets, Correct, ApplyFull, MirrorWrites;
    var p := PlanOf(k, r, s.world, q);
    var _ := PlanWhenResolved(k, r, s.world, q, e);
    message := Correct(k, r, s.world, Refusal(Replicas(r.spec), q.claim.value.modes)).0;
    CorrectSays(k, r, s.world, Refusal(Replicas(r.spec), q.claim.value.modes));
    RoundStores(k, s, q, now, r, p);
    LastWriteReads(k, r, p, now, 2);
    LastWriteReads(k, r, p, now, 3);
  }

  lemma CorrectSays(k: Controller, r: Resource, w: World, refusal: Message)
    requires refusal.Refusal?
    ensures Plainly(Correct(k, r, w, refusal).0) == refusal
  {
  }

  lemma DeploymentIsAnothers(k: Controller, s: State, q: Surroundings, now: int, r: Resource, e: Effective, other: nat)
    requires s.control.Idle? && Last(s.world.resources) == Some(r) && Gets(k, r, q, e) && k.validate(e) == None
    requires q.claim.Some? && Allows(q.claim.value, r.spec, e)
    requires Last(s.world.deployments).Some? && Last(s.world.deployments).value.controller == Some(other) && other != r.uid
    ensures var s' := Round(k, s, q, now);
      && Last(s'.world.resources).Some? && var r' := Stored(s');
      && OnlyReported(r, r') && r'.status.hash == k.hash(e) && s'.world.deployments == s.world.deployments
      && Reads(r', StorageReady, Yes, PVCFound, ClaimExists)
      && Reads(r', Ready, No, ApplyFailed, ApplyDeployment("second controller"))
      && s'.events == s.events + if Before(r, Ready) == Some(No) then [] else [Event(true, ApplyFailed)]
  {
    hide Round, Reads, SetAll, PlanOf, Gets, Correct, MirrorWrites;
    var p := PlanOf(k, r, s.world, q);
    var _ := PlanWhenResolved(k, r, s.world, q, e);
    RoundStores(k, s, q, now, r, p);
    LastWriteReads(k, r, p, now, 1);
    LastWriteReads(k, r, p, now, 2);
  }

  // The plan of a pass that gets to apply.
  lemma PlanWhenAllowed(k: Controller, r: Resource, w: World, q: Surroundings, e: Effective) returns (d: Deployment, p: Plan)
    requires Gets(k, r, q, e) && k.validate(e) == None && q.claim.Some? && Allows(q.claim.value, r.spec, e)
    requires Last(w.deployments).None? || Last(w.deployments).value.controller.None? || Owns(r, Last(w.deployments).value)
    ensures ApplyFull(w, Render(r, e)).Some? && Last(ApplyFull(w, Render(r, e)).value.deployments) == Some(d)
    ensures p.applied && p.serviceName == Some("svc-" + k.name) && p.hash == Some(k.hash(e))
    ensures p.deployments == ApplyFull(w, Render(r, e)).value.deployments && |p.writes| == 2
    ensures p.writes[1] == Write(r, StorageReady, Yes, PVCFound, ClaimExists)
    ensures p.writes[0].kind == PresetResolved && p.announced.None?
    ensures PlanOf(k, r, w, q) == FinishPlan(r, d, MirrorPlan(r, d, p), Url(r, q))
  {
    hide PlanOf, Gets, Correct, ApplyFull, FinishPlan, MirrorPlan, Url, Render;
    var before := PlanWhenResolved(k, r, w, q, e);
    ApplyFullMeans(w, Render(r, e));
    assert Render(r, e).owner == r.uid by { RenderedOwner(r, e); }
    d := Last(ApplyFull(w, Render(r, e)).value.deployments).value;
    p := before.(writes := before.writes + [Write(r, StorageReady, Yes, PVCFound, ClaimExists)], applied := true,
                 serviceName := Some("svc-" + k.name), deployments := ApplyFull(w, Render(r, e)).value.deployments);
  }

  lemma RenderedOwner(r: Resource, e: Effective)
    ensures Render(r, e).owner == r.uid
  {
  }

  // Where the writes of that plan stand.
  lemma WritesOfFinish(r: Resource, d: Deployment, p: Plan, url: string)
    requires |p.writes| == 2 && p.writes[0].kind == PresetResolved && p.writes[1].kind == StorageReady
    ensures var ws := FinishPlan(r, d, MirrorPlan(r, d, p), url).writes;
      && |ws| >= 3 && ws[1] == p.writes[1] && Fixpoint.IsFinal(ws, 1)
      && ws[|ws| - 1] == ReadyWrite(r, d) && Fixpoint.IsFinal(ws, |ws| - 1)
    ensures var ws := FinishPlan(r, d, MirrorPlan(r, d, p), url).writes; var m := d.status.available;
      m.Some? ==>
        && ws[2] == Write(r, DeploymentAvailable, m.value.truth, MirroredReason(m.value.reason), MirroredMessage(m.value.message))
        && Fixpoint.IsFinal(ws, 2)
    ensures var ws := FinishPlan(r, d, MirrorPlan(r, d, p), url).writes; var m := d.status.progressing;
      m.Some? ==>
        && |ws| >= 4
        && ws[|ws| - 2] == Write(r, Progressing, m.value.truth, MirroredReason(m.value.reason), MirroredMessage(m.value.message))
        && Fixpoint.IsFinal(ws, |ws| - 2)
  {
    hide ReadyWrite;
    ReadyWriteKind(r, d);
  }

  lemma ReadyWriteKind(r: Resource, d: Deployment)
    ensures ReadyWrite(r, d).kind == Ready && ReadyWrite(r, d).generation == r.generation
  {
  }

  // Otherwise both objects are applied. The Deployment is the one described, and the status names what was
  // applied, counts what a current Deployment status reports, mirrors its conditions, and takes over the
  // generation.
  lemma ObjectsAreApplied(k: Controller, s: State, q: Surroundings, now: int, r: Resource, e: Effective)
    requires s.control.Idle? && Last(s.world.resources) == Some(r) && Gets(k, r, q, e) && k.validate(e) == None
    requires q.claim.Some? && Allows(q.claim.value, r.spec, e)
    requires var d := Last(s.world.deployments); d.None? || d.value.controller.None? || d.value.controller == Some(r.uid)
    ensures var s' := Round(k, s, q, now);
      && Last(s'.world.resources).Some? && Last(s'.world.deployments).Some?
      && var r' := Stored(s'); var d := Last(s'.world.deployments).value; var ds := d.status;
      && r' == r.(status := r'.status)
      && d.controller == Some(r.uid) && d.replicas == Some(Wanted(r.spec))
      && d.template.Some? && d.template.value.config == e
      && r'.status.deploymentName == k.name && r'.status.serviceName == "svc-" + k.name && r'.status.hash == k.hash(e)
      && r'.status.observedGeneration == r.generation
      && r'.status.readyReplicas == (if ds.observedGeneration >= d.generation then ds.readyReplicas else r.status.readyReplicas)
      && r'.status.endpoint == (if r.spec.replicas == Some(0) then "" else if q.service.NodePort? then q.url else q.service.url)
      && Reads(r', StorageReady, Yes, PVCFound, ClaimExists)
      && Mirrors(r', DeploymentAvailable, ds.available) && Mirrors(r', Progressing, ds.progressing)
  {
    hide Round, Reads, SetAll, PlanOf, Gets, ApplyFull, FinishPlan, MirrorPlan, Render, ReadyWrite;
    var d, p := PlanWhenAllowed(k, r, s.world, q, e);
    ApplyFullMeans(s.world, Render(r, e));
    RenderedFields(r, e);
    var plan := FinishPlan(r, d, MirrorPlan(r, d, p), Url(r, q));
    FieldsOfFinish(r, d, p, Url(r, q));
    WritesOfFinish(r, d, p, Url(r, q));
    RoundStores(k, s, q, now, r, plan);
    LastWriteReads(k, r, plan, now, 1);
    if d.status.available.Some? { LastWriteReads(k, r, plan, now, 2); }
    if d.status.progressing.Some? { LastWriteReads(k, r, plan, now, |plan.writes| - 2); }
  }

  lemma RenderedFields(r: Resource, e: Effective)
    ensures Render(r, e).owner == r.uid && Render(r, e).replicas == Wanted(r.spec) && Render(r, e).template.config == e
  {
  }

  lemma FieldsOfFinish(r: Resource, d: Deployment, p: Plan, url: string)
    ensures var plan := FinishPlan(r, d, MirrorPlan(r, d, p), url);
      && plan.applied == p.applied && plan.serviceName == p.serviceName && plan.hash == p.hash
      && plan.deployments == p.deployments && plan.endpoint == Some(url)
      && plan.readyReplicas == if d.status.observedGeneration >= d.generation then d.status.readyReplicas else r.status.readyReplicas
  {
  }

  // And Ready is True exactly when some replicas are wanted, the Deployment is available, and the count is no
  // less; else it says why not. It is announced when it becomes True, and no other change of it is.
  lemma ReadyIsReported(k: Controller, s: State, q: Surroundings, now: int, r: Resource, e: Effective)
    requires s.control.Idle? && Last(s.world.resources) == Some(r) && Gets(k, r, q, e) && k.validate(e) == None
    requires q.claim.Some? && Allows(q.claim.value, r.spec, e)
    requires var d := Last(s.world.deployments); d.None? || d.value.controller.None? || d.value.controller == Some(r.uid)
    ensures var s' := Round(k, s, q, now);
      && Last(s'.world.resources).Some? && Last(s'.world.deployments).Some?
      && var r' := Stored(s'); var st := Last(s'.world.deployments).value.status;
      if r.spec.replicas == Some(0) then
        Reads(r', Ready, No, ScaledToZero, NoPods) && s'.events == s.events
      else if st.available.Some? && st.available.value.truth == Yes && r'.status.readyReplicas >= Wanted(r.spec) then
        && Reads(r', Ready, Yes, AllReady, PodsReady)
        && s'.events == s.events + if Before(r, Ready) == Some(Yes) then [] else [Event(false, AllReady)]
      else if st.progressing.Some? then
        Reads(r', Ready, No, MirroredReason(st.progressing.value.reason), MirroredMessage(st.progressing.value.message))
        && s'.events == s.events
      else
        Reads(r', Ready, No, DeploymentUnavailable, Waiting) && s'.events == s.events
  {
    hide Round, Reads, SetAll, PlanOf, Gets, ApplyFull, FinishPlan, MirrorPlan, Render, ReadyWrite, IsReady;
    var d, p := PlanWhenAllowed(k, r, s.world, q, e);
    var plan := FinishPlan(r, d, MirrorPlan(r, d, p), Url(r, q));
    FieldsOfFinish(r, d, p, Url(r, q));
    WritesOfFinish(r, d, p, Url(r, q));
    RoundStores(k, s, q, now, r, plan);
    ReadyWriteKind(r, d);
    ReadyWriteSays(r, d, p, Url(r, q));
    LastWriteReads(k, r, plan, now, |plan.writes| - 1);
  }

  lemma ReadyWriteSays(r: Resource, d: Deployment, p: Plan, url: string)
    ensures var plan, c, st := FinishPlan(r, d, MirrorPlan(r, d, p), url), ReadyWrite(r, d), d.status;
      if r.spec.replicas == Some(0) then
        c == Condition(Ready, No, ScaledToZero, NoPods, r.generation, 0) && plan.announced.None?
      else if st.available.Some? && st.available.value.truth == Yes && plan.readyReplicas >= Wanted(r.spec) then
        && c == Condition(Ready, Yes, AllReady, PodsReady, r.generation, 0)
        && plan.announced == Some(Announcement(Event(false, AllReady), Ready, Yes))
      else if st.progressing.Some? then
        && c == Condition(Ready, No, MirroredReason(st.progressing.value.reason), MirroredMessage(st.progressing.value.message),
                          r.generation, 0)
        && plan.announced.None?
      else c == Condition(Ready, No, DeploymentUnavailable, Waiting, r.generation, 0) && plan.announced.None?
  {
  }

  // ---------------------------------------------------------------------------------------
  // How passes end
  // ---------------------------------------------------------------------------------------

  // This is the Deployment that was cached, and still the resource's.
  predicate IsStill(d: Option<Deployment>, cached: Deployment, r: Resource)
  {
    d.Some? && d.value.uid == cached.uid && d.value.controller == Some(r.uid)
  }

  // Which answer ends a pass before both objects are applied, and how: with an error, after so many seconds
  // again, or for good.
  lemma HowPassesEnd(k: Controller, s: State, now: int, a: Answer)
    requires !s.control.Idle? && !s.control.WantPatch? && Step(k, s, now, a).control.WantPatch?
    ensures var exit := Step(k, s, now, a).control.exit;
      match s.control
      case WantPreset(_) => exit == if a.Missing? then Requeue(15) else Failed
      case WantClaim(_, _) => exit == if a.Missing? then Requeue(15) else Failed
      case WantCached(_, _) => exit == if a.Broken? then Failed else Done
      case WantAuthoritative(l, _, cached) =>
        exit == if a.Current? && IsStill(Last(s.world.deployments), cached, l.orig) then Done else Failed
      case WantRewrite(_, _, _, _) => exit == Failed
      case WantReadBack(l, _, cached) =>
        exit == if a.Current? && IsStill(Last(s.world.deployments), cached, l.orig)
                   && Last(s.world.deployments).value.replicas == Some(1)
                then Done else Failed
      case WantApplyDeployment(_, _) => exit == Failed
      case WantApplyService(_, _) => exit == Failed
      case WantService(_, _) => exit == if a.Missing? then Requeue(1) else Failed
      case _ => true
  {
    hide SetCondition, Flips, ApplyFull, ApplyOneReplica, Render, AfterDeployment, Finish, StepRead, StepPatch, StepEndpoint,
         StepDeployment;
  }

  // And after that: when the Deployment is not there yet, in a second; otherwise for good if the resource is
  // ready, and in a minute if it is not.
  lemma HowAppliedPassesEnd(k: Controller, s: State, now: int, a: Answer)
    requires s.control.WantDeployment? || s.control.WantEndpoint?
    requires Step(k, s, now, a).control.WantPatch?
    ensures var c := Step(k, s, now, a).control;
      c.exit == if a.Broken? then Failed
                else if a.Missing? || (a.Cached? && s.world.deployments[a.version].None?) then Requeue(1)
                else if IsTrue(c.l.status, Ready) then Done else Requeue(60)
  {
    hide SetCondition, Find, Mirror, Finish, Set, IsTrue;
    if s.control.WantEndpoint? {
      if a.EndpointIs? { FinishEnds(s.control.l, s.control.seen, a.url, now); }
    } else if a.Cached? && a.version < |s.world.deployments| && s.world.deployments[a.version].Some? {
      ReportEnds(s.control.l, s.control.e, s.control.service, s.world.deployments[a.version].value, now);
    }
  }

  lemma ReportEnds(l: Local, e: Effective, service: Service, d: Deployment, now: int)
    ensures var c := AfterDeployment(l, e, service, d, now);
      c.WantPatch? ==> c.exit == if IsTrue(c.l.status, Ready) then Done else Requeue(60)
  {
    hide SetCondition, Find, Mirror, Finish;
    var m := Mirror(l, d, now);
    SetConditionFinds(m.status.conditions, Condition(Ready, No, ScaledToZero, NoPods, m.orig.generation, now), Ready);
    if service.Addressed? { FinishEnds(m, d, service.url, now); }
  }

  lemma FinishEnds(l: Local, d: Deployment, url: string, now: int)
    ensures var c := Finish(l, d, url, now);
      c.WantPatch? && c.exit == if IsTrue(c.l.status, Ready) then Done else Requeue(60)
  {
    hide SetCondition, Find;
    var cs, g := l.status.conditions, l.orig.generation;
    SetConditionFinds(cs, Condition(Ready, Yes, AllReady, PodsReady, g, now), Ready);
    SetConditionFinds(cs, Condition(Ready, No, DeploymentUnavailable, Waiting, g, now), Ready);
    if d.status.progressing.Some? {
      var m := d.status.progressing.value;
      SetConditionFinds(cs, Condition(Ready, No, MirroredReason(m.reason), MirroredMessage(m.message), g, now), Ready);
    }
  }

  predicate IsTrue(st: Status, kind: Kind)
  {
    var c := Find(st.conditions, kind);
    c.Some? && c.value.truth == Yes
  }
}
