// Runs that the safety theorems speak of: the corrective write on Deployments that are owned in different
// ways, a remediation that is stored, and a status patch that lands on a recreated resource.
module Witnesses {
  import opened Wrappers
  import opened Cluster
  import opened Machine
  import opened Guarantees
  import Monotone
  import Safety

  // A spec for several replicas that needs no preset and that the controller accepts.
  ghost predicate Several(k: Controller, spec: Spec)
  {
    && k.hasApiReader && spec.presetRef.None? && Replicas(spec) > 1
    && EffectiveOf(k, None, spec).Success? && k.validate(EffectiveOf(k, None, spec).value).None?
  }

  lemma Extend(k: Controller, s: State, actions: seq<Action>, a: Action)
    ensures Run(k, s, actions + [a]) == Act(k, Run(k, s, actions), a)
  {
    hide Act;
    assert (actions + [a])[..|actions|] == actions;
  }

  // A pass over a claim that every node can write applies the Deployment in full.
  lemma AppliedInFull(k: Controller, spec: Spec) returns (actions: seq<Action>)
    requires Several(k, spec)
    ensures var s := Run(k, BOOT, actions);
      && s.control.Idle? && |s.world.resources| == 1 && s.world.resources[0].Some?
      && s.world.resources[0].value.spec == spec && s.world.resources[0].value.status == EMPTY_STATUS
      && OwnedAlone(s.world, s.world.resources[0].value)
  {
    hide Run, Act, OwnedAlone;
    var created, read, claimed := Env(CreateResource(spec)), Reply(0, Cached(0)), Reply(0, ClaimIs(Claim([ReadWriteMany])));
    var applied, refused := Reply(0, Accepted), Reply(0, Refused(""));
    var s3 := ClearedToApply(k, spec);
    Extend(k, BOOT, [], created);
    Nothing(k);
    Extend(k, BOOT, [] + [created], read);
    Extend(k, BOOT, [] + [created] + [read], claimed);
    var before := [] + [created] + [read] + [claimed];
    Extend(k, BOOT, before, applied);
    Extend(k, BOOT, before + [applied], refused);
    Extend(k, BOOT, before + [applied] + [refused], refused);
    AppliedThenStopped(k, s3);
    actions := before + [applied] + [refused] + [refused];
  }

  // The only Deployment version is this resource's, and nobody else owns anything of it.
  predicate OwnedAlone(w: World, r: Resource)
  {
    |w.deployments| == 1 && w.deployments[0].Some?
    && var d := w.deployments[0].value;
       d.resourceVersion == 0 && Owns(r, d) && Multiple(d) && d.template.Some? && Sole(d) == ALL_FIELDS && d.shared == {}
  }

  lemma ClearedToApply(k: Controller, spec: Spec) returns (s: State)
    requires Several(k, spec)
    ensures s == Act(k, Act(k, Act(k, BOOT, Env(CreateResource(spec))), Reply(0, Cached(0))),
                     Reply(0, ClaimIs(Claim([ReadWriteMany]))))
    ensures s.control.WantApplyDeployment? && s.world.deployments == [] && |s.world.resources| == 1
    ensures s.world.resources[0] == Some(s.control.l.orig) && s.control.l.orig == Resource(0, 1, spec, EMPTY_STATUS)
  {
    hide SetCondition, Flips;
    var s1 := Act(k, BOOT, Env(CreateResource(spec)));
    var s2 := Act(k, s1, Reply(0, Cached(0)));
    assert s2.control.WantClaim? && s2.control.l.orig == s1.world.resources[0].value;
    s := Act(k, s2, Reply(0, ClaimIs(Claim([ReadWriteMany]))));
  }

  lemma AppliedThenStopped(k: Controller, s: State)
    requires s.control.WantApplyDeployment? && s.world.deployments == [] && Replicas(s.control.l.orig.spec) > 1
    ensures var refused := Reply(0, Refused(""));
      var s' := Act(k, Act(k, Act(k, s, Reply(0, Accepted)), refused), refused);
      s'.control.Idle? && s'.world.resources == s.world.resources && OwnedAlone(s'.world, s.control.l.orig)
  {
    hide SetCondition, Flips;
    var s1 := Act(k, s, Reply(0, Accepted));
    assert s1.control.WantApplyService? && OwnedAlone(s1.world, s.control.l.orig);
    var s2 := Act(k, s1, Reply(0, Refused("")));
    assert s2.control.WantPatch?;
  }

  lemma Nothing(k: Controller)
    ensures Run(k, BOOT, []) == BOOT
  {
  }

  // Then other managers come to own some fields of it, and the claim turns out to be for one node: the
  // corrective path reaches its write.
  lemma CorrectiveWriteIsReached(k: Controller, spec: Spec, others: set<Field>)
    returns (s: State, l: Local, refusal: Message, d: Deployment)
    requires Several(k, spec)
    ensures Reachable(k, s) && s.control == WantRewrite(l, refusal, d, d) && Last(s.world.deployments) == Some(d)
    ensures d.shared == others && d.applied == ALL_FIELDS && d.template.Some?
    ensures Last(s.world.resources) == Some(l.orig) && l.orig.status == EMPTY_STATUS
  {
    hide Run, Act;
    var before := AppliedInFull(k, spec);
    var s0 := Run(k, BOOT, before);
    assert Reachable(k, s0);
    var r := s0.world.resources[0].value;
    d := s0.world.deployments[0].value.(shared := others, resourceVersion := 1);
    var s1 := Act(k, s0, Env(WriteDeployment(d)));
    BecomesShared(k, s0, d);
    var read, claimed := Reply(0, Cached(0)), Reply(0, ClaimIs(Claim([ReadWriteOnce])));
    var found, current := Reply(0, Cached(1)), Reply(0, Current);
    var s2 := Act(k, Act(k, s1, read), claimed);
    UpToTheCorrectivePath(k, s1, r);
    s := Act(k, Act(k, s2, found), current);
    ThroughBothReads(k, s2, d);
    l, refusal := s.control.l, s.control.refusal;
    ReachesNext(k, s0, Env(WriteDeployment(d)));
    ReachesNext(k, s1, read);
    ReachesNext(k, Act(k, s1, read), claimed);
    ReachesNext(k, s2, found);
    ReachesNext(k, Act(k, s2, found), current);
  }

  lemma BecomesShared(k: Controller, s: State, d: Deployment)
    requires |s.world.deployments| == 1 && d.resourceVersion == 1
    ensures var s' := Act(k, s, Env(WriteDeployment(d)));
      s' == s.(world := s.world.(deployments := s.world.deployments + [Some(d)]))
  {
  }

  lemma UpToTheCorrectivePath(k: Controller, s: State, r: Resource)
    requires s.control.Idle? && s.world.resources != [] && s.world.resources[0] == Some(r) && Several(k, r.spec)
    ensures var s' := Act(k, Act(k, s, Reply(0, Cached(0))), Reply(0, ClaimIs(Claim([ReadWriteOnce]))));
      s'.control.WantCached? && s'.control.l.orig == r && s'.world == s.world
  {
    hide SetCondition, Flips;
    var s1 := Act(k, s, Reply(0, Cached(0)));
    assert s1.control.WantClaim? && s1.control.l.orig == r;
  }

  lemma ThroughBothReads(k: Controller, s: State, d: Deployment)
    requires s.control.WantCached? && |s.world.deployments| == 2 && s.world.deployments[1] == Some(d)
    requires Owns(s.control.l.orig, d) && Multiple(d)
    ensures var s' := Act(k, Act(k, s, Reply(0, Cached(1))), Reply(0, Current));
      && s'.world == s.world && s'.control.WantRewrite?
      && s'.control == WantRewrite(s'.control.l, s'.control.refusal, d, d) && s'.control.l.orig == s.control.l.orig
  {
  }

  // If there are none, it meets a template that the operator alone owns, and is not taken.
  lemma OnesOwnDeploymentStays(k: Controller, spec: Spec)
    returns (s: State, l: Local, refusal: Message, d: Deployment)
    requires Several(k, spec)
    ensures Reachable(k, s) && s.control == WantRewrite(l, refusal, d, d)
    ensures Sole(d) == ALL_FIELDS && LosesTemplate(d) && ApplyOneReplica(s.world, d.resourceVersion).None?
  {
    s, l, refusal, d := CorrectiveWriteIsReached(k, spec, {});
  }

  // If they own the template alone, it is taken and drops the controller reference, so that the read-back refuses it.
  lemma ASharedTemplateIsNotEnough(k: Controller, spec: Spec)
    returns (s: State, l: Local, refusal: Message, d: Deployment)
    requires Several(k, spec)
    ensures Reachable(k, s) && s.control == WantRewrite(l, refusal, d, d) && Sole(d) == {ControllerField, ReplicasField}
    ensures var w := ApplyOneReplica(s.world, d.resourceVersion);
      w.Some? && Last(w.value.deployments).Some? && Last(w.value.deployments).value.controller.None?
  {
    s, l, refusal, d := CorrectiveWriteIsReached(k, spec, {TemplateField});
  }

  // If they own the controller reference and the template, it is taken, read back, and stored as a remediation.
  lemma ARemediationIsStored(k: Controller, spec: Spec) returns (s: State)
    requires Several(k, spec)
    ensures Reachable(k, s) && s.control.Idle? && Last(s.world.resources).Some?
    ensures Safety.RemediationStamp(Last(s.world.resources).value.status).Some?
  {
    hide Run, Act, Step, StepPatch, StepReadBack, ApplyOneReplica, LosesTemplate;
    var s0, l, refusal, d := CorrectiveWriteIsReached(k, spec, {ControllerField, TemplateField});
    var ok := Reply(0, Accepted);
    var s1, s2 := Act(k, s0, ok), Act(k, Act(k, s0, ok), Reply(0, Current));
    ThenReadBack(k, s0, l, refusal, d);
    ReachesNext(k, s0, ok);
    ReachesNext(k, s1, Reply(0, Current));
    ReachesNext(k, s2, ok);
    s := Act(k, s2, ok);
    ThenStored(k, s2, l.(pass := l.pass.(readBack := Last(s1.world.deployments))), refusal);
  }

  lemma ReachesNext(k: Controller, s: State, a: Action)
    requires Reachable(k, s)
    ensures Reachable(k, Act(k, s, a))
  {
    hide Act;
    var actions :| s == Run(k, BOOT, actions);
    Extend(k, BOOT, actions, a);
  }

  lemma ThenReadBack(k: Controller, s: State, l: Local, refusal: Message, d: Deployment)
    requires Reachable(k, s) && s.control == WantRewrite(l, refusal, d, d) && Last(s.world.deployments) == Some(d)
    requires d.shared == {ControllerField, TemplateField}
    ensures var s1 := Act(k, s, Reply(0, Accepted));
      var s2 := Act(k, s1, Reply(0, Current));
      && s2.world.resources == s.world.resources
      && s2.control == Remediated(l.(pass := l.pass.(readBack := Last(s1.world.deployments))), refusal, 0)
  {
    hide Remediated, Run;
    CorrectiveWriteIsTaken(k, s, l, refusal, d, d);
    CorrectiveWriteIsExact(k, s, l, refusal, d, d);
    UndisturbedReadBack(k, s, l, refusal, d, d, 0, 0);
  }

  lemma ThenStored(k: Controller, s: State, l: Local, refusal: Message)
    requires s.control == Remediated(l, refusal, 0)
    requires Last(s.world.resources) == Some(l.orig) && l.orig.status == EMPTY_STATUS
    ensures var s' := Act(k, s, Reply(0, Accepted));
      && s'.control.Idle? && Last(s'.world.resources).Some?
      && Safety.RemediationStamp(Last(s'.world.resources).value.status).Some?
  {
    hide Unsafe, Safety.RemediationStamp;
    Stamped(l, refusal);
    var st := s.control.l.status;
    assert Merge(l.orig.status, MergeFrom(l.orig.status, st)) == st;
  }

  lemma Stamped(l: Local, refusal: Message)
    ensures var c := Remediated(l, refusal, 0);
      c.WantPatch? && c.l.orig == l.orig && Safety.RemediationStamp(c.l.status).Some?
  {
    hide SetCondition;
    var m := RefusalRemediated(refusal);
    var c1 := Condition(StorageReady, No, ReplicaStorageUnsafe, m, l.orig.generation, 0);
    var c2 := Condition(Ready, No, ReplicaStorageUnsafe, m, l.orig.generation, 0);
    SetConditionFinds(l.status.conditions, c1, StorageReady);
    SetConditionFinds(SetCondition(l.status.conditions, c1), c2, StorageReady);
  }

  // A status patch goes by name: sent after the resource has been deleted and created again, it stores the
  // generation of a pass over the old one, and there never was a pass over the new one.
  lemma ALatePatchLands(k: Controller, a: Spec, b: Spec) returns (s: State, r: Resource)
    requires Monotone.Simple(k, a)
    ensures Reachable(k, s) && s.control.Idle?
    ensures Last(s.world.resources) == Some(r) && r.spec == b && r.status.observedGeneration == 1
    ensures forall p :: p in s.passes ==> p.resource.uid != r.uid
  {
    hide Act, Run;
    var created, ok := Env(CreateResource(a)), Reply(0, Accepted);
    var read, claimed, gone := Monotone.PassOver(0)[0], Monotone.PassOver(0)[1], Reply(0, Broken(""));
    assert Reachable(k, BOOT) by { Nothing(k); }
    var s1 := Act(k, BOOT, created);
    FirstCreated(k, a);
    ReachesNext(k, BOOT, created);
    ReachesNext(k, s1, read);
    ReachesNext(k, Act(k, s1, read), claimed);
    var s2 := Act(k, Act(k, s1, read), claimed);
    Monotone.FirstActs(k, s1, 0, Resource(0, 1, a, EMPTY_STATUS));
    ReachesNext(k, s2, ok);
    ReachesNext(k, Act(k, s2, ok), ok);
    ReachesNext(k, Act(k, Act(k, s2, ok), ok), gone);
    var s3 := Act(k, Act(k, Act(k, s2, ok), ok), gone);
    ToThePatch(k, s2);
    var deleted, again := Env(DeleteResource), Env(CreateResource(b));
    ReachesNext(k, s3, deleted);
    ReachesNext(k, Act(k, s3, deleted), again);
    ReachesNext(k, Act(k, Act(k, s3, deleted), again), ok);
    s := Act(k, Act(k, Act(k, s3, deleted), again), ok);
    PatchedAfterwards(k, s3, b);
    r := Last(s.world.resources).value;
  }

  lemma FirstCreated(k: Controller, spec: Spec)
    ensures var s := Act(k, BOOT, Env(CreateResource(spec)));
      s.control.Idle? && s.passes == [] && s.world == World([Some(Resource(0, 1, spec, EMPTY_STATUS))], [])
  {
  }

  lemma ToThePatch(k: Controller, s: State)
    requires s.control.WantApplyDeployment? && s.world.deployments == []
    ensures var ok := Reply(0, Accepted);
      var s' := Act(k, Act(k, Act(k, s, ok), ok), Reply(0, Broken("")));
      && s'.control.WantPatch? && s'.world.resources == s.world.resources && s'.passes == s.passes
      && s'.control.l.orig == s.control.l.orig && s'.control.l.pass.resource == s.control.l.pass.resource
      && s'.control.l.status.observedGeneration == s.control.l.orig.generation
  {
    var ok := Reply(0, Accepted);
    var s1 := Act(k, s, ok);
    assert s1.control.WantApplyService?;
    var s2 := Act(k, s1, ok);
    assert s2.control.WantService?;
  }

  lemma PatchedAfterwards(k: Controller, s: State, b: Spec)
    requires s.control.WantPatch? && s.passes == [] && |s.world.resources| == 1
    requires s.control.l.pass.resource.uid == 0
    requires s.control.l.status.observedGeneration == 1 != s.control.l.orig.status.observedGeneration
    ensures var s' := Act(k, Act(k, Act(k, s, Env(DeleteResource)), Env(CreateResource(b))), Reply(0, Accepted));
      && s'.control.Idle? && Last(s'.world.resources).Some?
      && Last(s'.world.resources).value.spec == b && Last(s'.world.resources).value.uid == 2
      && Last(s'.world.resources).value.status.observedGeneration == 1
      && s'.passes == [s.control.l.pass]
  {
  }
}
