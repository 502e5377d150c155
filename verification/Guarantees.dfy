// The safety theorems, read off the invariant: each speaks of every run from an empty API server.
module Guarantees {
  import opened Wrappers
  import opened Cluster
  import opened Storage
  import opened Machine
  import opened Safety

  ghost predicate Reachable(k: Controller, s: State)
  {
    exists actions :: s == Run(k, BOOT, actions)
  }

  // Finished, abandoned and pending passes.
  ghost function Passes(s: State): seq<Pass>
  {
    s.passes + if s.control.Idle? then [] else [s.control.l.pass]
  }

  lemma ReachableIsSafe(k: Controller, s: State)
    requires Reachable(k, s)
    ensures Inv(k, s)
    ensures forall p :: p in Passes(s) ==> PassOk(k, p, s.world)
  {
    var actions :| s == Run(k, BOOT, actions);
    RunKeeps(k, BOOT, actions);
  }

  // A stored observedGeneration g > 0 was earned: in some pass over a snapshot of generation g the
  // configuration resolved and validated, the claim allowed the replicas, and the Deployment rendered
  // from that snapshot and the Service were both applied; some stored Deployment version carried exactly
  // that controller, those replicas and that template.
  lemma ObservedGenerationIsEarned(k: Controller, s: State, r: Resource)
    requires Reachable(k, s) && Some(r) in s.world.resources && r.status.observedGeneration > 0
    ensures exists i :: 0 <= i < |s.passes| && s.passes[i].resource.generation == r.status.observedGeneration
              && s.passes[i].deploymentApplied && s.passes[i].serviceApplied
              && s.passes[i].sent.Some? && Licensed(k, s.passes[i], s.passes[i].sent.value)
              && Carried(s.world.deployments, s.passes[i].sent.value)
  {
    ReachableIsSafe(k, s);
    var i :| 0 <= i < |s.world.resources| && s.world.resources[i] == Some(r);
    assert RealizedAt(k, s.passes, r.status.observedGeneration);
  }

  // A stored Ready=True stamped g was earned in a pass over a snapshot of generation g, and the ready
  // count it compared was reported by a Deployment status that had observed its own generation.
  lemma ReadyIsEarned(k: Controller, s: State, r: Resource)
    requires Reachable(k, s) && Some(r) in s.world.resources && ReadyStamp(r.status).Some?
    ensures exists i :: 0 <= i < |s.passes| && s.passes[i].resource.generation == ReadyStamp(r.status).value
              && SawReady(k, s.passes[i], s.world.deployments)
  {
    ReachableIsSafe(k, s);
    var i :| 0 <= i < |s.world.resources| && s.world.resources[i] == Some(r);
    assert SawReadyAt(k, s.passes, s.world.deployments, ReadyStamp(r.status).value);
  }

  // The ready count itself is never invented, even when it is carried over from a stale snapshot.
  lemma ReadyReplicasWereReported(k: Controller, s: State, r: Resource)
    requires Reachable(k, s) && Some(r) in s.world.resources && r.status.readyReplicas > 0
    ensures Reported(s.world.deployments, r.status.readyReplicas)
  {
    ReachableIsSafe(k, s);
    var i :| 0 <= i < |s.world.resources| && s.world.resources[i] == Some(r);
  }

  // As long as nobody deletes the resource, all its versions and all passes are of one UID, so the passes
  // that earned what is stored were over this very resource.
  lemma {:induction false} OneIncarnation(k: Controller, actions: seq<Action>)
    requires forall i :: 0 <= i < |actions| ==> actions[i] != Env(DeleteResource)
    ensures OfOne(Run(k, BOOT, actions).world.resources)
  {
    hide Act, OfOne;
    if actions == [] {
      assert OfOne([]) by { NothingIsOfOne(); }
    } else {
      var n := |actions| - 1;
      OneIncarnation(k, actions[..n]);
      ActKeepsOne(k, Run(k, BOOT, actions[..n]), actions[n]);
    }
  }

  ghost predicate OfOne(log: seq<Option<Resource>>)
  {
    && (forall i :: 0 <= i < |log| ==> log[i].Some?)
    && (forall i, j :: 0 <= i < |log| && 0 <= j < |log| ==> log[i].value.uid == log[j].value.uid)
  }

  lemma NothingIsOfOne()
    ensures OfOne([])
  {
  }

  lemma ActKeepsOne(k: Controller, s: State, action: Action)
    requires OfOne(s.world.resources) && action != Env(DeleteResource)
    ensures OfOne(Act(k, s, action).world.resources)
  {
    hide Step, StepPatch, Interfere, OfOne;
    match action
    case Env(e) => InterfereKeepsOne(s.world, e);
    case Crash =>
    case Reply(now, a) =>
      if s.control.WantPatch? {
        PatchKeepsOne(s, s.control.l, a);
        assert Step(k, s, now, a) == StepPatch(s, s.control.l, a) by { PatchSteps(k, s, now, a); }
      } else {
        OnlyPatchesWriteResources(k, s, now, a);
      }
  }

  lemma PatchSteps(k: Controller, s: State, now: int, a: Answer)
    requires s.control.WantPatch?
    ensures Step(k, s, now, a) == StepPatch(s, s.control.l, a)
  {
    hide StepPatch;
  }

  lemma InterfereKeepsOne(w: World, e: Environment)
    requires OfOne(w.resources) && !e.DeleteResource?
    ensures OfOne(Interfere(w, e).resources)
  {
  }

  lemma PatchKeepsOne(s: State, l: Local, a: Answer)
    requires OfOne(s.world.resources)
    ensures OfOne(StepPatch(s, l, a).world.resources)
  {
    hide MergeFrom, Merge;
  }

  lemma OnlyPatchesWriteResources(k: Controller, s: State, now: int, a: Answer)
    requires !s.control.WantPatch?
    ensures Step(k, s, now, a).world.resources == s.world.resources
  {
    hide Start, AfterClaim, AfterDeployment, Finish, Render;
  }

  lemma PassesAreOverThisResource(k: Controller, actions: seq<Action>, r: Resource, p: Pass)
    requires forall i :: 0 <= i < |actions| ==> actions[i] != Env(DeleteResource)
    requires Some(r) in Run(k, BOOT, actions).world.resources && p in Passes(Run(k, BOOT, actions))
    ensures p.resource.uid == r.uid
  {
    var s := Run(k, BOOT, actions);
    OneIncarnation(k, actions);
    ReachableIsSafe(k, s);
    var i :| 0 <= i < |s.world.resources| && s.world.resources[i] == Some(r);
    var j :| 0 <= j < |s.world.resources| && s.world.resources[j] == Some(p.resource);
  }

  // The gate and the rendering agree: whatever became of the call, a full apply of several replicas was
  // sent only after a claim offering ReadWriteMany, or ReadOnlyMany with /models mounted read-only.
  // A pass whose claim refuses sends no full apply, and a pass that goes corrective sends none either.
  lemma GateHolds(k: Controller, s: State, p: Pass)
    requires Reachable(k, s) && p in Passes(s)
    ensures p.sent.Some? && p.sent.value.replicas > 1 ==>
      p.claim.Some? && (ReadWriteMany in p.claim.value.modes
                        || (ReadOnlyMany in p.claim.value.modes && p.sent.value.template.modelsReadOnly))
    ensures p.claim.Some?
      && EffectiveOf(k, p.preset, p.resource.spec).Success?
      && !Shareable(p.claim.value.modes, Replicas(p.resource.spec), EffectiveOf(k, p.preset, p.resource.spec).value.pvcReadOnly)
      ==> p.sent.None?
    ensures p.cached.Some? ==> p.sent.None?
  {
    ReachableIsSafe(k, s);
  }

  // The corrective write: if the server takes it, the object it lands on is, at that instant, the one that
  // was checked: cached UID, controlled by this resource, several replicas.
  lemma CorrectiveWriteLands(k: Controller, s: State, l: Local, refusal: Message, cached: Deployment, d: Deployment)
    requires Reachable(k, s) && s.control == WantRewrite(l, refusal, cached, d)
    ensures ApplyOneReplica(s.world, d.resourceVersion).Some? ==>
      && Last(s.world.deployments) == Some(d)
      && d.uid == cached.uid && d.controller == Some(l.orig.uid) && d.replicas.Some? && d.replicas.value > 1
      && Some(cached) in s.world.deployments && Owns(l.orig, cached) && Multiple(cached)
  {
    ReachableIsSafe(k, s);
    if ApplyOneReplica(s.world, d.resourceVersion).Some? {
      RewriteHitsCheckedVersion(s.world, d);
    }
  }

  // `d` with one replica, and otherwise what it was but for what the server stamps and whose fields they are.
  predicate OnlyReplicasChanged(d: Deployment, d': Deployment)
  {
    d' == d.(replicas := Some(1), resourceVersion := d'.resourceVersion, generation := d'.generation, applied := d'.applied)
  }

  // The server takes it exactly when the checked version is still the current one, no other manager owns
  // the replicas, and the operator does not alone own a template that the write would remove.
  lemma CorrectiveWriteIsTaken(k: Controller, s: State, l: Local, refusal: Message, cached: Deployment, d: Deployment)
    requires Reachable(k, s) && s.control == WantRewrite(l, refusal, cached, d)
    ensures ApplyOneReplica(s.world, d.resourceVersion).Some? <==>
      Last(s.world.deployments) == Some(d) && ReplicasField !in d.shared && !LosesTemplate(d)
  {
    ReachableIsSafe(k, s);
    if ApplyOneReplica(s.world, d.resourceVersion).Some? {
      RewriteHitsCheckedVersion(s.world, d);
    }
  }

  // So on a Deployment whose template the operator alone owns the replicas stay at several, whatever the
  // answer is, and the pass says that it failed.
  lemma OnesOwnTemplateBlocksIt(
      k: Controller, s: State, l: Local, refusal: Message, cached: Deployment, d: Deployment, now: int, a: Answer)
    requires Reachable(k, s) && s.control == WantRewrite(l, refusal, cached, d) && LosesTemplate(d)
    ensures var s' := StepRewrite(s, l, refusal, cached, d, now, a);
      && s'.world == s.world && Multiple(d)
      && (s' == s || exists why :: s'.control == RemediationFailed(l, refusal, why, now))
  {
    ReachableIsSafe(k, s);
    CorrectiveWriteIsTaken(k, s, l, refusal, cached, d);
  }

  // If it is taken it leaves one replica, and changes nothing else exactly when some other manager owns the
  // controller reference too: what the operator alone applied before and this apply leaves out is removed.
  lemma CorrectiveWriteIsExact(k: Controller, s: State, l: Local, refusal: Message, cached: Deployment, d: Deployment)
    requires Reachable(k, s) && s.control == WantRewrite(l, refusal, cached, d)
    requires ApplyOneReplica(s.world, d.resourceVersion).Some?
    ensures var w' := ApplyOneReplica(s.world, d.resourceVersion).value;
      && w'.resources == s.world.resources
      && |w'.deployments| == |s.world.deployments| + 1 && w'.deployments[..|s.world.deployments|] == s.world.deployments
      && Last(w'.deployments).Some? && Last(w'.deployments).value.replicas == Some(1)
      && (OnlyReplicasChanged(d, Last(w'.deployments).value) <==> ControllerField !in Sole(d))
  {
    CorrectiveWriteLands(k, s, l, refusal, cached, d);
  }

  // And the read-back that follows at once ends well exactly then: otherwise the controller reference is
  // gone, and it refuses what it finds.
  lemma UndisturbedReadBack(
      k: Controller, s: State, l: Local, refusal: Message, cached: Deployment, d: Deployment, now: int, later: int)
    requires Reachable(k, s) && s.control == WantRewrite(l, refusal, cached, d)
    requires ApplyOneReplica(s.world, d.resourceVersion).Some?
    ensures var s1 := StepRewrite(s, l, refusal, cached, d, now, Accepted);
      && s1.control == WantReadBack(l, refusal, cached)
      && StepReadBack(s1, l, refusal, cached, later, Current).control ==
           if ControllerField in Sole(d) then RemediationFailed(l, refusal, ReadBackChanged, later)
           else Remediated(l.(pass := l.pass.(readBack := Last(s1.world.deployments))), refusal, later)
  {
    CorrectiveWriteLands(k, s, l, refusal, cached, d);
  }

  // So a Deployment that the operator once applied in full can be remediated, with nobody interfering,
  // exactly when other managers own its controller reference and its template, and not its replicas.
  lemma RemediationNeedsOthers(
      k: Controller, s: State, l: Local, refusal: Message, cached: Deployment, d: Deployment, now: int, later: int)
    requires Reachable(k, s) && s.control == WantRewrite(l, refusal, cached, d)
    requires d.applied == ALL_FIELDS && d.template.Some?
    ensures var s1 := StepRewrite(s, l, refusal, cached, d, now, Accepted);
      var s2 := if s1.control.WantReadBack? then StepReadBack(s1, l, refusal, cached, later, Current) else s1;
      && s2.control.WantPatch?
      && (s2.control.exit == Done <==> Last(s.world.deployments) == Some(d) && d.shared == {ControllerField, TemplateField})
  {
    hide Set, SetCondition, Multiple, ApplyOneReplica;
    CorrectiveWriteIsTaken(k, s, l, refusal, cached, d);
    if ApplyOneReplica(s.world, d.resourceVersion).Some? {
      UndisturbedReadBack(k, s, l, refusal, cached, d, now, later);
    }
    if ReplicasField !in d.shared && TemplateField in d.shared && ControllerField in d.shared {
      OnlyThree(d.shared);
    }
  }

  lemma OnlyThree(fields: set<Field>)
    requires ReplicasField !in fields && TemplateField in fields && ControllerField in fields
    ensures fields == {ControllerField, TemplateField}
  {
    forall f: Field ensures f in fields <==> f in {ControllerField, TemplateField} {
      match f
      case ControllerField =>
      case ReplicasField =>
      case TemplateField =>
    }
  }

  // Every Deployment version is written by somebody else, by a full apply, or by a corrective write.
  lemma {:induction false} EveryDeploymentWriteIsAccounted(k: Controller, actions: seq<Action>, i: nat) returns (n: nat)
    requires i < |Run(k, BOOT, actions).world.deployments|
    ensures n < |actions|
    ensures var s, s' := Run(k, BOOT, actions[..n]), Run(k, BOOT, actions[..n + 1]);
      && |s.world.deployments| == i && s'.world.deployments == Run(k, BOOT, actions).world.deployments[..i + 1]
      && (actions[n].Env?
          || (s.control.WantApplyDeployment?
              && ApplyFull(s.world, Render(s.control.l.orig, s.control.e)).Some?
              && s'.world == ApplyFull(s.world, Render(s.control.l.orig, s.control.e)).value)
          || (s.control.WantRewrite?
              && ApplyOneReplica(s.world, s.control.authoritative.resourceVersion).Some?
              && s'.world == ApplyOneReplica(s.world, s.control.authoritative.resourceVersion).value))
  {
    hide Act, Render, ApplyFull, ApplyOneReplica;
    if actions == [] {
      assert false;
    }
    var m := |actions| - 1;
    var init := actions[..m];
    var s, s' := Run(k, BOOT, init), Run(k, BOOT, actions);
    OneActWritesOne(k, s, actions[m]);
    assert actions[..m + 1] == actions;
    if i < |s.world.deployments| {
      n := EveryDeploymentWriteIsAccounted(k, init, i);
      assert init[..n] == actions[..n] && init[..n + 1] == actions[..n + 1];
      assert s'.world.deployments[..i + 1] == s.world.deployments[..i + 1];
    } else {
      n := m;
      assert s'.world.deployments[..i + 1] == s'.world.deployments;
    }
  }

  lemma OneActWritesOne(k: Controller, s: State, action: Action)
    ensures var s' := Act(k, s, action);
      || s'.world.deployments == s.world.deployments
      || (|s'.world.deployments| == |s.world.deployments| + 1
          && s'.world.deployments[..|s.world.deployments|] == s.world.deployments
          && (action.Env?
              || (s.control.WantApplyDeployment?
                  && ApplyFull(s.world, Render(s.control.l.orig, s.control.e)) == Some(s'.world))
              || (s.control.WantRewrite?
                  && ApplyOneReplica(s.world, s.control.authoritative.resourceVersion) == Some(s'.world))))
  {
    hide Render, Start, AfterClaim, Resolved, AfterDeployment, Finish;
    if action.Reply? && !s.control.WantRewrite? && !s.control.WantApplyDeployment? {
      OnlyTwoStepsWriteDeployments(k, s, action.now, action.a);
    }
  }

  // No step but those two writes a Deployment.
  lemma OnlyTwoStepsWriteDeployments(k: Controller, s: State, now: int, a: Answer)
    requires !s.control.WantRewrite? && !s.control.WantApplyDeployment?
    ensures Step(k, s, now, a).world.deployments == s.world.deployments
  {
  }

  // Staged or stored statuses of a state.
  ghost predicate Shows(s: State, st: Status)
  {
    (!s.control.Idle? && st == s.control.l.status)
    || exists i :: 0 <= i < |s.world.resources| && s.world.resources[i].Some? && s.world.resources[i].value.status == st
  }

  // A StorageReady condition that claims a remediation was earned: some pass, over a snapshot of the
  // generation it is stamped with, read back a Deployment with the UID it had cached, controlled by its
  // resource and with one replica. Both versions were stored.
  lemma RemediatedMeansVerified(k: Controller, s: State, st: Status)
    requires Reachable(k, s) && Shows(s, st) && RemediationStamp(st).Some?
    ensures exists i :: 0 <= i < |Passes(s)| && Passes(s)[i].resource.generation == RemediationStamp(st).value
              && VerifiedRemediation(Passes(s)[i], s.world.deployments)
  {
    ReachableIsSafe(k, s);
    var g := RemediationStamp(st).value;
    if ReadBackAt(s.passes, g) {
      var i :| 0 <= i < |s.passes| && s.passes[i].resource.generation == g && s.passes[i].readBack.Some?;
      assert Passes(s)[i] == s.passes[i] && Passes(s)[i] in Passes(s);
    } else {
      assert Passes(s)[|s.passes|] == s.control.l.pass && s.control.l.pass in Passes(s);
    }
  }

  ghost predicate VerifiedRemediation(p: Pass, deployments: seq<Option<Deployment>>)
  {
    && p.cached.Some? && p.cached in deployments && Owns(p.resource, p.cached.value) && Multiple(p.cached.value)
    && p.readBack.Some? && p.readBack in deployments && Owns(p.resource, p.readBack.value)
    && p.readBack.value.uid == p.cached.value.uid && p.readBack.value.replicas == Some(1)
  }

  // In one step: the message is staged exactly when the read-back sees the cached UID, this owner and one replica.
  lemma ReadBackDecides(s: State, l: Local, refusal: Message, cached: Deployment, now: int, a: Answer)
    requires s.control == WantReadBack(l, refusal, cached)
    ensures var s' := StepReadBack(s, l, refusal, cached, now, a);
      var current := Last(s.world.deployments);
      ((a.Current? && current.Some? && current.value.uid == cached.uid
          && Owns(l.orig, current.value) && current.value.replicas == Some(1))
       <==> (s'.control.WantPatch?
             && Find(s'.control.l.status.conditions, StorageReady).Some?
             && Find(s'.control.l.status.conditions, StorageReady).value.message == RefusalRemediated(refusal)))
  {
    hide Find, SetCondition;
    var s' := StepReadBack(s, l, refusal, cached, now, a);
    if s' != s {
      forall m: Message, exit: Exit, l: Local
        ensures var c := Unsafe(l, m, exit, now);
          Find(c.l.status.conditions, StorageReady).Some?
          && Find(c.l.status.conditions, StorageReady).value.message == m
      {
        var c1 := Condition(StorageReady, No, ReplicaStorageUnsafe, m, l.orig.generation, now);
        var c2 := Condition(Ready, No, ReplicaStorageUnsafe, m, l.orig.generation, now);
        SetConditionFinds(l.status.conditions, c1, StorageReady);
        SetConditionFinds(SetCondition(l.status.conditions, c1), c2, StorageReady);
      }
    }
  }

  // From the moment a full apply is sent to the flush at the end of the pass, and whatever became of the
  // call, the staged hash is that of the configuration the Deployment was rendered from, the late
  // read-only change included.
  lemma HashMatchesRendering(k: Controller, s: State)
    requires Reachable(k, s) && !s.control.Idle? && s.control.l.pass.sent.Some?
    ensures var l := s.control.l; var sent := l.pass.sent.value;
      && l.status.hash == k.hash(sent.template.config)
      && (SpecDecidesReadOnly(l.orig.spec) ==> sent.template.config.pvcReadOnly == l.orig.spec.pvcReadOnly.value)
      && sent.template.modelsReadOnly == sent.template.config.pvcReadOnly
  {
    hide Inv, LocalOk, Licensed, PassOk, BaseOk, Run, SpecDecidesReadOnly;
    ReachableIsSafe(k, s);
    PendingIsOk(k, s);
    SentIsStaged(k, s.passes, s.world, s.control.l);
    LicensedIsRendered(k, s.control.l.pass, s.control.l.pass.sent.value);
  }

  lemma PendingIsOk(k: Controller, s: State)
    requires Inv(k, s) && !s.control.Idle?
    ensures LocalOk(k, s.passes, s.world, s.control.l)
  {
    hide LocalOk, BaseOk;
  }

  lemma SentIsStaged(k: Controller, passes: seq<Pass>, w: World, l: Local)
    requires LocalOk(k, passes, w, l) && l.pass.sent.Some?
    ensures l.status.hash == k.hash(l.pass.sent.value.template.config)
    ensures l.pass.resource == l.orig && Licensed(k, l.pass, l.pass.sent.value)
  {
  }

  lemma LicensedIsRendered(k: Controller, p: Pass, sent: Payload)
    requires Licensed(k, p, sent)
    ensures SpecDecidesReadOnly(p.resource.spec) ==> sent.template.config.pvcReadOnly == p.resource.spec.pvcReadOnly.value
    ensures sent.template.modelsReadOnly == sent.template.config.pvcReadOnly
  {
  }

  // Past an accepted Deployment apply there is one to speak of.
  lemma AppliedMeansSent(k: Controller, s: State)
    requires Reachable(k, s)
    requires s.control.WantApplyService? || s.control.WantService? || s.control.WantDeployment? || s.control.WantEndpoint?
    ensures s.control.l.pass.sent.Some?
  {
    ReachableIsSafe(k, s);
  }

  // The long-context reconciler is the same machine with one more reason to refuse a configuration:
  // the engram-ipc profile outside the namespaces the operator allows.
  function WithPolicy(k: Controller, wantsEngram: Effective -> bool, allowed: set<string>, namespace: string): Controller
  {
    k.(validate := (e: Effective) =>
         if k.validate(e).Some? then k.validate(e)
         else if wantsEngram(e) && namespace !in allowed then Some("securityProfile engram-ipc is not allowed")
         else None)
  }

  // It refuses what was refused before and that profile outside those namespaces, and nothing else.
  lemma PolicyRefusesExactly(k: Controller, wantsEngram: Effective -> bool, allowed: set<string>, namespace: string, e: Effective)
    ensures var k' := WithPolicy(k, wantsEngram, allowed, namespace);
      && (k'.validate(e).Some? <==> k.validate(e).Some? || (wantsEngram(e) && namespace !in allowed))
      && (k.validate(e).Some? ==> k'.validate(e) == k.validate(e))
      && k' == k.(validate := k'.validate)
  {
  }

  // No run ever sends a Deployment with that profile from a namespace that is not allowed.
  lemma PolicyHolds(k: Controller, wantsEngram: Effective -> bool, allowed: set<string>, namespace: string, s: State, p: Pass)
    requires Reachable(WithPolicy(k, wantsEngram, allowed, namespace), s)
    requires p in Passes(s) && p.sent.Some? && namespace !in allowed
    ensures !wantsEngram(p.sent.value.template.config)
    ensures k.validate(p.sent.value.template.config) == None
  {
    ReachableIsSafe(WithPolicy(k, wantsEngram, allowed, namespace), s);
  }
}
