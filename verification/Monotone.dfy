// observedGeneration never moves backwards, provided the cache does not and the resource is not replaced.
module Monotone {
  import opened Wrappers
  import opened Cluster
  import opened Machine
  import opened Guarantees

  // The two provisos: a pass starts from a version no older than any earlier pass started from, and
  // nobody deletes the resource.
  predicate Forward(s: State, action: Action)
  {
    match action
    case Env(e) => !e.DeleteResource?
    case Reply(_, a) => s.control.Idle? && a.Cached? ==> a.version >= s.cursor
    case Crash => true
  }

  ghost predicate ForwardRun(k: Controller, actions: seq<Action>)
  {
    forall i :: 0 <= i < |actions| ==> Forward(Run(k, BOOT, actions[..i]), actions[i])
  }

  function StoredGeneration(w: World): nat
  {
    var r := Last(w.resources);
    if r.None? then 0 else r.value.status.observedGeneration
  }

  // The newest snapshot handed out bounds every observedGeneration stored or staged.
  ghost predicate Ordered(s: State)
  {
    var log := s.world.resources;
    && (forall i :: 0 <= i < |log| ==> log[i].Some?)
    && (forall i, j :: 0 <= i <= j < |log| ==> log[i].value.generation <= log[j].value.generation)
    && (log == [] ==> s.control.Idle? && s.cursor == 0)
    && (log != [] ==> s.cursor < |log| && StoredGeneration(s.world) <= log[s.cursor].value.generation)
    && (!s.control.Idle? ==> log != [] && Some(s.control.l.orig) == log[s.cursor] && Staged(s.control.l))
  }

  ghost predicate Staged(l: Local)
  {
    l.status.observedGeneration == l.orig.status.observedGeneration
    || l.status.observedGeneration == l.orig.generation
  }

  ghost predicate Inherits(l: Local, c: Control)
  {
    !c.Idle? && c.l.orig == l.orig
    && (c.l.status.observedGeneration == l.status.observedGeneration
        || c.l.status.observedGeneration == l.orig.generation)
  }

  // Every step of a pass keeps the snapshot, and stages either the generation it had or the snapshot's.
  lemma EarlyStepStages(k: Controller, s: State, now: int, a: Answer)
    requires s.control.WantPreset? || s.control.WantClaim? || s.control.WantCached? || s.control.WantAuthoritative?
      || s.control.WantRewrite? || s.control.WantReadBack?
    ensures StepStages(k, s, now, a)
  {
    hide SetCondition, Flips, ApplyOneReplica;
    if s.control.WantRewrite? {
      ApplyOneReplicaFrame(s.world, s.control.authoritative.resourceVersion);
    }
  }

  lemma LateStepStages(k: Controller, s: State, now: int, a: Answer)
    requires s.control.WantApplyDeployment? || s.control.WantApplyService? || s.control.WantService?
      || s.control.WantDeployment? || s.control.WantEndpoint?
    ensures StepStages(k, s, now, a)
  {
    hide SetCondition, Flips, Render, ApplyFull, Serving;
    if s.control.WantApplyDeployment? {
      ApplyFullFrame(s.world, Render(s.control.l.orig, s.control.e));
    }
  }

  ghost predicate StepStages(k: Controller, s: State, now: int, a: Answer)
    requires !s.control.Idle?
  {
    var s' := Step(k, s, now, a);
    Inherits(s.control.l, s'.control) && s'.world.resources == s.world.resources && s'.cursor == s.cursor
  }

  lemma ApplyFullFrame(w: World, p: Payload)
    ensures ApplyFull(w, p).Some? ==> ApplyFull(w, p).value.resources == w.resources
  {
  }

  lemma ApplyOneReplicaFrame(w: World, v: nat)
    ensures ApplyOneReplica(w, v).Some? ==> ApplyOneReplica(w, v).value.resources == w.resources
  {
  }

  lemma StartStages(k: Controller, r: Resource, now: int)
    ensures !Start(k, r, now).Idle? && Start(k, r, now).l.orig == r && Staged(Start(k, r, now).l)
  {
  }

  lemma PatchStages(s: State, l: Local, a: Answer)
    requires Ordered(s) && s.control.WantPatch? && l == s.control.l
    ensures Ordered(StepPatch(s, l, a))
    ensures StoredGeneration(s.world) <= StoredGeneration(StepPatch(s, l, a).world)
  {
    var w' := StepPatch(s, l, a).world;
    assert w'.resources == s.world.resources || w'.resources[..|s.world.resources|] == s.world.resources;
  }

  lemma InterfereOrders(s: State, e: Environment)
    requires Ordered(s) && !e.DeleteResource?
    ensures Ordered(s.(world := Interfere(s.world, e)))
    ensures StoredGeneration(s.world) <= StoredGeneration(Interfere(s.world, e))
  {
    hide Interfere, Staged;
    InterfereExtends(s.world, e);
    var log, log' := s.world.resources, Interfere(s.world, e).resources;
    if log' != log {
      assert forall i :: 0 <= i < |log| ==> log'[i] == log[i];
    }
  }

  lemma InterfereExtends(w: World, e: Environment)
    requires !e.DeleteResource? && (w.resources == [] || Last(w.resources).Some?)
    ensures var log, log' := w.resources, Interfere(w, e).resources;
      log' == log ||
      (|log'| == |log| + 1 && log'[..|log|] == log && log'[|log|].Some? &&
       (log == [] ==> log'[0].value.status.observedGeneration <= log'[0].value.generation) &&
       (log == [] || (log[|log| - 1].value.generation <= log'[|log|].value.generation &&
                      log[|log| - 1].value.status == log'[|log|].value.status)))
  {
  }

  lemma ReadOrders(k: Controller, s: State, now: int, a: Answer)
    requires Ordered(s) && s.control.Idle? && Forward(s, Reply(now, a))
    ensures Ordered(StepRead(k, s, now, a)) && StepRead(k, s, now, a).world == s.world
  {
    hide Start;
    if a.Cached? && a.version < |s.world.resources| {
      StartStages(k, s.world.resources[a.version].value, now);
      assert s.world.resources[s.cursor].value.generation <= s.world.resources[a.version].value.generation;
    }
  }

  lemma PassStepOrders(k: Controller, s: State, now: int, a: Answer)
    requires Ordered(s) && !s.control.Idle? && !s.control.WantPatch?
    ensures Ordered(Step(k, s, now, a)) && StoredGeneration(Step(k, s, now, a).world) == StoredGeneration(s.world)
  {
    hide Step;
    if s.control.WantPreset? || s.control.WantClaim? || s.control.WantCached? || s.control.WantAuthoritative?
      || s.control.WantRewrite? || s.control.WantReadBack? {
      EarlyStepStages(k, s, now, a);
    } else {
      LateStepStages(k, s, now, a);
    }
  }

  lemma ActOrders(k: Controller, s: State, action: Action)
    requires Ordered(s) && Forward(s, action)
    ensures Ordered(Act(k, s, action))
    ensures StoredGeneration(s.world) <= StoredGeneration(Act(k, s, action).world)
  {
    hide Interfere, StepRead, StepPatch, StepPreset, StepClaim, StepCached, StepAuthoritative, StepRewrite, StepReadBack,
         StepApplyDeployment, StepApplyService, StepService, StepDeployment, StepEndpoint;
    match action
    case Env(e) => InterfereOrders(s, e);
    case Crash =>
    case Reply(now, a) =>
      match s.control
      case Idle => ReadOrders(k, s, now, a);
      case WantPatch(l, _) => PatchStages(s, l, a);
      case _ => PassStepOrders(k, s, now, a);
  }

  lemma {:induction false} RunOrders(k: Controller, actions: seq<Action>)
    requires ForwardRun(k, actions)
    ensures Ordered(Run(k, BOOT, actions))
  {
    hide Forward, Act, Ordered;
    if actions == [] {
      BootIsOrdered();
    } else {
      var n := |actions| - 1;
      assert ForwardRun(k, actions[..n]) by {
        forall i | 0 <= i < n ensures Forward(Run(k, BOOT, actions[..n][..i]), actions[..n][i]) {
          assert actions[..n][..i] == actions[..i];
        }
      }
      RunOrders(k, actions[..n]);
      ActOrders(k, Run(k, BOOT, actions[..n]), actions[n]);
    }
  }

  lemma BootIsOrdered()
    ensures Ordered(BOOT)
  {
  }

  lemma {:induction false} ObservedGenerationNeverDecreases(k: Controller, actions: seq<Action>, i: nat)
    requires ForwardRun(k, actions) && i <= |actions|
    ensures StoredGeneration(Run(k, BOOT, actions[..i]).world) <= StoredGeneration(Run(k, BOOT, actions).world)
    decreases |actions|
  {
    hide Forward, Act, Ordered, StoredGeneration;
    if i == |actions| {
      assert actions[..i] == actions;
    } else {
      var n := |actions| - 1;
      assert forall j :: 0 <= j <= n ==> actions[..n][..j] == actions[..j];
      assert ForwardRun(k, actions[..n]);
      ObservedGenerationNeverDecreases(k, actions[..n], i);
      RunOrders(k, actions[..n]);
      ActOrders(k, Run(k, BOOT, actions[..n]), actions[n]);
    }
  }

  // Whatever the run, a pass only ever stages the generation it found or its own.
  lemma {:induction false} AlwaysStaged(k: Controller, actions: seq<Action>)
    ensures var s := Run(k, BOOT, actions); !s.control.Idle? ==> Staged(s.control.l)
  {
    if actions != [] {
      var n := |actions| - 1;
      AlwaysStaged(k, actions[..n]);
      ActStages(k, Run(k, BOOT, actions[..n]), actions[n]);
    }
  }

  lemma ActStages(k: Controller, s: State, action: Action)
    requires !s.control.Idle? ==> Staged(s.control.l)
    ensures !Act(k, s, action).control.Idle? ==> Staged(Act(k, s, action).control.l)
  {
    hide Interfere, StepPatch, Start;
    if action.Reply? {
      var now, a := action.now, action.a;
      if s.control.Idle? {
        if a.Cached? && a.version < |s.world.resources| && s.world.resources[a.version].Some? {
          StartStages(k, s.world.resources[a.version].value, now);
        }
      } else if s.control.WantPatch? {
        PatchEnds(s, a);
      } else {
        PassStepStages(k, s, now, a);
      }
    }
  }

  lemma PatchEnds(s: State, a: Answer)
    requires s.control.WantPatch?
    ensures StepPatch(s, s.control.l, a).control.Idle? || StepPatch(s, s.control.l, a) == s
  {
  }

  lemma PassStepStages(k: Controller, s: State, now: int, a: Answer)
    requires !s.control.Idle? && !s.control.WantPatch? && Staged(s.control.l)
    ensures !Step(k, s, now, a).control.Idle? && Staged(Step(k, s, now, a).control.l)
  {
    hide Step;
    if s.control.WantPreset? || s.control.WantClaim? || s.control.WantCached? || s.control.WantAuthoritative?
      || s.control.WantRewrite? || s.control.WantReadBack? {
      EarlyStepStages(k, s, now, a);
    } else {
      LateStepStages(k, s, now, a);
    }
  }

  // Both provisos are needed. In any reachable state a status patch that the server takes lowers the stored
  // value exactly when the pass staged its own generation, that differs from the value in its snapshot, and
  // the server is already past it.
  lemma PatchLowersExactly(k: Controller, s: State, l: Local, exit: Exit)
    requires Reachable(k, s) && s.control == WantPatch(l, exit) && Last(s.world.resources).Some?
    ensures StoredGeneration(StepPatch(s, l, Accepted).world) < StoredGeneration(s.world)
      <==> l.status.observedGeneration == l.orig.generation != l.orig.status.observedGeneration
           && l.orig.generation < StoredGeneration(s.world)
  {
    hide Run;
    var actions :| s == Run(k, BOOT, actions);
    AlwaysStaged(k, actions);
  }

  // ---------------------------------------------------------------------------------------
  // Neither proviso can be left out
  // ---------------------------------------------------------------------------------------

  // A spec that needs no preset, that the controller accepts, and that fits any claim.
  ghost predicate Simple(k: Controller, spec: Spec)
  {
    && spec.presetRef.None? && Replicas(spec) <= 1
    && EffectiveOf(k, None, spec).Success? && k.validate(EffectiveOf(k, None, spec).value).None?
  }

  // Such controllers and specs there are.
  lemma SimpleOnesExist() returns (k: Controller, a: Spec, b: Spec)
    ensures Simple(k, a) && Simple(k, b) && a != b
  {
    k := Controller("c", true, (p: Option<string>, s: Spec) => Success(Effective("", false)), (e: Effective) => None,
                    (e: Effective) => "");
    a := Spec(None, None, "", None, None, None, "a");
    b := a.(rest := "b");
  }

  // A pass over version v of the resource that gets through both applies and then loses its nerve.
  function PassOver(v: nat): seq<Action>
  {
    [Reply(0, Cached(v)), Reply(0, ClaimIs(Claim([]))), Reply(0, Accepted), Reply(0, Accepted), Reply(0, Broken("")),
     Reply(0, Accepted)]
  }

  lemma {:induction false} RunConcat(k: Controller, s: State, a: seq<Action>, b: seq<Action>)
    ensures Run(k, s, a + b) == Run(k, Run(k, s, a), b)
  {
    hide Act;
    if b == [] {
      assert a + b == a;
    } else {
      RunConcat(k, s, a, b[..|b| - 1]);
      assert (a + b)[..|a + b| - 1] == a + b[..|b| - 1];
    }
  }

  lemma RunOne(k: Controller, s: State, a: Action)
    ensures Run(k, s, [a]) == Act(k, s, a)
  {
    assert [a][..0] == [];
  }

  // It ends with its generation stored, if that is not what its snapshot had stored already.
  lemma PassStores(k: Controller, s: State, v: nat, r: Resource)
    requires s.control.Idle? && v < |s.world.resources| && s.world.resources[v] == Some(r) && Simple(k, r.spec)
    requires Last(s.world.resources).Some? && r.status.observedGeneration != r.generation
    requires Last(s.world.deployments).None? || Owns(r, Last(s.world.deployments).value)
    ensures var s' := Run(k, s, PassOver(v));
      && s'.control.Idle? && StoredGeneration(s'.world) == r.generation
      && s.world.resources <= s'.world.resources
      && Last(s'.world.resources).Some?
      && Last(s'.world.resources) == Some(Last(s.world.resources).value.(status := Last(s'.world.resources).value.status))
      && Last(s'.world.deployments).Some? && Owns(r, Last(s'.world.deployments).value)
      && s'.cursor == (if v > s.cursor then v else s.cursor)
  {
    var p := PassOver(v);
    var s1 := Act(k, s, p[0]);
    var s2 := Act(k, s1, p[1]);
    var s3 := Act(k, s2, p[2]);
    var s4 := Act(k, s3, p[3]);
    var s5 := Act(k, s4, p[4]);
    SixActs(k, s, p);
    FirstActs(k, s, v, r);
    LastActs(k, s2, r);
  }

  lemma SixActs(k: Controller, s: State, p: seq<Action>)
    requires |p| == 6
    ensures Run(k, s, p) == Act(k, Act(k, Act(k, Act(k, Act(k, Act(k, s, p[0]), p[1]), p[2]), p[3]), p[4]), p[5])
  {
    hide Act;
    assert p[..5][..4] == p[..4] && p[..4][..3] == p[..3] && p[..3][..2] == p[..2] && p[..2][..1] == p[..1];
    assert p[..1] == [p[0]];
    RunOne(k, s, p[0]);
    assert Run(k, s, p[..2]) == Act(k, Run(k, s, p[..1]), p[1]);
    assert Run(k, s, p[..3]) == Act(k, Run(k, s, p[..2]), p[2]);
    assert Run(k, s, p[..4]) == Act(k, Run(k, s, p[..3]), p[3]);
    assert Run(k, s, p[..5]) == Act(k, Run(k, s, p[..4]), p[4]);
  }

  lemma FirstActs(k: Controller, s: State, v: nat, r: Resource)
    requires s.control.Idle? && v < |s.world.resources| && s.world.resources[v] == Some(r) && Simple(k, r.spec)
    ensures var s2 := Act(k, Act(k, s, PassOver(v)[0]), PassOver(v)[1]);
      && s2.control.WantApplyDeployment? && s2.control.l.orig == r && s2.world == s.world
      && s2.control.l.status.observedGeneration == r.status.observedGeneration
      && s2.control.l.pass.resource == r && s2.passes == s.passes
      && s2.cursor == (if v > s.cursor then v else s.cursor)
  {
    hide SetCondition, Flips;
  }

  lemma LastActs(k: Controller, s: State, r: Resource)
    requires s.control.WantApplyDeployment? && s.control.l.orig == r && Last(s.world.resources).Some?
    requires s.control.l.status.observedGeneration == r.status.observedGeneration != r.generation
    requires Last(s.world.deployments).None? || Owns(r, Last(s.world.deployments).value)
    ensures var ok := Reply(0, Accepted);
      var s' := Act(k, Act(k, Act(k, Act(k, s, ok), ok), Reply(0, Broken(""))), ok);
      && s'.control.Idle? && StoredGeneration(s'.world) == r.generation && s'.cursor == s.cursor
      && s.world.resources <= s'.world.resources
      && Last(s'.world.resources).Some?
      && Last(s'.world.resources) == Some(Last(s.world.resources).value.(status := Last(s'.world.resources).value.status))
      && Last(s'.world.deployments).Some? && Owns(r, Last(s'.world.deployments).value)
  {
    hide Act;
    var ok := Reply(0, Accepted);
    AppliesThenBreaks(k, s, r);
    FlushesAfterwards(k, Act(k, Act(k, Act(k, s, ok), ok), Reply(0, Broken(""))), r);
  }

  lemma AppliesThenBreaks(k: Controller, s: State, r: Resource)
    requires s.control.WantApplyDeployment? && s.control.l.orig == r
    requires Last(s.world.deployments).None? || Owns(r, Last(s.world.deployments).value)
    ensures var ok := Reply(0, Accepted);
      var s' := Act(k, Act(k, Act(k, s, ok), ok), Reply(0, Broken("")));
      && s'.control.WantPatch? && s'.control.l.orig == r && s'.control.l.status.observedGeneration == r.generation
      && s'.world.resources == s.world.resources && s'.cursor == s.cursor
      && Last(s'.world.deployments).Some? && Owns(r, Last(s'.world.deployments).value)
  {
    hide SetCondition, Flips;
    var ok := Reply(0, Accepted);
    var s3 := Act(k, s, ok);
    assert s3.control.WantApplyService? && Owns(r, Last(s3.world.deployments).value);
    var s4 := Act(k, s3, ok);
    assert s4.control.WantService? && s4.control.l.status.observedGeneration == r.generation;
  }

  lemma FlushesAfterwards(k: Controller, s: State, r: Resource)
    requires s.control.WantPatch? && s.control.l.orig == r && Last(s.world.resources).Some?
    requires s.control.l.status.observedGeneration == r.generation != r.status.observedGeneration
    ensures var s' := Act(k, s, Reply(0, Accepted));
      && s'.control.Idle? && StoredGeneration(s'.world) == r.generation && s'.cursor == s.cursor
      && s.world.resources <= s'.world.resources && s'.world.deployments == s.world.deployments
      && Last(s'.world.resources).Some?
      && Last(s'.world.resources) == Some(Last(s.world.resources).value.(status := Last(s'.world.resources).value.status))
  {
  }

  // With a cache that goes back, and nobody deleting anything, the stored value goes from 2 to 1.
  lemma AStaleCacheLowersIt(k: Controller, a: Spec, b: Spec)
    requires Simple(k, a) && Simple(k, b) && a != b
    ensures var actions := [Env(CreateResource(a)), Env(EditSpec(b))] + PassOver(1);
      && StoredGeneration(Run(k, BOOT, actions).world) == 2
      && StoredGeneration(Run(k, BOOT, actions + PassOver(0)).world) == 1
      && forall i :: 0 <= i < |actions + PassOver(0)| ==> (actions + PassOver(0))[i] != Env(DeleteResource)
  {
    hide Act;
    var start := [Env(CreateResource(a)), Env(EditSpec(b))];
    var s := CreatedAndEdited(k, a, b);
    RunConcat(k, BOOT, start, PassOver(1));
    RunConcat(k, BOOT, start + PassOver(1), PassOver(0));
    PassStores(k, s, 1, s.world.resources[1].value);
    var s' := Run(k, s, PassOver(1));
    assert s'.world.resources[0] == s.world.resources[0];
    PassStores(k, s', 0, s.world.resources[0].value);
  }

  lemma CreatedAndEdited(k: Controller, a: Spec, b: Spec) returns (s: State)
    requires a != b
    ensures s == Run(k, BOOT, [Env(CreateResource(a)), Env(EditSpec(b))])
    ensures s.control.Idle? && s.cursor == 0 && s.world.deployments == []
    ensures s.world.resources == [Some(Resource(0, 1, a, EMPTY_STATUS)), Some(Resource(0, 2, b, EMPTY_STATUS))]
  {
    var x, y := Env(CreateResource(a)), Env(EditSpec(b));
    assert [x, y][..1] == [x];
    RunOne(k, BOOT, x);
    s := Act(k, Act(k, BOOT, x), y);
  }

  // With a cache that never goes back, but the resource deleted and created again (and its Deployment
  // with it), the stored value goes from 2 to 1 too.
  lemma RecreationLowersIt(k: Controller, a: Spec, b: Spec)
    requires Simple(k, a) && Simple(k, b) && a != b
    ensures var actions := [Env(CreateResource(a)), Env(EditSpec(b))] + PassOver(1);
      var again := [Env(DeleteResource), Env(DeleteDeployment), Env(CreateResource(a))];
      var s := Run(k, BOOT, actions + again);
      var last := |s.world.resources| - 1;
      && StoredGeneration(Run(k, BOOT, actions).world) == 2
      && last >= s.cursor && StoredGeneration(Run(k, BOOT, actions + again + PassOver(last)).world) == 1
  {
    hide Act;
    var start := [Env(CreateResource(a)), Env(EditSpec(b))];
    var again := [Env(DeleteResource), Env(DeleteDeployment), Env(CreateResource(a))];
    var s := CreatedAndEdited(k, a, b);
    RunConcat(k, BOOT, start, PassOver(1));
    PassStores(k, s, 1, s.world.resources[1].value);
    var s1 := Run(k, s, PassOver(1));
    RunConcat(k, BOOT, start + PassOver(1), again);
    var s2 := Recreated(k, s1, a);
    var last := |s2.world.resources| - 1;
    RunConcat(k, BOOT, start + PassOver(1) + again, PassOver(last));
    PassStores(k, s2, last, s2.world.resources[last].value);
  }

  lemma Recreated(k: Controller, s: State, a: Spec) returns (s': State)
    ensures s' == Run(k, s, [Env(DeleteResource), Env(DeleteDeployment), Env(CreateResource(a))])
    ensures s'.control == s.control && s'.cursor == s.cursor
    ensures |s'.world.resources| == |s.world.resources| + 2 && Last(s'.world.deployments).None?
    ensures Last(s'.world.resources) == Some(Resource(|s.world.resources| + 1, 1, a, EMPTY_STATUS))
  {
    var x, y, z := Env(DeleteResource), Env(DeleteDeployment), Env(CreateResource(a));
    assert [x, y, z][..2] == [x, y] && [x, y][..1] == [x];
    RunOne(k, s, x);
    s' := Act(k, Act(k, Act(k, s, x), y), z);
  }
}
