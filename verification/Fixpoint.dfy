// Two calm rounds settle everything; from the third on, nothing but one timestamp can change.
module Fixpoint {
  import opened Wrappers
  import opened Cluster
  import opened Storage
  import opened Machine
  import opened Quiet

  // ---------------------------------------------------------------------------------------
  // Repeating a list of condition writes
  // ---------------------------------------------------------------------------------------

  ghost predicate IsFinal(ws: seq<Condition>, i: nat)
    requires i < |ws|
  {
    forall j :: i < j < |ws| ==> ws[j].kind != ws[i].kind
  }

  // The conditions already say what the last write of each kind says.
  ghost predicate Settled(cs: seq<Condition>, ws: seq<Condition>)
  {
    forall i :: 0 <= i < |ws| && IsFinal(ws, i) ==> SaysSo(cs, ws[i])
  }

  ghost predicate Distinct(ws: seq<Condition>)
  {
    forall i, j :: 0 <= i < j < |ws| ==> ws[i].kind != ws[j].kind
  }

  // The unsafe-storage exit: StorageReady is written twice, Yes and then No.
  ghost predicate Flickers(ws: seq<Condition>)
  {
    && |ws| == 4
    && ws[0].kind != StorageReady && ws[3].kind != StorageReady && ws[0].kind != ws[3].kind
    && ws[1].kind == ws[2].kind == StorageReady && ws[1].truth == Yes && ws[2].truth == No
  }

  lemma {:induction false} WritingSettles(cs: seq<Condition>, ws: seq<Condition>, now: int)
    ensures Settled(SetAll(cs, ws, now), ws)
  {
    if ws != [] {
      var n := |ws| - 1;
      var before := SetAll(cs, ws[..n], now);
      WritingSettles(cs, ws[..n], now);
      forall i | 0 <= i < |ws| && IsFinal(ws, i) ensures SaysSo(SetAll(cs, ws, now), ws[i]) {
        SetConditionFinds(before, ws[n].(since := now), ws[i].kind);
        if i < n {
          assert IsFinal(ws[..n], i);
          assert SaysSo(before, ws[..n][i]);
        }
      }
    }
  }

  lemma {:induction false} SettledWritesAreIdle(cs: seq<Condition>, ws: seq<Condition>, now: int)
    requires Distinct(ws) && Settled(cs, ws)
    ensures SetAll(cs, ws, now) == cs
  {
    if ws != [] {
      var n := |ws| - 1;
      forall i | 0 <= i < n ensures SaysSo(cs, ws[..n][i]) {
        assert IsFinal(ws, i);
      }
      SettledWritesAreIdle(cs, ws[..n], now);
      assert IsFinal(ws, n);
      SetConditionIsIdle(cs, ws[n].(since := now));
    }
  }

  // The same conditions, with StorageReady said to have changed at `now`.
  function Restamp(cs: seq<Condition>, now: int): seq<Condition>
  {
    if cs == [] then []
    else if cs[0].kind == StorageReady then [cs[0].(since := now)] + cs[1..]
    else [cs[0]] + Restamp(cs[1..], now)
  }

  lemma {:induction false} RestampFinds(cs: seq<Condition>, now: int, kind: Kind)
    ensures Find(Restamp(cs, now), kind).Some? <==> Find(cs, kind).Some?
    ensures Find(cs, kind).Some? ==>
      Find(Restamp(cs, now), kind).value
      == if kind == StorageReady then Find(cs, kind).value.(since := now) else Find(cs, kind).value
  {
    if cs != [] && cs[0].kind != StorageReady {
      RestampFinds(cs[1..], now, kind);
    }
  }

  lemma {:induction false} RestampIsIdle(cs: seq<Condition>, now: int)
    ensures Restamp(cs, now) == cs <==> (Find(cs, StorageReady).Some? ==> Find(cs, StorageReady).value.since == now)
  {
    if cs != [] && cs[0].kind != StorageReady {
      RestampIsIdle(cs[1..], now);
      assert Restamp(cs, now) == cs <==> Restamp(cs[1..], now) == cs[1..] by {
        assert Restamp(cs, now)[1..] == Restamp(cs[1..], now);
        assert cs == [cs[0]] + cs[1..];
      }
    } else if cs != [] {
      assert Restamp(cs, now)[0] == cs[0].(since := now);
      assert cs == [cs[0]] + cs[1..];
    }
  }

  lemma {:induction false} FlickerRestamps(cs: seq<Condition>, a: Condition, b: Condition)
    requires a.kind == b.kind == StorageReady && a.truth == Yes && b.truth == No && a.since == b.since
    requires SaysSo(cs, b)
    ensures SetCondition(SetCondition(cs, a), b) == Restamp(cs, b.since)
  {
    if cs[0].kind != StorageReady {
      FlickerRestamps(cs[1..], a, b);
    }
  }

  lemma SettledFlickerRestamps(cs: seq<Condition>, ws: seq<Condition>, now: int)
    requires Flickers(ws) && Settled(cs, ws)
    ensures SetAll(cs, ws, now) == Restamp(cs, now)
  {
    assert ws == [ws[0]] + [ws[1]] + [ws[2]] + [ws[3]];
    SetAllExtends(cs, [], ws[0], now);
    SetAllExtends(cs, [ws[0]], ws[1], now);
    SetAllExtends(cs, [ws[0]] + [ws[1]], ws[2], now);
    SetAllExtends(cs, [ws[0]] + [ws[1]] + [ws[2]], ws[3], now);
    assert [] + [ws[0]] == [ws[0]];
    assert IsFinal(ws, 0) && IsFinal(ws, 2) && IsFinal(ws, 3);
    SetConditionIsIdle(cs, ws[0].(since := now));
    FlickerRestamps(cs, ws[1].(since := now), ws[2].(since := now));
    RestampFinds(cs, now, ws[3].kind);
    SetConditionIsIdle(Restamp(cs, now), ws[3].(since := now));
  }

  lemma RestampKeepsSettled(cs: seq<Condition>, ws: seq<Condition>, now: int)
    requires Settled(cs, ws)
    ensures Settled(Restamp(cs, now), ws)
  {
    forall i | 0 <= i < |ws| && IsFinal(ws, i) ensures SaysSo(Restamp(cs, now), ws[i]) {
      RestampFinds(cs, now, ws[i].kind);
    }
  }

  // ---------------------------------------------------------------------------------------
  // Plans
  // ---------------------------------------------------------------------------------------

  ghost predicate Announces(ws: seq<Condition>, a: Announcement)
  {
    exists i :: 0 <= i < |ws| && IsFinal(ws, i) && ws[i].kind == a.kind && ws[i].truth == a.truth
  }

  ghost predicate Shaped(p: Plan)
  {
    (Distinct(p.writes) || Flickers(p.writes)) && (p.announced.Some? ==> Announces(p.writes, p.announced.value))
  }

  lemma LastAnnounces(ws: seq<Condition>, c: Condition, a: Announcement)
    requires c.kind == a.kind && c.truth == a.truth
    ensures Announces(ws + [c], a)
  {
    assert IsFinal(ws + [c], |ws|);
  }

  lemma MirrorWritesAreDistinct(r: Resource, d: Deployment)
    ensures Distinct(MirrorWrites(r, d))
    ensures forall i :: 0 <= i < |MirrorWrites(r, d)| ==>
      MirrorWrites(r, d)[i].kind == DeploymentAvailable || MirrorWrites(r, d)[i].kind == Progressing
  {
  }

  lemma FinishPlansAreShaped(r: Resource, d: Deployment, p: Plan, url: string)
    requires |p.writes| == 2 && p.writes[0].kind == PresetResolved && p.writes[1].kind == StorageReady
    ensures Shaped(FinishPlan(r, d, MirrorPlan(r, d, p), url))
    ensures Distinct(FinishPlan(r, d, MirrorPlan(r, d, p), url).writes)
  {
    hide MirrorWrites, Announces;
    MirrorWritesAreDistinct(r, d);
    var p1 := MirrorPlan(r, d, p);
    if IsReady(r, d) {
      LastAnnounces(p1.writes, ReadyWrite(r, d), Announcement(Event(false, AllReady), Ready, Yes));
    }
  }

  lemma UnsafePlansAreShaped(r: Resource, p: Plan, message: Message, deployments: seq<Option<Deployment>>)
    requires |p.writes| == 2 && p.writes[0].kind == PresetResolved && p.announced.None?
    requires p.writes[1].kind == StorageReady && p.writes[1].truth == Yes
    ensures Shaped(UnsafePlan(r, p, message, deployments))
  {
  }

  lemma ConfiguredPlansAreShaped(k: Controller, r: Resource, w: World, q: Surroundings, p: Plan, e: Effective)
    requires |p.writes| == 1 && p.writes[0].kind == PresetResolved && p.announced.None?
    ensures Shaped(PlanConfigured(k, r, w, q, p, e))
  {
    hide FinishPlan, MirrorPlan, UnsafePlan, Correct, ApplyFull, Render, Url, Announces;
    if k.validate(e).Some? {
      LastAnnounces(p.writes, Write(r, Ready, No, InvalidConfiguration, Invalid(k.validate(e).value)),
                    Announcement(Event(true, InvalidConfiguration), Ready, No));
    } else if q.claim.None? {
      MiddleAnnounces(p.writes, Write(r, StorageReady, No, PVCNotFound, NoSuchClaim(r.spec.pvcName)),
                      Write(r, Ready, No, PVCNotFound, StorageNotReady), Announcement(Event(true, PVCNotFound), StorageReady, No));
    } else {
      var p1 := p.(writes := p.writes + [Write(r, StorageReady, Yes, PVCFound, ClaimExists)]);
      if !Shareable(q.claim.value.modes, Replicas(r.spec), e.pvcReadOnly) {
        var (message, deployments) := Correct(k, r, w, Refusal(Replicas(r.spec), q.claim.value.modes));
        UnsafePlansAreShaped(r, p1, message, deployments);
      } else {
        var done := ApplyFull(w, Render(r, e));
        if done.None? {
          LastAnnounces(p1.writes, Write(r, Ready, No, ApplyFailed, ApplyDeployment("second controller")),
                        Announcement(Event(true, ApplyFailed), Ready, No));
        } else {
          var p2 := p1.(applied := true, serviceName := Some("svc-" + k.name), deployments := done.value.deployments);
          ApplyFullLeavesOne(w, Render(r, e));
          FinishPlansAreShaped(r, Last(done.value.deployments).value, p2, Url(r, q));
        }
      }
    }
  }

  lemma ApplyFullLeavesOne(w: World, p: Payload)
    ensures ApplyFull(w, p).Some? ==> Last(ApplyFull(w, p).value.deployments).Some?
  {
  }

  lemma MiddleAnnounces(ws: seq<Condition>, c: Condition, c': Condition, a: Announcement)
    requires c.kind == a.kind && c.truth == a.truth && c'.kind != c.kind
    ensures Announces(ws + [c] + [c'], a)
  {
    assert IsFinal(ws + [c] + [c'], |ws|);
  }

  lemma PlansAreShaped(k: Controller, r: Resource, w: World, q: Surroundings)
    ensures Shaped(PlanOf(k, r, w, q))
  {
    hide PlanConfigured, Announces;
    var p := PlanOf(k, r, w, q);
    if r.spec.presetRef.Some? && q.preset.None? {
      var a := Write(r, PresetResolved, No, PresetNotFound, NoSuchPreset(r.spec.presetRef.value));
      var b := Write(r, Ready, No, PresetNotFound, PresetAbsent);
      MiddleAnnounces([], a, b, Announcement(Event(true, PresetNotFound), PresetResolved, No));
      assert [] + [a] + [b] == [a, b];
    } else {
      var found := if r.spec.presetRef.None? then Write(r, PresetResolved, Yes, OverridesUsed, NoPresetRef)
                   else Write(r, PresetResolved, Yes, PresetFound, UsingPreset(r.spec.presetRef.value));
      var preset := if r.spec.presetRef.None? then None else q.preset;
      assert p == PlanResolved(k, r, w, q, preset, found);
      var e := EffectiveOf(k, preset, r.spec);
      if e.Success? {
        ConfiguredPlansAreShaped(k, r, w, q, NoPlan(r, w).(writes := [found], hash := Some(k.hash(e.value))), e.value);
      }
    }
  }

  // What a full apply does to the Deployment log depends on that log only, and repeating it is idle.
  lemma ApplyFullRepeats(w: World, w': World, p: Payload)
    requires w'.deployments == w.deployments
    ensures ApplyFull(w', p).Some? <==> ApplyFull(w, p).Some?
    ensures ApplyFull(w, p).Some? ==> ApplyFull(w', p).value.deployments == ApplyFull(w, p).value.deployments
  {
  }

  lemma ApplyFullIsIdempotent(w: World, w': World, p: Payload)
    requires ApplyFull(w, p).Some? && w'.deployments == ApplyFull(w, p).value.deployments
    ensures ApplyFull(w', p) == Some(w')
  {
  }

  lemma CorrectRepeats(k: Controller, r: Resource, r': Resource, w: World, w': World, refusal: Message)
    requires w'.deployments == w.deployments && r'.uid == r.uid
    ensures Correct(k, r', w', refusal) == Correct(k, r, w, refusal)
  {
  }

  // A corrected Deployment needs no correction.
  lemma CorrectOnce(k: Controller, r: Resource, r': Resource, w: World, w': World, refusal: Message)
    requires w'.deployments == Correct(k, r, w, refusal).1 && r'.uid == r.uid
    ensures Correct(k, r', w', refusal).1 == w'.deployments
  {
  }

  // A plan depends on the resource through its identity, its spec and its ready count only; having
  // carried it out does not change it.
  lemma ConfiguredPlanStands(k: Controller, r: Resource, st: Status, w: World, w': World, q: Surroundings,
                             p: Plan, p': Plan, e: Effective)
    requires w'.deployments == w.deployments && p'.deployments == w.deployments && p.deployments == w.deployments
    requires p.readyReplicas == r.status.readyReplicas && p' == p.(readyReplicas := st.readyReplicas)
    requires st.readyReplicas == r.status.readyReplicas || st.readyReplicas == PlanConfigured(k, r, w, q, p, e).readyReplicas
    ensures PlanConfigured(k, r.(status := st), w', q, p', e) == PlanConfigured(k, r, w, q, p, e)
  {
    hide Correct, ApplyFull;
    ApplyFullRepeats(w, w', Render(r, e));
    if q.claim.Some? {
      CorrectRepeats(k, r, r.(status := st), w, w', Refusal(Replicas(r.spec), q.claim.value.modes));
    }
  }

  lemma PlanStands(k: Controller, r: Resource, st: Status, w: World, w': World, q: Surroundings)
    requires w'.deployments == w.deployments
    requires st.readyReplicas == r.status.readyReplicas || st.readyReplicas == PlanOf(k, r, w, q).readyReplicas
    ensures PlanOf(k, r.(status := st), w', q) == PlanOf(k, r, w, q)
  {
    hide PlanConfigured;
    var found := if r.spec.presetRef.None? then Write(r, PresetResolved, Yes, OverridesUsed, NoPresetRef)
                 else Write(r, PresetResolved, Yes, PresetFound, UsingPreset(r.spec.presetRef.value));
    var preset := if r.spec.presetRef.None? then None else q.preset;
    var e := EffectiveOf(k, preset, r.spec);
    if !(r.spec.presetRef.Some? && q.preset.None?) && e.Success? {
      var r' := r.(status := st);
      ConfiguredPlanStands(k, r, st, w, w', q, NoPlan(r, w).(writes := [found], hash := Some(k.hash(e.value))),
                           NoPlan(r', w').(writes := [found], hash := Some(k.hash(e.value))), e.value);
    }
  }

  // After the first round the Deployment log stands still.
  lemma ConfiguredPlanFixesDeployments(k: Controller, r: Resource, st: Status, w: World, w': World, q: Surroundings,
                                       p: Plan, p': Plan, e: Effective)
    requires p.deployments == w.deployments && p'.deployments == w'.deployments
    requires w'.deployments == PlanConfigured(k, r, w, q, p, e).deployments
    ensures PlanConfigured(k, r.(status := st), w', q, p', e).deployments == w'.deployments
  {
    hide Correct, ApplyFull, MirrorWrite, MirrorWrites;
    if q.claim.Some? {
      var refusal := Refusal(Replicas(r.spec), q.claim.value.modes);
      if k.validate(e).None? && !Shareable(q.claim.value.modes, Replicas(r.spec), e.pvcReadOnly) {
        CorrectOnce(k, r, r.(status := st), w, w', refusal);
      }
      if ApplyFull(w, Render(r, e)).Some? {
        if w'.deployments == ApplyFull(w, Render(r, e)).value.deployments {
          ApplyFullIsIdempotent(w, w', Render(r, e));
        }
      } else if w'.deployments == w.deployments {
        ApplyFullRepeats(w, w', Render(r, e));
      }
    }
  }

  lemma FirstRoundFixesDeployments(k: Controller, r: Resource, st: Status, w: World, w': World, q: Surroundings)
    requires w'.deployments == PlanOf(k, r, w, q).deployments
    ensures PlanOf(k, r.(status := st), w', q).deployments == w'.deployments
  {
    hide PlanConfigured;
    var found := if r.spec.presetRef.None? then Write(r, PresetResolved, Yes, OverridesUsed, NoPresetRef)
                 else Write(r, PresetResolved, Yes, PresetFound, UsingPreset(r.spec.presetRef.value));
    var preset := if r.spec.presetRef.None? then None else q.preset;
    var e := EffectiveOf(k, preset, r.spec);
    if !(r.spec.presetRef.Some? && q.preset.None?) && e.Success? {
      var r' := r.(status := st);
      ConfiguredPlanFixesDeployments(k, r, st, w, w', q, NoPlan(r, w).(writes := [found], hash := Some(k.hash(e.value))),
                                     NoPlan(r', w').(writes := [found], hash := Some(k.hash(e.value))), e.value);
    }
  }

  // ---------------------------------------------------------------------------------------
  // Rounds
  // ---------------------------------------------------------------------------------------

  // Nothing left to do but restamp: the plan keeps the Deployment log, and every field and every
  // last write of a kind is already stored.
  ghost predicate Quiescent(k: Controller, s: State, q: Surroundings)
  {
    && s.control.Idle? && Last(s.world.resources).Some?
    && var r := Last(s.world.resources).value;
       var p := PlanOf(k, r, s.world, q);
       && p.deployments == s.world.deployments
       && Perform(k, r, p, 0).(conditions := r.status.conditions) == r.status
       && Settled(r.status.conditions, p.writes)
  }

  function Current(s: State): Status
    requires Last(s.world.resources).Some?
  {
    Last(s.world.resources).value.status
  }

  // Was the last round an unsafe-storage exit?
  ghost predicate Unsafe(k: Controller, s: State, q: Surroundings)
    requires Last(s.world.resources).Some?
  {
    Flickers(PlanOf(k, Last(s.world.resources).value, s.world, q).writes)
  }

  // The effect of a round on a quiescent state, exactly: none, except that an unsafe exit moves
  // StorageReady's transition time to now.
  lemma QuiescentRound(k: Controller, s: State, q: Surroundings, now: int)
    requires Quiescent(k, s, q)
    ensures var s' := Round(k, s, q, now);
      && Quiescent(k, s', q)
      && (Unsafe(k, s', q) <==> Unsafe(k, s, q))
      && s'.events == s.events
      && s'.world.deployments == s.world.deployments
      && Current(s') == (if Unsafe(k, s, q)
                         then Current(s).(conditions := Restamp(Current(s).conditions, now)) else Current(s))
  {
    hide Round, PlanOf, SetAll, Shaped, Restamp, Announces;
    var r := Last(s.world.resources).value;
    var p := PlanOf(k, r, s.world, q);
    var s' := Round(k, s, q, now);
    RoundFollowsPlan(k, s, q, now, r);
    ShapeOf(k, r, s.world, q);
    var st := Perform(k, r, p, now);
    assert st.(conditions := r.status.conditions) == r.status;
    if Flickers(p.writes) {
      SettledFlickerRestamps(r.status.conditions, p.writes, now);
      RestampKeepsSettled(r.status.conditions, p.writes, now);
    } else {
      SettledWritesAreIdle(r.status.conditions, p.writes, now);
    }
    SettledIsSilent(r, p);
    PlanStands(k, r, st, s.world, s'.world, q);
  }

  lemma ShapeOf(k: Controller, r: Resource, w: World, q: Surroundings)
    ensures var p := PlanOf(k, r, w, q);
      (Distinct(p.writes) || Flickers(p.writes)) && (p.announced.Some? ==> Announces(p.writes, p.announced.value))
  {
    hide PlanOf;
    PlansAreShaped(k, r, w, q);
  }

  lemma SettledIsSilent(r: Resource, p: Plan)
    requires Settled(r.status.conditions, p.writes)
    requires p.announced.Some? ==> Announces(p.writes, p.announced.value)
    ensures Said(r, p.announced) == []
  {
    if p.announced.Some? {
      var i :| 0 <= i < |p.writes| && IsFinal(p.writes, i)
        && p.writes[i].kind == p.announced.value.kind && p.writes[i].truth == p.announced.value.truth;
      assert SaysSo(r.status.conditions, p.writes[i]);
    }
  }

  // A round whose plan keeps the Deployment log leaves a quiescent state.
  lemma RoundQuiesces(k: Controller, s: State, q: Surroundings, now: int, r: Resource)
    requires s.control.Idle? && Last(s.world.resources) == Some(r)
    requires PlanOf(k, r, s.world, q).deployments == s.world.deployments
    ensures Quiescent(k, Round(k, s, q, now), q)
  {
    hide Round, PlanOf, SetAll, Settled;
    var p := PlanOf(k, r, s.world, q);
    var st := Perform(k, r, p, now);
    RoundFollowsPlan(k, s, q, now, r);
    PlanStands(k, r, st, s.world, Round(k, s, q, now).world, q);
    WritingSettles(r.status.conditions, p.writes, now);
    AppliedGeneration(k, r, p, now);
  }

  lemma AppliedGeneration(k: Controller, r: Resource, p: Plan, now: int)
    ensures var st := Perform(k, r, p, now); var r' := r.(status := st);
      Perform(k, r', p, 0).(conditions := st.conditions) == st
  {
  }

  // Whatever state two calm rounds start from, they end quiescent: the first may remediate or apply,
  // the second drops the remediation message.
  lemma TwoRoundsQuiesce(k: Controller, s: State, q: Surroundings, t1: int, t2: int)
    requires s.control.Idle? && Last(s.world.resources).Some?
    ensures Quiescent(k, Round(k, Round(k, s, q, t1), q, t2), q)
  {
    hide Round, PlanOf, Perform, Quiescent;
    var r := Last(s.world.resources).value;
    RoundFollowsPlan(k, s, q, t1, r);
    var s1 := Round(k, s, q, t1);
    var st := Last(s1.world.resources).value.status;
    assert Last(s1.world.resources).value == r.(status := st);
    FirstRoundFixesDeployments(k, r, st, s.world, s1.world, q);
    RoundQuiesces(k, s1, q, t2, r.(status := st));
  }

  // n calm rounds, the i-th at time clock(i).
  function Rounds(k: Controller, s: State, q: Surroundings, clock: nat -> int, n: nat): State
  {
    if n == 0 then s else Round(k, Rounds(k, s, q, clock, n - 1), q, clock(n - 1))
  }

  lemma {:induction false} RoundsQuiesce(k: Controller, s: State, q: Surroundings, clock: nat -> int, n: nat)
    requires s.control.Idle? && Last(s.world.resources).Some? && n >= 2
    ensures Quiescent(k, Rounds(k, s, q, clock, n), q)
  {
    hide Round, Quiescent;
    if n == 2 {
      TwoRoundsQuiesce(k, s, q, clock(0), clock(1));
      assert Rounds(k, s, q, clock, 1) == Round(k, Rounds(k, s, q, clock, 0), q, clock(0));
    } else {
      RoundsQuiesce(k, s, q, clock, n - 1);
      QuiescentRound(k, Rounds(k, s, q, clock, n - 1), q, clock(n - 1));
    }
  }

  // From the third round on: no events, no Deployment write, and the stored status stays, up to the
  // transition time of StorageReady on the unsafe exit.
  lemma FixpointByThirdRound(k: Controller, s: State, q: Surroundings, clock: nat -> int, n: nat)
    requires s.control.Idle? && Last(s.world.resources).Some? && n >= 2
    ensures var a, b := Rounds(k, s, q, clock, n), Rounds(k, s, q, clock, n + 1);
      && Last(a.world.resources).Some? && Last(b.world.resources).Some?
      && b.events == a.events
      && b.world.deployments == a.world.deployments
      && Current(b) == (if Unsafe(k, a, q)
                        then Current(a).(conditions := Restamp(Current(a).conditions, clock(n))) else Current(a))
  {
    hide Round;
    RoundsQuiesce(k, s, q, clock, n);
    QuiescentRound(k, Rounds(k, s, q, clock, n), q, clock(n));
  }

  ghost predicate SameStatus(s: State, s': State)
  {
    Last(s.world.resources).Some? && Last(s'.world.resources).Some? && Current(s) == Current(s')
  }

  // When StorageReady is said to have changed last.
  ghost function StorageSince(s: State): Option<int>
  {
    if Last(s.world.resources).None? then None
    else
      var c := Find(Current(s).conditions, StorageReady);
      if c.None? then None else Some(c.value.since)
  }

  lemma UnsafeSaysStorage(cs: seq<Condition>, ws: seq<Condition>)
    requires Flickers(ws) && Settled(cs, ws)
    ensures Find(cs, StorageReady).Some?
  {
    assert IsFinal(ws, 2) && SaysSo(cs, ws[2]);
  }

  // The exception is real: a quiescent unsafe state is rewritten by every round run at another time than
  // the last one, so the resource never stops producing update events.
  lemma UnsafeExitNeverRests(k: Controller, s: State, q: Surroundings, now: int)
    requires Quiescent(k, s, q) && Unsafe(k, s, q)
    ensures SameStatus(s, Round(k, s, q, now)) <==> StorageSince(s) == Some(now)
    ensures StorageSince(s).Some?
  {
    hide Round, PlanOf, Perform, SetAll, Find, Restamp;
    QuiescentRound(k, s, q, now);
    var cs := Current(s).conditions;
    UnsafeSaysStorage(cs, PlanOf(k, Last(s.world.resources).value, s.world, q).writes);
    RestampIsIdle(cs, now);
  }

  // ---------------------------------------------------------------------------------------
  // What becomes of a runaway Deployment
  // ---------------------------------------------------------------------------------------

  // This resource's Deployment has several replicas and the corrective write to it is taken.
  predicate Correctable(k: Controller, r: Resource, w: World)
  {
    var d := Last(w.deployments);
    && k.hasApiReader && d.Some? && d.value.controller == Some(r.uid)
    && d.value.replicas.Some? && d.value.replicas.value > 1 && ReplicasField !in d.value.shared
    && (d.value.template.None? || TemplateField !in d.value.applied || TemplateField in d.value.shared)
  }

  // Calm rounds on the unsafe exit, however many, write one corrected version if the Deployment is
  // correctable, and none otherwise: one whose template the operator alone owns keeps its replicas for good.
  lemma RunawayIsCorrectedExactly(
      k: Controller, s: State, q: Surroundings, clock: nat -> int, n: nat, r: Resource)
    requires s.control.Idle? && Last(s.world.resources) == Some(r) && Unsafe(k, s, q) && n >= 1
    ensures var log, log' := s.world.deployments, Rounds(k, s, q, clock, n).world.deployments;
      if Correctable(k, r, s.world)
      then |log'| == |log| + 1 && log'[..|log|] == log && log'[|log|].Some? && log'[|log|].value.replicas == Some(1)
      else log' == log
  {
    hide Round, PlanOf, Flickers, Correctable, Correct;
    RoundsFollowFirstPlan(k, s, q, clock, n, r);
    UnsafePlanCorrects(k, r, s.world, q);
    CorrectChangesExactly(k, r, s.world);
  }

  lemma {:induction false} RoundsFollowFirstPlan(
      k: Controller, s: State, q: Surroundings, clock: nat -> int, n: nat, r: Resource)
    requires s.control.Idle? && Last(s.world.resources) == Some(r) && n >= 1
    ensures var s' := Rounds(k, s, q, clock, n);
      && s'.control.Idle? && s'.world.deployments == PlanOf(k, r, s.world, q).deployments
      && Last(s'.world.resources).Some? && Last(s'.world.resources).value == r.(status := Current(s'))
  {
    hide Round, PlanOf, Perform;
    if n == 1 {
      RoundFollowsPlan(k, s, q, clock(0), r);
      assert Rounds(k, s, q, clock, 0) == s;
    } else {
      RoundsFollowFirstPlan(k, s, q, clock, n - 1, r);
      var s1 := Rounds(k, s, q, clock, n - 1);
      RoundFollowsPlan(k, s1, q, clock(n - 1), r.(status := Current(s1)));
      FirstRoundFixesDeployments(k, r, Current(s1), s.world, s1.world, q);
    }
  }

  lemma UnsafePlanCorrects(k: Controller, r: Resource, w: World, q: Surroundings)
    requires Flickers(PlanOf(k, r, w, q).writes)
    ensures PlanOf(k, r, w, q).deployments == Correct(k, r, w, NoPods).1
  {
    hide PlanConfigured, Correct;
    var found := if r.spec.presetRef.None? then Write(r, PresetResolved, Yes, OverridesUsed, NoPresetRef)
                 else Write(r, PresetResolved, Yes, PresetFound, UsingPreset(r.spec.presetRef.value));
    var preset := if r.spec.presetRef.None? then None else q.preset;
    var e := EffectiveOf(k, preset, r.spec);
    if !(r.spec.presetRef.Some? && q.preset.None?) && e.Success? {
      ConfiguredPlanCorrects(k, r, w, q, NoPlan(r, w).(writes := [found], hash := Some(k.hash(e.value))), e.value);
    }
  }

  lemma ConfiguredPlanCorrects(k: Controller, r: Resource, w: World, q: Surroundings, p: Plan, e: Effective)
    requires |p.writes| == 1 && p.writes[0].kind == PresetResolved && Flickers(PlanConfigured(k, r, w, q, p, e).writes)
    ensures PlanConfigured(k, r, w, q, p, e).deployments == Correct(k, r, w, NoPods).1
  {
    hide FinishPlan, MirrorPlan, Correct, ApplyFull, Render, Url;
    if q.claim.Some? && k.validate(e).None? {
      if Shareable(q.claim.value.modes, Replicas(r.spec), e.pvcReadOnly) {
        var done := ApplyFull(w, Render(r, e));
        if done.Some? {
          var p1 := p.(writes := p.writes + [Write(r, StorageReady, Yes, PVCFound, ClaimExists)]);
          var p2 := p1.(applied := true, serviceName := Some("svc-" + k.name), deployments := done.value.deployments);
          ApplyFullLeavesOne(w, Render(r, e));
          FinishPlansAreShaped(r, Last(done.value.deployments).value, p2, Url(r, q));
          NotBoth(PlanConfigured(k, r, w, q, p, e).writes);
        }
      } else {
        SayingItDoesNotMatter(k, r, w, Refusal(Replicas(r.spec), q.claim.value.modes), NoPods);
      }
    }
  }

  lemma NotBoth(ws: seq<Condition>)
    ensures !(Distinct(ws) && Flickers(ws))
  {
  }

  lemma SayingItDoesNotMatter(k: Controller, r: Resource, w: World, refusal: Message, other: Message)
    ensures Correct(k, r, w, refusal).1 == Correct(k, r, w, other).1
  {
  }

  lemma CorrectChangesExactly(k: Controller, r: Resource, w: World)
    ensures var log, log' := w.deployments, Correct(k, r, w, NoPods).1;
      if Correctable(k, r, w)
      then |log'| == |log| + 1 && log'[..|log|] == log && log'[|log|].Some? && log'[|log|].value.replicas == Some(1)
      else log' == log
  {
  }

  // An unshareable claim puts an accepted spec on the unsafe exit.
  lemma UnsafeWhenUnshareable(k: Controller, r: Resource, w: World, q: Surroundings)
    requires r.spec.presetRef.None? && EffectiveOf(k, None, r.spec).Success?
    requires k.validate(EffectiveOf(k, None, r.spec).value).None? && q.claim.Some?
    requires !Shareable(q.claim.value.modes, Replicas(r.spec), EffectiveOf(k, None, r.spec).value.pvcReadOnly)
    ensures Flickers(PlanOf(k, r, w, q).writes)
  {
    hide Correct, ApplyFull, MirrorWrites;
  }

  // Such states there are: any accepted spec over an unshareable claim ends in one after two calm rounds.
  lemma UnsafeStatesAreReached(k: Controller, spec: Spec, q: Surroundings, t1: int, t2: int) returns (s: State)
    requires spec.presetRef.None? && EffectiveOf(k, None, spec).Success?
    requires k.validate(EffectiveOf(k, None, spec).value).None? && q.claim.Some?
    requires !Shareable(q.claim.value.modes, Replicas(spec), EffectiveOf(k, None, spec).value.pvcReadOnly)
    ensures s == Round(k, Round(k, Run(k, BOOT, [Env(CreateResource(spec))]), q, t1), q, t2)
    ensures Quiescent(k, s, q) && Unsafe(k, s, q)
  {
    hide Round, PlanOf, Perform, Quiescent, Flickers, Shareable;
    var s0 := Run(k, BOOT, [Env(CreateResource(spec))]);
    Created(k, spec);
    var r := Last(s0.world.resources).value;
    RoundFollowsPlan(k, s0, q, t1, r);
    var s1 := Round(k, s0, q, t1);
    var r1 := Last(s1.world.resources).value;
    RoundFollowsPlan(k, s1, q, t2, r1);
    s := Round(k, s1, q, t2);
    TwoRoundsQuiesce(k, s0, q, t1, t2);
    UnsafeWhenUnshareable(k, Last(s.world.resources).value, s.world, q);
  }

  lemma Created(k: Controller, spec: Spec)
    ensures var s := Run(k, BOOT, [Env(CreateResource(spec))]);
      s.control.Idle? && s.world.resources == [Some(Resource(0, 1, spec, EMPTY_STATUS))]
  {
    assert [Env(CreateResource(spec))][..0] == [];
  }

  // Two replicas over a claim for one node, for one.
  lemma AnUnshareableCase() returns (k: Controller, spec: Spec, q: Surroundings)
    ensures spec.presetRef.None? && EffectiveOf(k, None, spec).Success?
    ensures k.validate(EffectiveOf(k, None, spec).value).None? && q.claim.Some?
    ensures !Shareable(q.claim.value.modes, Replicas(spec), EffectiveOf(k, None, spec).value.pvcReadOnly)
  {
    k := Controller("c", true, (p: Option<string>, s: Spec) => Success(Effective("", false)), (e: Effective) => None,
                    (e: Effective) => "");
    spec := Spec(None, None, "", None, Some(2), None, "");
    q := Surroundings(None, Some(Claim([ReadWriteOnce])), NodePort, "");
  }
}
