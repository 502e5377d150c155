// Nothing in a status is invented: every condition, name and hash that is stored or staged was written by
// some pass, stamped with the generation that pass was over, and says what that pass had found.
module Conditions {
  import opened Wrappers
  import opened Cluster
  import opened Machine
  import Storage
  import opened Guarantees
  import Safety

  // ---------------------------------------------------------------------------------------
  // What a pass has to have found
  // ---------------------------------------------------------------------------------------

  function Wanted(spec: Spec): nat
  {
    match spec.replicas
    case None => 1
    case Some(n) => n
  }

  // The configuration the pass resolved, its read-only flag taken from the spec unless the overrides have one.
  ghost predicate Resolves(k: Controller, p: Pass, e: Effective)
  {
    var spec, r := p.resource.spec, k.resolve(p.preset, p.resource.spec);
    && r.Success?
    && e == if spec.pvcReadOnly.Some? && (spec.overrides.None? || spec.overrides.value.pvcReadOnly.None?)
            then r.value.(pvcReadOnly := spec.pvcReadOnly.value) else r.value
  }

  // The claim it read does not allow the replicas it wants.
  ghost predicate Refuses(k: Controller, p: Pass, refusal: Message)
  {
    && p.claim.Some? && Wanted(p.resource.spec) > 1 && refusal == Refusal(Wanted(p.resource.spec), p.claim.value.modes)
    && ReadWriteMany !in p.claim.value.modes
    && exists e :: Resolves(k, p, e) && (ReadOnlyMany in p.claim.value.modes ==> !e.pvcReadOnly)
  }

  function Plainly(m: Message): Message
  {
    match m
    case RefusalRemediated(refusal) => refusal
    case RefusalUnremediated(refusal, _) => refusal
    case _ => m
  }

  // The condition is of the pass's generation, and its reason, truth and message fit what the pass found.
  ghost predicate Earned(k: Controller, p: Pass, c: Condition)
  {
    var spec := p.resource.spec;
    && c.generation == p.resource.generation
    && match c.reason
       case OverridesUsed => c.kind == PresetResolved && c.truth == Yes && c.message == NoPresetRef && spec.presetRef.None?
       case PresetFound =>
         c.kind == PresetResolved && c.truth == Yes && spec.presetRef.Some? && c.message == UsingPreset(spec.presetRef.value)
       case PresetNotFound =>
         && c.truth == No && spec.presetRef.Some?
         && ((c.kind == PresetResolved && c.message == NoSuchPreset(spec.presetRef.value))
             || (c.kind == Ready && c.message == PresetAbsent))
       case InvalidConfiguration =>
         c.kind == Ready && c.truth == No && c.message.Invalid?
         && exists e :: Resolves(k, p, e) && k.validate(e) == Some(c.message.error)
       case PVCNotFound =>
         c.truth == No && ((c.kind == StorageReady && c.message == NoSuchClaim(spec.pvcName))
                           || (c.kind == Ready && c.message == StorageNotReady))
       case PVCFound => c.kind == StorageReady && c.truth == Yes && c.message == ClaimExists && p.claim.Some?
       case ReplicaStorageUnsafe =>
         (c.kind == StorageReady || c.kind == Ready) && c.truth == No && Refuses(k, p, Plainly(c.message))
       case ApplyFailed =>
         c.kind == Ready && c.truth == No && p.sent.Some?
         && (c.message.ApplyDeployment? || (c.message.ApplyService? && p.deploymentApplied))
       case ScaledToZero =>
         c.kind == Ready && c.truth == No && c.message == NoPods && spec.replicas == Some(0) && p.serviceApplied && p.seen.Some?
       case AllReady =>
         && c.kind == Ready && c.truth == Yes && c.message == PodsReady
         && p.serviceApplied && p.seen.Some? && p.counted >= Wanted(spec) > 0
         && p.seen.value.status.available.Some? && p.seen.value.status.available.value.truth == Yes
       case DeploymentUnavailable =>
         && c.kind == Ready && c.truth == No && c.message == Waiting
         && p.serviceApplied && p.seen.Some? && p.seen.value.status.progressing.None?
       case MirroredReason(text) =>
         && c.message.MirroredMessage? && p.serviceApplied && p.seen.Some?
         && var st := p.seen.value.status;
            match c.kind
            case DeploymentAvailable => st.available == Some(Mirrored(c.truth, text, c.message.text))
            case Progressing => st.progressing == Some(Mirrored(c.truth, text, c.message.text))
            case Ready => c.truth == No && st.progressing.Some?
                          && st.progressing == Some(Mirrored(st.progressing.value.truth, text, c.message.text))
            case _ => false
  }

  // The names are those of what the pass applied, and the hash that of what it resolved.
  ghost predicate Named(k: Controller, p: Pass, name: string)
  {
    name == k.name && p.deploymentApplied
  }

  ghost predicate Served(k: Controller, p: Pass, name: string)
  {
    name == "svc-" + k.name && p.serviceApplied
  }

  ghost predicate Hashed(k: Controller, p: Pass, hash: string)
  {
    exists e :: Resolves(k, p, e) && hash == k.hash(e)
  }

  // ---------------------------------------------------------------------------------------
  // The invariant
  // ---------------------------------------------------------------------------------------

  ghost predicate EarnedBySome(k: Controller, passes: seq<Pass>, c: Condition)
  {
    exists i :: 0 <= i < |passes| && Earned(k, passes[i], c)
  }

  // All of a status is some pass's.
  ghost predicate Accounted(k: Controller, passes: seq<Pass>, st: Status)
  {
    && (forall c :: c in st.conditions ==> EarnedBySome(k, passes, c))
    && (st.deploymentName != "" ==> exists i :: 0 <= i < |passes| && Named(k, passes[i], st.deploymentName))
    && (st.serviceName != "" ==> exists i :: 0 <= i < |passes| && Served(k, passes[i], st.serviceName))
    && (st.hash != "" ==> exists i :: 0 <= i < |passes| && Hashed(k, passes[i], st.hash))
  }

  // What is staged was in the snapshot or is this pass's.
  ghost predicate Sound(k: Controller, l: Local)
  {
    && l.pass.resource == l.orig
    && (forall c :: c in l.status.conditions ==> c in l.orig.status.conditions || Earned(k, l.pass, c))
    && (l.status.deploymentName == l.orig.status.deploymentName || Named(k, l.pass, l.status.deploymentName))
    && (l.status.serviceName == l.orig.status.serviceName || Served(k, l.pass, l.status.serviceName))
    && (l.status.hash == l.orig.status.hash || Hashed(k, l.pass, l.status.hash))
  }

  ghost predicate Underway(k: Controller, c: Control)
  {
    match c
    case Idle => true
    case WantPreset(l) => l.status == l.orig.status && l.pass == Fresh(l.orig) && l.orig.spec.presetRef.Some?
    case WantClaim(l, e) =>
      Sound(k, l) && Resolves(k, l.pass, e) && l.pass.claim.None? && l.pass.sent.None? && l.pass.seen.None?
    case WantCached(l, m) => Sound(k, l) && Refuses(k, l.pass, m) && Plainly(m) == m
    case WantAuthoritative(l, m, _) => Sound(k, l) && Refuses(k, l.pass, m) && Plainly(m) == m
    case WantRewrite(l, m, _, _) => Sound(k, l) && Refuses(k, l.pass, m) && Plainly(m) == m
    case WantReadBack(l, m, _) => Sound(k, l) && Refuses(k, l.pass, m) && Plainly(m) == m
    case WantApplyDeployment(l, e) => Sound(k, l) && l.pass.sent.None? && l.pass.seen.None?
    case WantApplyService(l, e) => Sound(k, l) && l.pass.sent.Some? && l.pass.deploymentApplied && l.pass.seen.None?
    case WantService(l, e) => Sound(k, l) && l.pass.serviceApplied && l.pass.seen.None?
    case WantDeployment(l, e, _) => Sound(k, l) && l.pass.serviceApplied && l.pass.seen.None?
    case WantEndpoint(l, e, d) =>
      && Sound(k, l) && l.pass.serviceApplied && l.pass.seen == Some(d) && l.pass.counted == l.status.readyReplicas
      && Wanted(l.orig.spec) > 0
    case WantPatch(l, _) => Sound(k, l)
  }

  function Fresh(r: Resource): Pass
  {
    Pass(r, None, None, None, None, None, false, false, None, 0)
  }

  ghost predicate AllAccounted(k: Controller, passes: seq<Pass>, log: seq<Option<Resource>>)
  {
    forall i :: 0 <= i < |log| && log[i].Some? ==> Accounted(k, passes, log[i].value.status)
  }

  ghost predicate Kept(k: Controller, s: State)
  {
    && AllAccounted(k, s.passes, s.world.resources)
    && Underway(k, s.control)
    && (!s.control.Idle? ==> Accounted(k, s.passes, s.control.l.orig.status))
  }

  // ---------------------------------------------------------------------------------------
  // Staging
  // ---------------------------------------------------------------------------------------

  // A write puts in that one condition, up to its time, and takes nothing else in.
  lemma {:induction false} SetConditionHolds(cs: seq<Condition>, c: Condition)
    ensures forall d :: d in SetCondition(cs, c) ==> d in cs || d == c.(since := d.since)
  {
    if cs != [] && cs[0].kind != c.kind {
      SetConditionHolds(cs[1..], c);
    }
  }

  lemma TimeIsNothing(k: Controller, p: Pass, c: Condition, since: int)
    requires Earned(k, p, c)
    ensures Earned(k, p, c.(since := since))
  {
  }

  lemma SetKeepsSound(k: Controller, l: Local, kind: Kind, truth: Truth, reason: Reason, message: Message, now: int)
    requires Sound(k, l) && Earned(k, l.pass, Condition(kind, truth, reason, message, l.orig.generation, now))
    ensures Sound(k, Set(l, kind, truth, reason, message, now))
    ensures Set(l, kind, truth, reason, message, now).pass == l.pass && Set(l, kind, truth, reason, message, now).orig == l.orig
  {
    hide Earned;
    var c := Condition(kind, truth, reason, message, l.orig.generation, now);
    SetConditionHolds(l.status.conditions, c);
    forall d | d in SetCondition(l.status.conditions, c) ensures d in l.orig.status.conditions || Earned(k, l.pass, d) {
      TimeIsNothing(k, l.pass, c, d.since);
    }
  }

  lemma WarnKeepsSound(k: Controller, l: Local, kind: Kind, truth: Truth, reason: Reason, message: Message, now: int)
    requires Sound(k, l) && Earned(k, l.pass, Condition(kind, truth, reason, message, l.orig.generation, now))
    ensures Sound(k, Warn(l, kind, truth, reason, message, now))
    ensures Warn(l, kind, truth, reason, message, now).pass == l.pass && Warn(l, kind, truth, reason, message, now).orig == l.orig
  {
    hide Earned, SetCondition;
    SetKeepsSound(k, l, kind, truth, reason, message, now);
  }

  // What a pass finds later takes nothing back.
  ghost predicate Finds(p: Pass, p': Pass)
  {
    && p'.resource == p.resource && p'.preset == p.preset
    && (p.claim.Some? ==> p'.claim == p.claim)
    && (p.sent.Some? ==> p'.sent.Some?) && (p.deploymentApplied ==> p'.deploymentApplied)
    && (p.serviceApplied ==> p'.serviceApplied) && (p.seen.Some? ==> p'.seen == p.seen && p'.counted == p.counted)
  }

  lemma FindsKeepsEarned(k: Controller, p: Pass, p': Pass, c: Condition)
    requires Finds(p, p') && Earned(k, p, c)
    ensures Earned(k, p', c)
  {
    hide Wanted, Plainly;
    match c.reason
    case InvalidConfiguration =>
      var e :| Resolves(k, p, e) && k.validate(e) == Some(c.message.error);
      assert Resolves(k, p', e);
    case ReplicaStorageUnsafe =>
      var e :| Resolves(k, p, e) && (ReadOnlyMany in p.claim.value.modes ==> !e.pvcReadOnly);
      assert Resolves(k, p', e);
    case _ =>
  }

  lemma FindsKeepsSound(k: Controller, l: Local, p': Pass)
    requires Sound(k, l) && Finds(l.pass, p')
    ensures Sound(k, l.(pass := p'))
  {
    hide Earned, Finds, Resolves;
    FindsSame(k, l.pass, p', l.status);
    forall c | c in l.status.conditions && Earned(k, l.pass, c) ensures Earned(k, p', c) {
      FindsKeepsEarned(k, l.pass, p', c);
    }
  }

  lemma FindsSame(k: Controller, p: Pass, p': Pass, st: Status)
    requires Finds(p, p')
    ensures p'.resource == p.resource
    ensures Named(k, p, st.deploymentName) ==> Named(k, p', st.deploymentName)
    ensures Served(k, p, st.serviceName) ==> Served(k, p', st.serviceName)
    ensures Hashed(k, p, st.hash) ==> Hashed(k, p', st.hash)
  {
    if Hashed(k, p, st.hash) {
      var e :| Resolves(k, p, e) && st.hash == k.hash(e);
      assert Resolves(k, p', e);
    }
  }

  // ---------------------------------------------------------------------------------------
  // Steps
  // ---------------------------------------------------------------------------------------

  lemma UnsafeIsEarned(k: Controller, l: Local, message: Message, exit: Exit, now: int)
    requires Sound(k, l) && Refuses(k, l.pass, Plainly(message))
    ensures Underway(k, Unsafe(l, message, exit, now)) && Unsafe(l, message, exit, now).l.orig == l.orig
  {
    hide Sound, Refuses, Plainly, Set, Earned;
    RefusalIsEarned(k, l, message, now);
    SetKeepsSound(k, l, StorageReady, No, ReplicaStorageUnsafe, message, now);
    var l1 := Set(l, StorageReady, No, ReplicaStorageUnsafe, message, now);
    SetKeepsSound(k, l1, Ready, No, ReplicaStorageUnsafe, message, now);
  }

  lemma RefusalIsEarned(k: Controller, l: Local, message: Message, now: int)
    requires Sound(k, l) && Refuses(k, l.pass, Plainly(message))
    ensures Earned(k, l.pass, Condition(StorageReady, No, ReplicaStorageUnsafe, message, l.orig.generation, now))
    ensures Earned(k, l.pass, Condition(Ready, No, ReplicaStorageUnsafe, message, l.orig.generation, now))
  {
    hide Refuses, Plainly;
  }

  // From a configuration to be resolved on; what is staged so far holds with the preset noted.
  lemma ResolvedIsEarned(k: Controller, l: Local, preset: Option<string>, now: int)
    requires Sound(k, l) && Sound(k, l.(pass := l.pass.(preset := preset)))
    requires l.pass.claim.None? && l.pass.sent.None? && l.pass.seen.None?
    ensures Underway(k, Resolved(k, l, preset, now)) && !Resolved(k, l, preset, now).Idle?
    ensures Resolved(k, l, preset, now).l.orig == l.orig
  {
    hide Earned, Warn;
    var r := k.resolve(preset, l.orig.spec);
    if r.Success? {
      var e := if SpecDecidesReadOnly(l.orig.spec) then r.value.(pvcReadOnly := l.orig.spec.pvcReadOnly.value) else r.value;
      var l1 := l.(status := l.status.(hash := k.hash(e)), pass := l.pass.(preset := preset));
      assert Resolves(k, l1.pass, e);
      assert Hashed(k, l1.pass, k.hash(e));
      assert Sound(k, l1);
      if k.validate(e).Some? {
        InvalidIsEarned(k, l1.pass, e, l.orig.generation, now);
        WarnKeepsSound(k, l1, Ready, No, InvalidConfiguration, Invalid(k.validate(e).value), now);
      }
    }
  }

  lemma InvalidIsEarned(k: Controller, p: Pass, e: Effective, generation: nat, now: int)
    requires Resolves(k, p, e) && k.validate(e).Some? && generation == p.resource.generation
    ensures Earned(k, p, Condition(Ready, No, InvalidConfiguration, Invalid(k.validate(e).value), generation, now))
  {
  }

  lemma StartIsEarned(k: Controller, r: Resource, now: int)
    ensures !Start(k, r, now).Idle? && Underway(k, Start(k, r, now)) && Start(k, r, now).l.orig == r
  {
    hide Resolved, SetCondition;
    var l := Local(r, r.status, Fresh(r), []);
    if r.spec.presetRef.None? {
      SetKeepsSound(k, l, PresetResolved, Yes, OverridesUsed, NoPresetRef, now);
      var l1 := Set(l, PresetResolved, Yes, OverridesUsed, NoPresetRef, now);
      assert l1.(pass := l1.pass.(preset := None)) == l1;
      ResolvedIsEarned(k, l1, None, now);
    }
  }

  lemma PresetIsEarned(k: Controller, s: State, l: Local, now: int, a: Answer)
    requires s.control == WantPreset(l) && Underway(k, s.control)
    ensures var c := StepPreset(k, s, l, now, a).control; Underway(k, c) && !c.Idle? && c.l.orig == l.orig
  {
    hide Resolved, SetCondition, Flips;
    assert Sound(k, l);
    var name := l.orig.spec.presetRef.value;
    match a
    case Missing =>
      WarnKeepsSound(k, l, PresetResolved, No, PresetNotFound, NoSuchPreset(name), now);
      var l1 := Warn(l, PresetResolved, No, PresetNotFound, NoSuchPreset(name), now);
      SetKeepsSound(k, l1, Ready, No, PresetNotFound, PresetAbsent, now);
    case PresetIs(preset) =>
      var noted := l.(pass := l.pass.(preset := Some(preset)));
      SetKeepsSound(k, l, PresetResolved, Yes, PresetFound, UsingPreset(name), now);
      SetKeepsSound(k, noted, PresetResolved, Yes, PresetFound, UsingPreset(name), now);
      ResolvedIsEarned(k, Set(l, PresetResolved, Yes, PresetFound, UsingPreset(name), now), Some(preset), now);
    case _ =>
  }

  lemma ClaimIsEarned(k: Controller, s: State, l: Local, e: Effective, now: int, a: Answer)
    requires s.control == WantClaim(l, e) && Underway(k, s.control)
    ensures var c := StepClaim(k, s, l, e, now, a).control; Underway(k, c) && !c.Idle? && c.l.orig == l.orig
  {
    hide SetCondition, Flips, Resolves;
    match a
    case Missing =>
      WarnKeepsSound(k, l, StorageReady, No, PVCNotFound, NoSuchClaim(l.orig.spec.pvcName), now);
      SetKeepsSound(k, Warn(l, StorageReady, No, PVCNotFound, NoSuchClaim(l.orig.spec.pvcName), now), Ready, No,
                    PVCNotFound, StorageNotReady, now);
    case ClaimIs(claim) =>
      GateIsEarned(k, l, e, claim, now);
    case _ =>
  }

  lemma GateIsEarned(k: Controller, l: Local, e: Effective, claim: Claim, now: int)
    requires Sound(k, l) && Resolves(k, l.pass, e) && l.pass.claim.None? && l.pass.sent.None? && l.pass.seen.None?
    ensures var c := AfterClaim(k, l, e, claim, now); Underway(k, c) && !c.Idle? && c.l.orig == l.orig
  {
    hide SetCondition, Sound, Resolves, Earned, Unsafe;
    var p := l.pass.(claim := Some(claim));
    FindsKeepsSound(k, l, p);
    var l1 := l.(pass := p);
    assert Earned(k, p, Condition(StorageReady, Yes, PVCFound, ClaimExists, l.orig.generation, now)) by { FoundIsEarned(k, l1, now); }
    assert l1.orig == l.orig;
    SetKeepsSound(k, l1, StorageReady, Yes, PVCFound, ClaimExists, now);
    var l2 := Set(l1, StorageReady, Yes, PVCFound, ClaimExists, now);
    var replicas := Replicas(l.orig.spec);
    if !Storage.Shareable(claim.modes, replicas, e.pvcReadOnly) {
      RefusedIsSo(k, l, e, p);
      if !k.hasApiReader {
        UnsafeIsEarned(k, l2, RefusalUnremediated(Refusal(replicas, claim.modes), NoReader), Failed, now);
        UnsafeEnds(l2, RefusalUnremediated(Refusal(replicas, claim.modes), NoReader), Failed, now);
      }
    }
  }

  lemma FoundIsEarned(k: Controller, l: Local, now: int)
    requires Sound(k, l) && l.pass.claim.Some?
    ensures Earned(k, l.pass, Condition(StorageReady, Yes, PVCFound, ClaimExists, l.orig.generation, now))
  {
  }

  lemma RefusedIsSo(k: Controller, l: Local, e: Effective, p: Pass)
    requires Sound(k, l) && Resolves(k, l.pass, e) && p == l.pass.(claim := p.claim) && p.claim.Some?
    requires !Storage.Shareable(p.claim.value.modes, Replicas(l.orig.spec), e.pvcReadOnly)
    ensures Refuses(k, p, Refusal(Replicas(l.orig.spec), p.claim.value.modes))
  {
    assert Resolves(k, p, e);
  }

  // The four calls of the corrective path, of which none but the last says more than it refuses.
  lemma CorrectionIsEarned(k: Controller, s: State, now: int, a: Answer)
    requires s.control.WantCached? || s.control.WantAuthoritative? || s.control.WantRewrite? || s.control.WantReadBack?
    requires Underway(k, s.control)
    ensures var c := Step(k, s, now, a).control; Underway(k, c) && !c.Idle? && c.l.orig == s.control.l.orig
  {
    hide SetCondition, Sound, Refuses, Unsafe, Set, ApplyOneReplica;
    var l, m := s.control.l, s.control.refusal;
    forall why: Fault ensures var c := RemediationFailed(l, m, why, now); Underway(k, c) && !c.Idle? && c.l.orig == l.orig {
      UnsafeIsEarned(k, l, RefusalUnremediated(m, why), Failed, now);
      UnsafeEnds(l, RefusalUnremediated(m, why), Failed, now);
    }
    UnsafeIsEarned(k, l, m, Done, now);
    UnsafeEnds(l, m, Done, now);
    forall d: Option<Deployment> ensures var l' := l.(pass := l.pass.(cached := d)); Sound(k, l') && Refuses(k, l'.pass, m) {
      FindsKeepsSound(k, l, l.pass.(cached := d));
      RefusesStays(k, l.pass, l.pass.(cached := d), m);
    }
    forall d: Option<Deployment>
      ensures var c := Remediated(l.(pass := l.pass.(readBack := d)), m, now); Underway(k, c) && !c.Idle? && c.l.orig == l.orig
    {
      var l' := l.(pass := l.pass.(readBack := d));
      FindsKeepsSound(k, l, l'.pass);
      RefusesStays(k, l.pass, l'.pass, m);
      UnsafeIsEarned(k, l', RefusalRemediated(m), Done, now);
      UnsafeEnds(l', RefusalRemediated(m), Done, now);
    }
  }

  lemma UnsafeEnds(l: Local, message: Message, exit: Exit, now: int)
    ensures Unsafe(l, message, exit, now).WantPatch?
  {
  }

  lemma RefusesStays(k: Controller, p: Pass, p': Pass, m: Message)
    requires Finds(p, p') && Refuses(k, p, m)
    ensures Refuses(k, p', m)
  {
    var e :| Resolves(k, p, e) && (ReadOnlyMany in p.claim.value.modes ==> !e.pvcReadOnly);
    assert Resolves(k, p', e);
  }

  lemma ApplyDeploymentIsEarned(k: Controller, s: State, l: Local, e: Effective, now: int, a: Answer)
    requires s.control == WantApplyDeployment(l, e) && Underway(k, s.control)
    ensures var c := StepApplyDeployment(k, s, l, e, now, a).control; Underway(k, c) && !c.Idle? && c.l.orig == l.orig
  {
    hide SetCondition, Flips, ApplyFull, Render, Sound, Warn, Earned;
    var sent := l.pass.(sent := Some(Render(l.orig, e)));
    FindsKeepsSound(k, l, sent);
    forall error: string
      ensures var c := FailApply(l.(pass := sent), ApplyDeployment(error), now); Underway(k, c) && c.l.orig == l.orig
    {
      FailureIsEarned(k, l.(pass := sent), ApplyDeployment(error), now);
    }
    var applied := sent.(deploymentApplied := true);
    FindsKeepsSound(k, l, applied);
    NamesKeepSound(k, l.(pass := applied), l.status.(deploymentName := k.name));
  }

  lemma FailureIsEarned(k: Controller, l: Local, message: Message, now: int)
    requires Sound(k, l) && l.pass.sent.Some?
    requires message.ApplyDeployment? || (message.ApplyService? && l.pass.deploymentApplied)
    ensures Underway(k, FailApply(l, message, now)) && FailApply(l, message, now).l.orig == l.orig
  {
    hide Warn;
    WarnKeepsSound(k, l, Ready, No, ApplyFailed, message, now);
  }

  // Staging the names of what was applied, or anything that is not accounted for.
  lemma NamesKeepSound(k: Controller, l: Local, st: Status)
    requires Sound(k, l) && st.conditions == l.status.conditions && st.hash == l.status.hash
    requires st.deploymentName == l.status.deploymentName || Named(k, l.pass, st.deploymentName)
    requires st.serviceName == l.status.serviceName || Served(k, l.pass, st.serviceName)
    ensures Sound(k, l.(status := st))
  {
    hide Earned, Hashed;
  }

  lemma ApplyServiceIsEarned(k: Controller, s: State, l: Local, e: Effective, now: int, a: Answer)
    requires s.control == WantApplyService(l, e) && Underway(k, s.control)
    ensures var c := StepApplyService(k, s, l, e, now, a).control; Underway(k, c) && !c.Idle? && c.l.orig == l.orig
  {
    hide Sound, FailApply, Earned;
    match a
    case Lost(error) => FailureIsEarned(k, l, ApplyService(error), now); FailEnds(l, ApplyService(error), now);
    case Refused(error) => FailureIsEarned(k, l, ApplyService(error), now); FailEnds(l, ApplyService(error), now);
    case Accepted =>
      var applied := l.pass.(serviceApplied := true);
      FindsKeepsSound(k, l, applied);
      NamesKeepSound(k, l.(pass := applied), l.status.(serviceName := "svc-" + k.name, observedGeneration := l.orig.generation));
    case _ =>
  }

  lemma FailEnds(l: Local, message: Message, now: int)
    ensures FailApply(l, message, now).WantPatch?
  {
  }

  lemma MirrorIsEarned(k: Controller, l: Local, d: Deployment, now: int)
    requires Sound(k, l) && l.pass.serviceApplied && l.pass.seen.None?
    ensures var m := Mirror(l, d, now);
      && Sound(k, m) && m.orig == l.orig && m.pass.serviceApplied && m.pass.seen == Some(d)
      && m.pass.counted == m.status.readyReplicas
  {
    hide Sound, Set, Earned;
    var l0 := if d.status.observedGeneration >= d.generation
              then l.(status := l.status.(readyReplicas := d.status.readyReplicas)) else l;
    NamesKeepSound(k, l, l0.status);
    var p := l0.pass.(seen := Some(d), counted := l0.status.readyReplicas);
    FindsKeepsSound(k, l0, p);
    var l1 := l0.(pass := p);
    MirroredIsEarned(k, l1, DeploymentAvailable, d.status.available, now);
    var l2 := SetMirrored(l1, DeploymentAvailable, d.status.available, now);
    MirroredIsEarned(k, l2, Progressing, d.status.progressing, now);
  }

  lemma MirroredIsEarned(k: Controller, l: Local, kind: Kind, m: Option<Mirrored>, now: int)
    requires Sound(k, l) && l.pass.serviceApplied && l.pass.seen.Some?
    requires (kind == DeploymentAvailable && m == l.pass.seen.value.status.available)
          || (kind == Progressing && m == l.pass.seen.value.status.progressing)
    ensures var l' := SetMirrored(l, kind, m, now);
      && Sound(k, l') && l'.orig == l.orig && l'.pass == l.pass && l'.status.readyReplicas == l.status.readyReplicas
  {
    hide SetCondition;
    if m.Some? {
      SetKeepsSound(k, l, kind, m.value.truth, MirroredReason(m.value.reason), MirroredMessage(m.value.message), now);
    }
  }

  lemma FinishIsEarned(k: Controller, l: Local, d: Deployment, url: string, now: int)
    requires Sound(k, l) && l.pass.serviceApplied && l.pass.seen == Some(d) && l.pass.counted == l.status.readyReplicas
    requires Wanted(l.orig.spec) > 0
    ensures Underway(k, Finish(l, d, url, now)) && Finish(l, d, url, now).WantPatch? && Finish(l, d, url, now).l.orig == l.orig
  {
    hide SetCondition, Flips, Sound;
    NamesKeepSound(k, l, l.status.(endpoint := url));
    var l1 := l.(status := l.status.(endpoint := url));
    assert l.pass.resource == l.orig by { SoundIsOver(k, l); }
    if Serving(l1, d) {
      SetKeepsSound(k, l1, Ready, Yes, AllReady, PodsReady, now);
      var l2 := Set(l1, Ready, Yes, AllReady, PodsReady, now);
      SoundIgnoresEvents(k, l2, l2.events + [Event(false, AllReady)]);
    } else if d.status.progressing.Some? {
      var m := d.status.progressing.value;
      SetKeepsSound(k, l1, Ready, No, MirroredReason(m.reason), MirroredMessage(m.message), now);
    } else {
      SetKeepsSound(k, l1, Ready, No, DeploymentUnavailable, Waiting, now);
    }
  }

  lemma SoundIsOver(k: Controller, l: Local)
    requires Sound(k, l)
    ensures l.pass.resource == l.orig
  {
  }

  lemma SoundIgnoresEvents(k: Controller, l: Local, events: seq<Event>)
    requires Sound(k, l)
    ensures Sound(k, l.(events := events))
  {
  }

  lemma ReportIsEarned(k: Controller, l: Local, e: Effective, service: Service, d: Deployment, now: int)
    requires Sound(k, l) && l.pass.serviceApplied && l.pass.seen.None?
    ensures var c := AfterDeployment(l, e, service, d, now); Underway(k, c) && !c.Idle? && c.l.orig == l.orig
  {
    hide SetCondition, Sound, Mirror, Finish;
    MirrorIsEarned(k, l, d, now);
    var m := Mirror(l, d, now);
    SoundIsOver(k, m);
    if Replicas(m.orig.spec) == 0 {
      SetKeepsSound(k, m, Ready, No, ScaledToZero, NoPods, now);
      var z := Set(m, Ready, No, ScaledToZero, NoPods, now);
      NamesKeepSound(k, z, z.status.(endpoint := ""));
    } else if service.Addressed? {
      FinishIsEarned(k, m, d, service.url, now);
    }
  }

  lemma LateStepIsEarned(k: Controller, s: State, now: int, a: Answer)
    requires s.control.WantService? || s.control.WantDeployment? || s.control.WantEndpoint?
    requires Underway(k, s.control)
    ensures var c := Step(k, s, now, a).control; Underway(k, c) && !c.Idle? && c.l.orig == s.control.l.orig
  {
    hide Sound, AfterDeployment, Finish;
    match s.control
    case WantService(_, _) =>
    case WantDeployment(l, e, service) =>
      if a.Cached? && a.version < |s.world.deployments| && s.world.deployments[a.version].Some? {
        ReportIsEarned(k, l, e, service, s.world.deployments[a.version].value, now);
      }
    case WantEndpoint(l, e, d) =>
      if a.EndpointIs? { FinishIsEarned(k, l, d, a.url, now); }
  }

  // ---------------------------------------------------------------------------------------
  // Runs
  // ---------------------------------------------------------------------------------------

  lemma EarlierCounts(k: Controller, passes: seq<Pass>, p: Pass, st: Status)
    requires Accounted(k, passes, st)
    ensures Accounted(k, passes + [p], st)
  {
    hide Earned, Named, Served, Hashed;
    var all := passes + [p];
    assert forall i :: 0 <= i < |passes| ==> all[i] == passes[i];
    forall c | c in st.conditions ensures EarnedBySome(k, all, c) {
      var i :| 0 <= i < |passes| && Earned(k, passes[i], c);
      assert Earned(k, all[i], c);
    }
    if st.deploymentName != "" {
      var i :| 0 <= i < |passes| && Named(k, passes[i], st.deploymentName);
      assert Named(k, all[i], st.deploymentName);
    }
    if st.serviceName != "" {
      var i :| 0 <= i < |passes| && Served(k, passes[i], st.serviceName);
      assert Served(k, all[i], st.serviceName);
    }
    if st.hash != "" {
      var i :| 0 <= i < |passes| && Hashed(k, passes[i], st.hash);
      assert Hashed(k, all[i], st.hash);
    }
  }

  lemma StagedIsAccounted(k: Controller, passes: seq<Pass>, l: Local)
    requires Sound(k, l) && Accounted(k, passes, l.orig.status)
    ensures Accounted(k, passes + [l.pass], l.status)
  {
    hide Earned, Named, Served, Hashed;
    EarlierCounts(k, passes, l.pass, l.orig.status);
    var all := passes + [l.pass];
    assert all[|passes|] == l.pass;
    forall c | c in l.status.conditions ensures EarnedBySome(k, all, c) {
      if c !in l.orig.status.conditions { assert Earned(k, all[|passes|], c); }
    }
  }

  // A status put together from two that are accounted for.
  lemma MixIsAccounted(k: Controller, passes: seq<Pass>, a: Status, b: Status, st: Status)
    requires Accounted(k, passes, a) && Accounted(k, passes, b)
    requires st.conditions == a.conditions || st.conditions == b.conditions
    requires st.deploymentName == a.deploymentName || st.deploymentName == b.deploymentName
    requires st.serviceName == a.serviceName || st.serviceName == b.serviceName
    requires st.hash == a.hash || st.hash == b.hash
    ensures Accounted(k, passes, st)
  {
    hide EarnedBySome, Named, Served, Hashed;
  }

  lemma PendingIsSound(k: Controller, c: Control)
    requires !c.Idle? && Underway(k, c)
    ensures Sound(k, c.l)
  {
    hide Earned, Resolves, Refuses, Named, Served, Hashed;
  }

  lemma EndAccounts(k: Controller, s: State, l: Local)
    requires Kept(k, s) && !s.control.Idle? && l == s.control.l
    ensures AllAccounted(k, s.passes + [l.pass], s.world.resources)
    ensures Accounted(k, s.passes + [l.pass], l.status)
  {
    hide Accounted, Sound, Underway;
    PendingIsSound(k, s.control);
    StagedIsAccounted(k, s.passes, l);
    forall i | 0 <= i < |s.world.resources| && s.world.resources[i].Some?
      ensures Accounted(k, s.passes + [l.pass], s.world.resources[i].value.status)
    {
      EarlierCounts(k, s.passes, l.pass, s.world.resources[i].value.status);
    }
  }

  lemma PatchKeeps(k: Controller, s: State, l: Local, a: Answer)
    requires Kept(k, s) && s.control.WantPatch? && l == s.control.l
    ensures Kept(k, StepPatch(s, l, a))
  {
    hide Accounted, Underway, Cluster.PatchStatus;
    EndAccounts(k, s, l);
    var passes := s.passes + [l.pass];
    if Last(s.world.resources).Some? {
      var r := Last(s.world.resources).value;
      PatchFrame(s.world, l.orig.status, l.status, r);
      var w' := Cluster.PatchStatus(s.world, l.orig.status, l.status).value;
      assert s.world.resources[|s.world.resources| - 1] == Some(r);
      MixIsAccounted(k, passes, r.status, l.status, Last(w'.resources).value.status);
      assert AllAccounted(k, passes, w'.resources);
    } else {
      NoResourceNoPatch(s.world, l.orig.status, l.status);
    }
    assert Underway(k, Idle) by { IdleIsUnderway(k); }
  }

  lemma NoResourceNoPatch(w: World, orig: Status, staged: Status)
    requires Last(w.resources).None?
    ensures Cluster.PatchStatus(w, orig, staged).None?
  {
  }

  lemma IdleIsUnderway(k: Controller)
    ensures Underway(k, Idle)
  {
  }

  lemma InterfereAccounts(k: Controller, passes: seq<Pass>, w: World, e: Environment)
    requires AllAccounted(k, passes, w.resources)
    ensures AllAccounted(k, passes, Interfere(w, e).resources)
  {
    hide Accounted;
    assert Accounted(k, passes, EMPTY_STATUS) by { NothingIsAccounted(k, passes); }
  }

  lemma NothingIsAccounted(k: Controller, passes: seq<Pass>)
    ensures Accounted(k, passes, EMPTY_STATUS)
  {
  }

  lemma PassStepKeeps(k: Controller, s: State, now: int, a: Answer)
    requires Kept(k, s) && !s.control.Idle? && !s.control.WantPatch?
    ensures Kept(k, Step(k, s, now, a))
  {
    hide Accounted, Underway, Step;
    OnlyPatchesWriteResources(k, s, now, a);
    OnlyPatchesEnd(k, s, now, a);
    StepIsEarned(k, s, now, a);
  }

  lemma OnlyPatchesEnd(k: Controller, s: State, now: int, a: Answer)
    requires !s.control.WantPatch?
    ensures Step(k, s, now, a).passes == s.passes
  {
    hide Start, AfterClaim, AfterDeployment, Finish, Render;
  }

  lemma StepIsEarned(k: Controller, s: State, now: int, a: Answer)
    requires Underway(k, s.control) && !s.control.Idle? && !s.control.WantPatch?
    ensures var c := Step(k, s, now, a).control; Underway(k, c) && !c.Idle? && c.l.orig == s.control.l.orig
  {
    hide Underway, StepRead, StepPreset, StepClaim, StepCached, StepAuthoritative, StepRewrite, StepReadBack,
         StepApplyDeployment, StepApplyService, StepService, StepDeployment, StepEndpoint, StepPatch;
    match s.control
    case WantPreset(l) => PresetIsEarned(k, s, l, now, a);
    case WantClaim(l, e) => ClaimIsEarned(k, s, l, e, now, a);
    case WantApplyDeployment(l, e) => ApplyDeploymentIsEarned(k, s, l, e, now, a);
    case WantApplyService(l, e) => ApplyServiceIsEarned(k, s, l, e, now, a);
    case WantService(_, _) => LateStepIsEarned(k, s, now, a);
    case WantDeployment(_, _, _) => LateStepIsEarned(k, s, now, a);
    case WantEndpoint(_, _, _) => LateStepIsEarned(k, s, now, a);
    case _ => CorrectionIsEarned(k, s, now, a);
  }

  lemma ReadKeeps(k: Controller, s: State, now: int, a: Answer)
    requires Kept(k, s) && s.control.Idle?
    ensures Kept(k, StepRead(k, s, now, a))
  {
    hide Accounted, Underway, Start;
    if a.Cached? && a.version < |s.world.resources| && s.world.resources[a.version].Some? {
      StartIsEarned(k, s.world.resources[a.version].value, now);
    }
  }

  lemma ActKeeps(k: Controller, s: State, action: Action)
    requires Kept(k, s)
    ensures Kept(k, Act(k, s, action))
  {
    hide Accounted, Underway, Step, StepPatch, StepRead, Interfere, AllAccounted;
    match action
    case Env(e) => InterfereAccounts(k, s.passes, s.world, e);
    case Crash =>
      if !s.control.Idle? { EndAccounts(k, s, s.control.l); }
      IdleIsUnderway(k);
    case Reply(now, a) =>
      if s.control.Idle? {
        ReadKeeps(k, s, now, a);
        ReadSteps(k, s, now, a);
      } else if s.control.WantPatch? {
        PatchKeeps(k, s, s.control.l, a);
        PatchSteps(k, s, now, a);
      } else {
        PassStepKeeps(k, s, now, a);
      }
  }

  lemma ReadSteps(k: Controller, s: State, now: int, a: Answer)
    requires s.control.Idle?
    ensures Step(k, s, now, a) == StepRead(k, s, now, a)
  {
    hide StepRead;
  }

  lemma {:induction false} RunKeepsAccounts(k: Controller, actions: seq<Action>)
    ensures Kept(k, Run(k, BOOT, actions))
  {
    hide Act, Kept;
    if actions == [] {
      BootIsKept(k);
    } else {
      var n := |actions| - 1;
      RunKeepsAccounts(k, actions[..n]);
      ActKeeps(k, Run(k, BOOT, actions[..n]), actions[n]);
    }
  }

  lemma BootIsKept(k: Controller)
    ensures Kept(k, BOOT)
  {
  }

  // In every reachable state every condition of a stored or staged status was written by a pass of its
  // generation and says what that pass found; the names are those of what a pass applied, the hash that of
  // a configuration a pass resolved.
  lemma EverythingIsEarned(k: Controller, s: State, st: Status)
    requires Reachable(k, s) && Shows(s, st)
    ensures forall c :: c in st.conditions ==> exists i :: 0 <= i < |Passes(s)| && Earned(k, Passes(s)[i], c)
    ensures st.deploymentName != "" ==> exists i :: 0 <= i < |Passes(s)| && Named(k, Passes(s)[i], st.deploymentName)
    ensures st.serviceName != "" ==> exists i :: 0 <= i < |Passes(s)| && Served(k, Passes(s)[i], st.serviceName)
    ensures st.hash != "" ==> exists i :: 0 <= i < |Passes(s)| && Hashed(k, Passes(s)[i], st.hash)
  {
    hide Earned, Named, Served, Hashed, Run, Underway, Sound;
    var actions :| s == Run(k, BOOT, actions);
    RunKeepsAccounts(k, actions);
    ShownIsAccounted(k, s, st);
    forall c | c in st.conditions ensures exists i :: 0 <= i < |Passes(s)| && Earned(k, Passes(s)[i], c) {
      assert EarnedBySome(k, Passes(s), c);
    }
  }

  lemma ShownIsAccounted(k: Controller, s: State, st: Status)
    requires Kept(k, s) && Shows(s, st)
    ensures Accounted(k, Passes(s), st)
  {
    hide Accounted, Underway, Sound;
    if s.control.Idle? {
      assert Passes(s) == s.passes;
    } else {
      EndAccounts(k, s, s.control.l);
    }
  }

  // In particular a resource is said to be scaled to zero only after a pass over a spec that says zero.
  lemma OnlyZeroIsScaledToZero(k: Controller, s: State, st: Status, c: Condition) returns (p: Pass)
    requires Reachable(k, s) && Shows(s, st) && c in st.conditions && c.reason == ScaledToZero
    ensures p in Passes(s) && p.resource.generation == c.generation && p.resource.spec.replicas == Some(0)
  {
    hide Run;
    EverythingIsEarned(k, s, st);
    var i :| 0 <= i < |Passes(s)| && Earned(k, Passes(s)[i], c);
    p := Passes(s)[i];
  }

  // What a pass sends is its spec, field by field: the replicas it asks for and one if it asks for none, the
  // configuration resolved from it with the read-only flag it decides, and the key its overrides or it gives.
  lemma SentIsRendered(k: Controller, s: State, p: Pass)
    requires Reachable(k, s) && p in Passes(s) && p.sent.Some?
    ensures var spec, sent := p.resource.spec, p.sent.value;
      && sent.owner == p.resource.uid
      && (spec.replicas == None ==> sent.replicas == 1)
      && (forall n :: spec.replicas == Some(n) ==> sent.replicas == n)
      && Resolves(k, p, sent.template.config)
      && sent.template.modelsReadOnly == sent.template.config.pvcReadOnly
      && sent.template.pvcName == spec.pvcName && sent.template.rest == spec.rest
      && (spec.overrides.Some? && spec.overrides.value.apiKey.Some? ==> sent.template.apiKey == spec.overrides.value.apiKey)
      && (spec.overrides.None? || spec.overrides.value.apiKey.None? ==> sent.template.apiKey == spec.apiKey)
  {
    hide Run, Safety.Inv;
    ReachableIsSafe(k, s);
    assert Safety.Licensed(k, p, p.sent.value);
  }
}
