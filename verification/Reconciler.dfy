// Reconcile and remediateUnsafeDeployment as the imperative code they are: status is staged field by
// field between client calls and flushed at every exit. `Valid` says that what the code has done so far
// is a run of the machine, so everything proved about runs is proved about this code.
module Reconciler {
  import opened Wrappers
  import opened Cluster
  import opened Storage
  import opened Machine
  import opened Guarantees

  datatype Call =
    | ReadPreset | ReadClaim | ReadCachedDeployment | ReadDeployment
    | Rewrite(resourceVersion: nat) | ApplyDeployment(payload: Payload) | ApplyService
    | ReadService | ReadNodes | FlushStatus

  // The answers a call can get.
  predicate Fits(call: Call, w: World, a: Answer)
  {
    match call
    case ReadPreset => a.Missing? || a.Broken? || a.PresetIs?
    case ReadClaim => a.Missing? || a.Broken? || a.ClaimIs?
    case ReadCachedDeployment => a.Missing? || a.Broken? || (a.Cached? && a.version < |w.deployments|)
    case ReadDeployment => a.Broken? || a.Current?
    case Rewrite(v) => a.Accepted? || a.Refused? || (a.Lost? && ApplyOneReplica(w, v).Some?)
    case ApplyDeployment(p) => a.Unencodable? || a.Accepted? || a.Refused? || (a.Lost? && ApplyFull(w, p).Some?)
    case ApplyService => a.Unencodable? || a.Accepted? || a.Refused? || a.Lost?
    case ReadService => a.Missing? || a.Broken? || a.ServiceIs?
    case ReadNodes => a.EndpointIs?
    case FlushStatus => a.Accepted? || a.Refused? || a.Lost?
  }

  // The call that the machine is waiting on.
  function Pending(c: Control): Call
    requires !c.Idle?
  {
    match c
    case WantPreset(_) => ReadPreset
    case WantClaim(_, _) => ReadClaim
    case WantCached(_, _) => ReadCachedDeployment
    case WantAuthoritative(_, _, _) => ReadDeployment
    case WantRewrite(_, _, _, d) => Rewrite(d.resourceVersion)
    case WantReadBack(_, _, _) => ReadDeployment
    case WantApplyDeployment(l, e) => Call.ApplyDeployment(Render(l.orig, e))
    case WantApplyService(_, _) => Call.ApplyService
    case WantService(_, _) => ReadService
    case WantDeployment(_, _, _) => ReadCachedDeployment
    case WantEndpoint(_, _, _) => ReadNodes
    case WantPatch(_, _) => FlushStatus
  }

  // Where the machine gets to when a schedule is worked off from the middle of a pass: answers that do
  // not fit the pending call are passed over, and a schedule that ends stops the process.
  function Rest(k: Controller, s: State, schedule: seq<Action>): (State, seq<Action>)
    decreases |schedule|
  {
    if s.control.Idle? then (s, schedule)
    else if schedule == [] then (Act(k, s, Crash), [])
    else
      var action := schedule[0];
      if action.Reply? && !Fits(Pending(s.control), s.world, action.a) then Rest(k, s, schedule[1..])
      else Rest(k, Act(k, s, action), schedule[1..])
  }

  // The same for a whole pass, which begins when the cache hands out some version of the instance.
  function WholePass(k: Controller, s: State, schedule: seq<Action>): (State, seq<Action>)
    decreases |schedule|
  {
    if schedule == [] || !s.control.Idle? then Rest(k, s, schedule)
    else if schedule[0].Crash? then WholePass(k, s, schedule[1..])
    else WholePass(k, Act(k, s, schedule[0]), schedule[1..])
  }

  lemma StartIsPending(k: Controller, r: Resource, now: int)
    ensures !Start(k, r, now).Idle?
  {
  }

  class Reconciler {
    const k: Controller
    var world: World
    var pending: seq<Action>   // what the environment and the server are going to do

    // instance (its snapshot and its staged status) and the events emitted for it
    var orig: Resource
    var status: Status
    var events: seq<Event>

    ghost var pass: Pass
    ghost var origin: State
    ghost var taken: seq<Action>
    ghost var state: State
    ghost var goal: (State, seq<Action>)   // where this pass has to end

    // What was done so far is a run of the machine, and what is left leads to the goal.
    ghost predicate Valid()
      reads this
    {
      state == Run(k, origin, taken) && world == state.world && Rest(k, state, pending) == goal
    }

    // The same once an answer has been taken off the schedule and not yet acted upon.
    ghost predicate Answered(action: Action)
      reads this
    {
      && state == Run(k, origin, taken) && !state.control.Idle? && Rest(k, state, [action] + pending) == goal
      && (action.Reply? ==> Fits(Pending(state.control), state.world, action.a))
    }

    // The machine is at a call of this pass, with exactly what the code has staged.
    ghost predicate At(c: Control)
      reads this
    {
      Valid() && state.control == c && !c.Idle? && c.l == Local(orig, status, pass, events)
    }

    constructor (k: Controller, origin: State, pending: seq<Action>, r: Resource)
      ensures Valid() && state == origin && this.origin == origin && this.k == k && this.pending == pending
    {
      this.k := k;
      this.world := origin.world;
      this.pending := pending;
      this.orig, this.status, this.events := r, r.status, [];
      this.pass := Pass(r, None, None, None, None, None, false, false, None, 0);
      this.origin, this.taken, this.state := origin, [], origin;
      this.goal := Rest(k, origin, pending);
    }

    ghost method Record(action: Action)
      requires Answered(action) && world == Act(k, state, action).world
      modifies `taken, `state
      ensures Valid() && state == Act(k, old(state), action) && taken == old(taken) + [action]
    {
      taken := taken + [action];
      assert taken[..|taken| - 1] == old(taken);
      assert ([action] + pending)[1..] == pending;
      state := Act(k, state, action);
    }

    // Wait for the answer to a call. The environment acts in the meantime; the process may stop.
    method Await(call: Call) returns (now: int, a: Answer, stopped: bool)
      requires Valid() && !state.control.Idle? && call == Pending(state.control)
      modifies `world, `pending, `taken, `state
      ensures old(taken) <= taken
      ensures stopped ==> Valid() && state.control.Idle?
      ensures !stopped ==>
        Answered(Reply(now, a)) && Fits(call, world, a) && world == state.world && state == old(state).(world := world)
    {
      hide Run, Step, Interfere, Fits;
      now, a, stopped := 0, Missing, false;
      ghost var s := state;
      while pending != []
        invariant Valid() && state == s.(world := world) && old(taken) <= taken
        decreases |pending|
      {
        var action := pending[0];
        assert [action] + pending[1..] == pending;
        pending := pending[1..];
        match action {
          case Env(e) =>
            world := Interfere(world, e);
            Record(action);
          case Reply(n, answer) =>
            if Fits(call, world, answer) {
              return n, answer, false;
            }
          case Crash =>
            Record(Crash);
            return 0, Missing, true;
        }
      }
      assert ([Crash] + pending)[1..] == [];
      Record(Crash);
      stopped := true;
    }

    method SetStatusCondition(kind: Kind, truth: Truth, reason: Reason, message: Message, now: int) returns (changed: bool)
      modifies `status
      ensures Local(orig, status, pass, events)
           == Set(Local(orig, old(status), pass, events), kind, truth, reason, message, now)
      ensures changed <==> Flips(old(status).conditions, kind, truth)
    {
      changed := Flips(status.conditions, kind, truth);
      status := status.(conditions :=
        SetCondition(status.conditions, Condition(kind, truth, reason, message, orig.generation, now)));
    }

    // Set a condition; emit a warning if that changed it.
    method SetAndWarn(kind: Kind, truth: Truth, reason: Reason, message: Message, now: int)
      modifies `status, `events
      ensures Local(orig, status, pass, events)
           == Warn(Local(orig, old(status), pass, old(events)), kind, truth, reason, message, now)
    {
      var changed := SetStatusCondition(kind, truth, reason, message, now);
      if changed {
        events := events + [Event(true, reason)];
      }
    }

    method PatchStatus(ghost exit: Exit)
      requires At(WantPatch(Local(orig, status, pass, events), exit))
      modifies `world, `pending, `taken, `state
      ensures Valid() && state.control.Idle? && old(taken) <= taken
      ensures (state, pending) == old(Rest(k, state, pending))
    {
      var now, a, stopped := Await(FlushStatus);
      if stopped {
        return;
      }
      if !a.Refused? {
        var done := Cluster.PatchStatus(world, orig.status, status);
        if done.Some? {
          world := done.value;
        }
      }
      Record(Reply(now, a));
    }

    // What the caller of RemediateUnsafeDeployment does with its result.
    ghost function Verdict(refusal: Message, remediated: bool, fault: Option<Fault>, now: int): Control
      reads this
    {
      var l := Local(orig, status, pass, events);
      if fault.Some? then RemediationFailed(l, refusal, fault.value, now)
      else if remediated then Remediated(l, refusal, now)
      else NotRemediated(l, refusal, now)
    }

    // Cached read, authoritative read, conditional write, authoritative read-back.
    method RemediateUnsafeDeployment(ghost refusal: Message, asked: int)
      returns (remediated: bool, fault: Option<Fault>, now: int, stopped: bool)
      requires Valid()
      requires if k.hasApiReader then At(WantCached(Local(orig, status, pass, events), refusal))
               else state.control == RemediationFailed(Local(orig, status, pass, events), refusal, NoReader, asked)
      modifies `world, `pending, `taken, `state, `pass
      ensures Valid() && old(taken) <= taken
      ensures stopped ==> state.control.Idle?
      ensures !stopped ==> state.control == Verdict(refusal, remediated, fault, now)
    {
      hide Run, At, Unsafe, SetCondition, Step, Interfere;
      remediated, fault, now, stopped := false, None, asked, false;
      if !k.hasApiReader {
        fault := Some(NoReader);
        return;
      }
      var cached, authoritative;
      stopped, now, fault, cached := ReadCachedRunaway(refusal);
      if stopped || cached.None? {
        return;
      }
      stopped, now, fault, authoritative := ReadAuthoritativeRunaway(refusal, cached.value);
      if stopped || authoritative.None? {
        return;
      }
      stopped, now, fault := WriteOneReplica(refusal, cached.value, authoritative.value);
      if stopped || fault.Some? {
        return;
      }
      stopped, now, fault := ReadBackOneReplica(refusal, cached.value);
      remediated := fault.None?;
    }

    // The cached Deployment, if it is this resource's and has several replicas.
    method ReadCachedRunaway(ghost refusal: Message)
      returns (stopped: bool, now: int, fault: Option<Fault>, runaway: Option<Deployment>)
      requires At(WantCached(Local(orig, status, pass, events), refusal))
      modifies `world, `pending, `taken, `state, `pass
      ensures Valid() && old(taken) <= taken
      ensures stopped ==> state.control.Idle?
      ensures !stopped && runaway.None? ==> state.control == Verdict(refusal, false, fault, now)
      ensures !stopped && runaway.Some? ==>
        At(WantAuthoritative(Local(orig, status, pass, events), refusal, runaway.value))
    {
      hide Run, Unsafe, SetCondition, StepRead, StepPreset, StepClaim, StepApplyDeployment, StepApplyService, StepService,
           StepDeployment, StepEndpoint, StepPatch, Interfere;
      var a;
      fault, runaway := None, None;
      now, a, stopped := Await(ReadCachedDeployment);
      if stopped {
        return;
      }
      Record(Reply(now, a));
      if a.Broken? {
        fault := Some(CachedRead(a.error));
        return;
      }
      if a.Missing? || world.deployments[a.version].None? {
        return;
      }
      var d := world.deployments[a.version].value;
      if !Owns(orig, d) || !Multiple(d) {
        return;
      }
      pass := pass.(cached := Some(d));
      runaway := Some(d);
    }

    // The current Deployment, if it is still the cached one, owned and with several replicas.
    method ReadAuthoritativeRunaway(ghost refusal: Message, cached: Deployment)
      returns (stopped: bool, now: int, fault: Option<Fault>, runaway: Option<Deployment>)
      requires At(WantAuthoritative(Local(orig, status, pass, events), refusal, cached))
      modifies `world, `pending, `taken, `state
      ensures Valid() && old(taken) <= taken
      ensures stopped ==> state.control.Idle?
      ensures !stopped && runaway.None? ==> state.control == Verdict(refusal, false, fault, now)
      ensures !stopped && runaway.Some? ==>
        At(WantRewrite(Local(orig, status, pass, events), refusal, cached, runaway.value))
    {
      hide Run, Unsafe, SetCondition, StepRead, StepPreset, StepClaim, StepApplyDeployment, StepApplyService, StepService,
           StepDeployment, StepEndpoint, StepPatch, Interfere;
      var a;
      fault, runaway := None, None;
      now, a, stopped := Await(ReadDeployment);
      if stopped {
        return;
      }
      Record(Reply(now, a));
      if a.Broken? || Last(world.deployments).None? {
        fault := Some(PreRead(if a.Broken? then a.error else "not found"));
        return;
      }
      var d := Last(world.deployments).value;
      if d.uid != cached.uid || !Owns(orig, d) {
        fault := Some(PreReadChanged);
        return;
      }
      if Multiple(d) {
        runaway := Some(d);
      }
    }

    method WriteOneReplica(ghost refusal: Message, ghost cached: Deployment, authoritative: Deployment)
      returns (stopped: bool, now: int, fault: Option<Fault>)
      requires At(WantRewrite(Local(orig, status, pass, events), refusal, cached, authoritative))
      modifies `world, `pending, `taken, `state
      ensures Valid() && old(taken) <= taken
      ensures stopped ==> state.control.Idle?
      ensures !stopped && fault.Some? ==> state.control == Verdict(refusal, false, fault, now)
      ensures !stopped && fault.None? ==> At(WantReadBack(Local(orig, status, pass, events), refusal, cached))
    {
      hide Run, Unsafe, SetCondition, StepRead, StepPreset, StepClaim, StepApplyDeployment, StepApplyService, StepService,
           StepDeployment, StepEndpoint, StepPatch, Interfere;
      var a;
      fault := None;
      now, a, stopped := Await(Rewrite(authoritative.resourceVersion));
      if stopped {
        return;
      }
      var done := ApplyOneReplica(world, authoritative.resourceVersion);
      if !a.Refused? && done.Some? {
        world := done.value;
      }
      Record(Reply(now, a));
      if !a.Accepted? {
        fault := Some(Rewriting(a.error));
      } else if done.None? {
        fault := Some(Rewriting("refused"));
      }
    }

    method ReadBackOneReplica(ghost refusal: Message, cached: Deployment)
      returns (stopped: bool, now: int, fault: Option<Fault>)
      requires At(WantReadBack(Local(orig, status, pass, events), refusal, cached))
      modifies `world, `pending, `taken, `state, `pass
      ensures Valid() && old(taken) <= taken
      ensures stopped ==> state.control.Idle?
      ensures !stopped ==> state.control == Verdict(refusal, fault.None?, fault, now)
    {
      hide Run, Unsafe, SetCondition, StepRead, StepPreset, StepClaim, StepApplyDeployment, StepApplyService, StepService,
           StepDeployment, StepEndpoint, StepPatch, Interfere;
      var a;
      fault := None;
      now, a, stopped := Await(ReadDeployment);
      if stopped {
        return;
      }
      Record(Reply(now, a));
      if a.Broken? || Last(world.deployments).None? {
        fault := Some(ReadBack(if a.Broken? then a.error else "not found"));
        return;
      }
      var observed := Last(world.deployments).value;
      if observed.uid != cached.uid || !Owns(orig, observed) {
        fault := Some(ReadBackChanged);
      } else if observed.replicas != Some(1) {
        fault := Some(ReadBackReplicas(observed.replicas));
      } else {
        pass := pass.(readBack := Some(observed));
      }
    }

    // Get: the cache hands out some stored version of the instance.
    method GetInstance() returns (now: int, found: bool)
      requires Valid() && state.control.Idle?
      modifies this
      ensures Valid() && origin == old(origin) && old(taken) <= taken && goal == old(WholePass(k, state, pending))
      ensures if found then state.control == Start(k, orig, now) && status == orig.status && events == []
                            && pass == Pass(orig, None, None, None, None, None, false, false, None, 0)
              else state.control.Idle?
    {
      hide Run, SetCondition, Flips, Set, Warn, Interfere, Start, StepPreset, StepClaim, StepCached, StepAuthoritative,
           StepRewrite, StepReadBack, StepApplyDeployment, StepApplyService, StepService, StepDeployment,
           StepEndpoint, StepPatch, Rest;
      now, found := 0, false;
      goal := WholePass(k, state, pending);
      while pending != []
        invariant state == Run(k, origin, taken) && world == state.world && state.control.Idle?
        invariant WholePass(k, state, pending) == goal == old(WholePass(k, state, pending))
        invariant origin == old(origin) && old(taken) <= taken
        decreases |pending|
      {
        var action := pending[0];
        pending := pending[1..];
        match action {
          case Env(e) =>
            world := Interfere(world, e);
            Enter(action);
          case Reply(n, a) =>
            if a.Cached? && a.version < |world.resources| && world.resources[a.version].Some? {
              orig := world.resources[a.version].value;
              status, events := orig.status, [];
              pass := Pass(orig, None, None, None, None, None, false, false, None, 0);
              Enter(action);
              StartIsPending(k, orig, n);
              return n, true;
            }
          case Crash =>
        }
      }
    }

    // Record an action that reaches an idle reconciler.
    ghost method Enter(action: Action)
      requires state == Run(k, origin, taken) && state.control.Idle? && world == Act(k, state, action).world
      modifies `taken, `state
      ensures state == Run(k, origin, taken) && state == Act(k, old(state), action) && taken == old(taken) + [action]
    {
      taken := taken + [action];
      assert taken[..|taken| - 1] == old(taken);
      state := Act(k, state, action);
    }

    // Resolve the configuration, fix its read-only flag and its hash, validate it.
    method Configure(preset: Option<string>, now: int)
      requires Valid() && state.control == Resolved(k, Local(orig, status, pass, events), preset, now)
      modifies `world, `pending, `status, `events, `taken, `state, `pass
      ensures Valid() && state.control.Idle? && old(taken) <= taken
      ensures (state, pending) == old(Rest(k, state, pending))
    {
      hide Run, SetCondition, Flips, Set, Warn, Interfere, StepRead, StepPreset, StepClaim, StepCached, StepAuthoritative,
           StepRewrite, StepReadBack, StepApplyDeployment, StepApplyService, StepService, StepDeployment,
           StepEndpoint, StepPatch;
      var resolved := k.resolve(preset, orig.spec);
      if resolved.Failure? {
        PatchStatus(Failed);
        return;
      }
      var e := resolved.value;
      var hash := k.hash(e);
      if orig.spec.pvcReadOnly.Some? && (orig.spec.overrides.None? || orig.spec.overrides.value.pvcReadOnly.None?) {
        e := e.(pvcReadOnly := orig.spec.pvcReadOnly.value);
        hash := k.hash(e);
      }
      status := status.(hash := hash);
      pass := pass.(preset := preset);
      var verdict := k.validate(e);
      if verdict.Some? {
        SetAndWarn(Ready, No, InvalidConfiguration, Invalid(verdict.value), now);
        PatchStatus(Failed);
      } else {
        CheckStorage(e);
      }
    }

    // 2, 3. Storage probe and replica gate.
    method CheckStorage(e: Effective)
      requires At(WantClaim(Local(orig, status, pass, events), e))
      modifies `world, `pending, `status, `events, `taken, `state, `pass
      ensures Valid() && state.control.Idle? && old(taken) <= taken
      ensures (state, pending) == old(Rest(k, state, pending))
    {
      hide Run, SetCondition, Flips, Set, Warn, Interfere, StepRead, StepPreset, StepCached, StepAuthoritative, StepRewrite,
           StepReadBack, StepApplyDeployment, StepApplyService, StepService, StepDeployment, StepEndpoint,
           StepPatch, AfterClaim, Resolved, Start, ApplyFull, ApplyOneReplica, Render, Cluster.PatchStatus, Shareable;
      var now, a, stopped := Await(ReadClaim);
      if stopped {
        return;
      }
      Record(Reply(now, a));
      match a {
        case Missing =>
          SetAndWarn(StorageReady, No, PVCNotFound, NoSuchClaim(orig.spec.pvcName), now);
          var _ := SetStatusCondition(Ready, No, PVCNotFound, StorageNotReady, now);
          PatchStatus(Requeue(15));
        case Broken(_) =>
          PatchStatus(Failed);
        case ClaimIs(claim) =>
          GateReplicas(e, claim, now);
      }
    }

    method GateReplicas(e: Effective, claim: Claim, now: int)
      requires Valid() && state.control == AfterClaim(k, Local(orig, status, pass, events), e, claim, now)
      modifies `world, `pending, `status, `events, `taken, `state, `pass
      ensures Valid() && state.control.Idle? && old(taken) <= taken
      ensures (state, pending) == old(Rest(k, state, pending))
    {
      hide Run, SetCondition, Flips, Set, Warn, Interfere, Unsafe;
      var _ := SetStatusCondition(StorageReady, Yes, PVCFound, ClaimExists, now);
      pass := pass.(claim := Some(claim));
      var replicas := if orig.spec.replicas.Some? then orig.spec.replicas.value else 1;
      var ok := ValidateReplicaStorage(claim.modes, replicas, e.pvcReadOnly);
      if ok {
        ApplyObjects(e);
      } else {
        RefuseStorage(Refusal(replicas, claim.modes), now);
      }
    }

    // The unsafe-storage exit.
    method RefuseStorage(refusal: Message, asked: int)
      requires Valid()
      requires if k.hasApiReader then At(WantCached(Local(orig, status, pass, events), refusal))
               else state.control == RemediationFailed(Local(orig, status, pass, events), refusal, NoReader, asked)
      modifies `world, `pending, `status, `events, `taken, `state, `pass
      ensures Valid() && state.control.Idle? && old(taken) <= taken
      ensures (state, pending) == old(Rest(k, state, pending))
    {
      hide Run, SetCondition, Flips, Set, Warn, Interfere, StepRead, StepPreset, StepClaim, StepCached, StepAuthoritative,
           StepRewrite, StepReadBack, StepApplyDeployment, StepApplyService, StepService, StepDeployment,
           StepEndpoint, StepPatch;
      var remediated, fault, now, stopped := RemediateUnsafeDeployment(refusal, asked);
      if stopped {
        return;
      }
      var message := refusal;
      if fault.Some? {
        message := RefusalUnremediated(refusal, fault.value);
      } else if remediated {
        message := RefusalRemediated(refusal);
      }
      var _ := SetStatusCondition(StorageReady, No, ReplicaStorageUnsafe, message, now);
      var _ := SetStatusCondition(Ready, No, ReplicaStorageUnsafe, message, now);
      PatchStatus(if fault.Some? then Failed else Done);
    }

    // What the machine waits for once the Deployment apply has been answered.
    ghost function AfterApply(e: Effective, encoded: bool, error: Option<string>, now: int): Control
      reads this
    {
      var p := Some(Render(orig, e));
      if !encoded then WantPatch(Local(orig, status, pass, events), Failed)
      else if error.Some? then
        FailApply(Local(orig, status, pass.(sent := p), events), Message.ApplyDeployment(error.value), now)
      else
        WantApplyService(Local(orig, status.(deploymentName := k.name), pass.(sent := p, deploymentApplied := true), events), e)
    }

    method SendDeployment(e: Effective) returns (stopped: bool, encoded: bool, error: Option<string>, now: int)
      requires At(WantApplyDeployment(Local(orig, status, pass, events), e))
      modifies `world, `pending, `taken, `state
      ensures Valid() && old(taken) <= taken
      ensures if stopped then state.control.Idle? else state.control == AfterApply(e, encoded, error, now)
    {
      hide Render, ApplyFull, Run, SetCondition, Flips, Set, Warn, Interfere, StepRead, StepPreset, StepClaim, StepCached,
           StepAuthoritative, StepRewrite, StepReadBack, StepApplyService, StepService, StepDeployment, StepEndpoint, StepPatch;
      encoded, error := true, None;
      var payload, a := Render(orig, e), Missing;
      now, a, stopped := Await(Call.ApplyDeployment(payload));
      if stopped {
        return;
      }
      var done := ApplyFull(world, payload);
      if (a.Accepted? || a.Lost?) && done.Some? {
        world := done.value;
      }
      Record(Reply(now, a));
      if a.Unencodable? {
        encoded := false;
      } else if !a.Accepted? {
        error := Some(a.error);
      } else if done.None? {
        error := Some("second controller");
      }
    }

    // 4, 5. Apply the Deployment, then the Service.
    method ApplyObjects(e: Effective)
      requires At(WantApplyDeployment(Local(orig, status, pass, events), e))
      modifies `world, `pending, `status, `events, `taken, `state, `pass
      ensures Valid() && state.control.Idle? && old(taken) <= taken
      ensures (state, pending) == old(Rest(k, state, pending))
    {
      hide Run, SetCondition, Flips, Set, Warn, Interfere, Step, Render;
      var stopped, encoded, error, now := SendDeployment(e);
      if stopped {
        return;
      }
      if !encoded {
        PatchStatus(Failed);
        return;
      }
      pass := pass.(sent := Some(Render(orig, e)));
      if error.Some? {
        SetAndWarn(Ready, No, ApplyFailed, Message.ApplyDeployment(error.value), now);
        PatchStatus(Failed);
        return;
      }
      status := status.(deploymentName := k.name);
      pass := pass.(deploymentApplied := true);
      ApplyItsService(e);
    }

    method ApplyItsService(e: Effective)
      requires At(WantApplyService(Local(orig, status, pass, events), e))
      modifies `world, `pending, `status, `events, `taken, `state, `pass
      ensures Valid() && state.control.Idle? && old(taken) <= taken
      ensures (state, pending) == old(Rest(k, state, pending))
    {
      hide Run, SetCondition, Flips, Set, Warn, Interfere, StepRead, StepPreset, StepClaim, StepCached, StepAuthoritative,
           StepRewrite, StepReadBack, StepApplyDeployment, StepService, StepDeployment, StepEndpoint, StepPatch;
      var now, a, stopped := Await(Call.ApplyService);
      if stopped {
        return;
      }
      Record(Reply(now, a));
      if a.Unencodable? {
        PatchStatus(Failed);
        return;
      }
      if !a.Accepted? {
        SetAndWarn(Ready, No, ApplyFailed, Message.ApplyService(a.error), now);
        PatchStatus(Failed);
        return;
      }
      status := status.(serviceName := "svc-" + k.name);
      status := status.(observedGeneration := orig.generation);
      pass := pass.(serviceApplied := true);
      Observe(e);
    }

    // Re-read the Service and the Deployment.
    method Observe(e: Effective)
      requires At(WantService(Local(orig, status, pass, events), e))
      modifies `world, `pending, `status, `events, `taken, `state, `pass
      ensures Valid() && state.control.Idle? && old(taken) <= taken
      ensures (state, pending) == old(Rest(k, state, pending))
    {
      hide Run, SetCondition, Flips, Set, Warn, Interfere, AfterDeployment, StepRead, StepPreset, StepClaim, StepCached,
           StepAuthoritative, StepRewrite, StepReadBack, StepApplyDeployment, StepApplyService, StepEndpoint,
           StepPatch;
      var now, a, stopped := Await(ReadService);
      if stopped {
        return;
      }
      Record(Reply(now, a));
      if !a.ServiceIs? {
        PatchStatus(if a.Missing? then Requeue(1) else Failed);
        return;
      }
      var service := a.service;
      now, a, stopped := Await(ReadCachedDeployment);
      if stopped {
        return;
      }
      Record(Reply(now, a));
      if a.Broken? {
        PatchStatus(Failed);
        return;
      }
      if a.Missing? || world.deployments[a.version].None? {
        PatchStatus(Requeue(1));
        return;
      }
      Report(e, service, world.deployments[a.version].value, now);
    }

    // 6. Mirror the Deployment: its ready count if it is current, and two of its conditions.
    method MirrorStatus(observed: Deployment, now: int)
      modifies `status, `pass
      ensures Local(orig, status, pass, events) == Mirror(Local(orig, old(status), old(pass), events), observed, now)
    {
      hide SetCondition, Flips, Set;
      if observed.status.observedGeneration >= observed.generation {
        status := status.(readyReplicas := observed.status.readyReplicas);
      }
      pass := pass.(seen := Some(observed), counted := status.readyReplicas);
      if observed.status.available.Some? {
        var m := observed.status.available.value;
        var _ := SetStatusCondition(DeploymentAvailable, m.truth, MirroredReason(m.reason), MirroredMessage(m.message), now);
      }
      if observed.status.progressing.Some? {
        var m := observed.status.progressing.value;
        var _ := SetStatusCondition(Progressing, m.truth, MirroredReason(m.reason), MirroredMessage(m.message), now);
      }
    }

    // 7. The scaled-to-zero exit, or the endpoint.
    method Report(ghost e: Effective, service: Service, observed: Deployment, asked: int)
      requires Valid() && state.control == AfterDeployment(Local(orig, status, pass, events), e, service, observed, asked)
      modifies `world, `pending, `status, `events, `taken, `state, `pass
      ensures Valid() && state.control.Idle? && old(taken) <= taken
      ensures (state, pending) == old(Rest(k, state, pending))
    {
      hide Run, Finish, Mirror, SetCondition, Flips, Set, Warn, Interfere, StepRead, StepPreset, StepClaim, StepCached,
           StepAuthoritative, StepRewrite, StepReadBack, StepApplyDeployment, StepApplyService, StepService, StepDeployment,
           StepPatch;
      MirrorStatus(observed, asked);
      if Replicas(orig.spec) == 0 {
        var _ := SetStatusCondition(Ready, No, ScaledToZero, NoPods, asked);
        status := status.(endpoint := "");
        PatchStatus(Requeue(60));
      } else if service.Addressed? {
        Conclude(observed, service.url, asked);
      } else {
        var now, a, stopped := Await(ReadNodes);
        if !stopped {
          Record(Reply(now, a));
          Conclude(observed, a.url, now);
        }
      }
    }

    // 8. The Ready condition.
    method Conclude(observed: Deployment, url: string, now: int)
      requires Valid() && state.control == Finish(Local(orig, status, pass, events), observed, url, now)
      modifies `world, `pending, `status, `events, `taken, `state, `pass
      ensures Valid() && state.control.Idle? && old(taken) <= taken
      ensures (state, pending) == old(Rest(k, state, pending))
    {
      hide Run, SetCondition, Flips, Set, Warn, Interfere, StepRead, StepPreset, StepClaim, StepCached, StepAuthoritative,
           StepRewrite, StepReadBack, StepApplyDeployment, StepApplyService, StepService, StepDeployment,
           StepEndpoint, StepPatch;
      status := status.(endpoint := url);
      var available := observed.status.available;
      var ready := available.Some? && available.value.truth == Yes && status.readyReplicas >= Replicas(orig.spec);
      if ready {
        var changed := SetStatusCondition(Ready, Yes, AllReady, PodsReady, now);
        if changed {
          events := events + [Event(false, AllReady)];
        }
      } else if observed.status.progressing.Some? {
        var m := observed.status.progressing.value;
        var _ := SetStatusCondition(Ready, No, MirroredReason(m.reason), MirroredMessage(m.message), now);
      } else {
        var _ := SetStatusCondition(Ready, No, DeploymentUnavailable, Waiting, now);
      }
      PatchStatus(if ready then Done else Requeue(60));
    }

    // 1. Fetch the preset.
    method FetchPreset(name: string)
      requires At(WantPreset(Local(orig, status, pass, events))) && orig.spec.presetRef == Some(name)
      modifies `world, `pending, `status, `events, `taken, `state, `pass
      ensures Valid() && state.control.Idle? && old(taken) <= taken
      ensures (state, pending) == old(Rest(k, state, pending))
    {
      hide Run, SetCondition, Flips, Set, Warn, Interfere, Resolved, StepRead, StepClaim, StepCached, StepAuthoritative,
           StepRewrite, StepReadBack, StepApplyDeployment, StepApplyService, StepService, StepDeployment, StepEndpoint,
           StepPatch;
      var now, a, stopped := Await(ReadPreset);
      if stopped {
        return;
      }
      Record(Reply(now, a));
      match a {
        case Missing =>
          SetAndWarn(PresetResolved, No, PresetNotFound, NoSuchPreset(name), now);
          var _ := SetStatusCondition(Ready, No, PresetNotFound, PresetAbsent, now);
          PatchStatus(Requeue(15));
        case Broken(_) =>
          PatchStatus(Failed);
        case PresetIs(preset) =>
          var _ := SetStatusCondition(PresetResolved, Yes, PresetFound, UsingPreset(name), now);
          Configure(Some(preset), now);
      }
    }

    // One pass: get the instance, stage, call, flush at every exit. It works the schedule off exactly as
    // the machine does: same calls with the same arguments, same writes, same flush.
    method Reconcile()
      requires Valid() && state.control.Idle?
      modifies this
      ensures Valid() && state.control.Idle?
      ensures (state, pending) == old(WholePass(k, state, pending))
      ensures origin == old(origin) && old(taken) <= taken
    {
      hide Run, SetCondition, Flips, Set, Step, Interfere, Resolved;
      var now, found := GetInstance();
      if !found {
        return;
      }
      if orig.spec.presetRef.Some? {
        FetchPreset(orig.spec.presetRef.value);
      } else {
        var _ := SetStatusCondition(PresetResolved, Yes, OverridesUsed, NoPresetRef, now);
        Configure(None, now);
      }
    }
  }

  // However many passes the code makes, against whatever environment, the state it is in is one that
  // the theorems about runs speak of.
  method Operate(k: Controller, pending: seq<Action>, r: Resource, passes: nat) returns (c: Reconciler)
    ensures fresh(c) && c.k == k && c.world == c.state.world && Reachable(k, c.state)
  {
    c := new Reconciler(k, BOOT, pending, r);
    for i := 0 to passes
      invariant fresh(c) && c.Valid() && c.state.control.Idle? && c.origin == BOOT && c.k == k
    {
      c.Reconcile();
    }
  }
}
