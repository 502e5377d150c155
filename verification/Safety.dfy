// What holds in every reachable state of every run of the reconcile machine.
module Safety {
  import opened Wrappers
  import opened Cluster
  import opened Storage
  import opened Machine

  // ---------------------------------------------------------------------------------------
  // Vocabulary: what a pass of the history did
  // ---------------------------------------------------------------------------------------

  // Everything a full apply needs: the configuration resolves from what this pass read, validates,
  // the claim it read allows the replica count, and the payload is that configuration rendered.
  ghost predicate Licensed(k: Controller, p: Pass, payload: Payload)
  {
    var e := EffectiveOf(k, p.preset, p.resource.spec);
    && e.Success? && k.validate(e.value) == None
    && p.claim.Some? && Shareable(p.claim.value.modes, Replicas(p.resource.spec), e.value.pvcReadOnly)
    && payload == Render(p.resource, e.value)
  }

  // Some stored Deployment version carries exactly what was sent.
  ghost predicate Carried(deployments: seq<Option<Deployment>>, p: Payload)
  {
    exists i :: 0 <= i < |deployments| && Carries(deployments[i], p)
  }

  predicate Carries(d: Option<Deployment>, p: Payload)
  {
    d.Some? && d.value.controller == Some(p.owner) && d.value.replicas == Some(p.replicas)
    && d.value.template == Some(p.template)
  }

  // Deployment and Service applies rendered from p.resource both succeeded.
  ghost predicate Realized(k: Controller, p: Pass)
  {
    p.deploymentApplied && p.serviceApplied && p.sent.Some? && Licensed(k, p, p.sent.value)
  }

  // Some stored Deployment version reported n ready pods for the generation it was at.
  ghost predicate Reported(deployments: seq<Option<Deployment>>, n: nat)
  {
    exists i :: 0 <= i < |deployments| && deployments[i].Some?
      && deployments[i].value.status.observedGeneration >= deployments[i].value.generation
      && deployments[i].value.status.readyReplicas == n
  }

  ghost predicate SawReady(k: Controller, p: Pass, deployments: seq<Option<Deployment>>)
  {
    && Realized(k, p)
    && Replicas(p.resource.spec) > 0
    && p.seen.Some? && p.seen in deployments
    && p.seen.value.status.available.Some? && p.seen.value.status.available.value.truth == Yes
    && p.counted >= Replicas(p.resource.spec)
    && Reported(deployments, p.counted)
  }

  ghost predicate RealizedAt(k: Controller, passes: seq<Pass>, g: nat)
  {
    exists i :: 0 <= i < |passes| && passes[i].resource.generation == g && Realized(k, passes[i])
  }

  ghost predicate SawReadyAt(k: Controller, passes: seq<Pass>, deployments: seq<Option<Deployment>>, g: nat)
  {
    exists i :: 0 <= i < |passes| && passes[i].resource.generation == g && SawReady(k, passes[i], deployments)
  }

  // The generation a Ready=True condition is stamped with.
  ghost function ReadyStamp(st: Status): Option<nat>
  {
    var c := Find(st.conditions, Ready);
    if c.Some? && c.value.truth == Yes then Some(c.value.generation) else None
  }

  // The generation that a StorageReady condition claiming a remediation is stamped with.
  ghost function RemediationStamp(st: Status): Option<nat>
  {
    var c := Find(st.conditions, StorageReady);
    if c.Some? && c.value.message.RefusalRemediated? then Some(c.value.generation) else None
  }

  ghost predicate ReadBackAt(passes: seq<Pass>, g: nat)
  {
    exists i :: 0 <= i < |passes| && passes[i].resource.generation == g && passes[i].readBack.Some?
  }

  // ---------------------------------------------------------------------------------------
  // The invariant
  // ---------------------------------------------------------------------------------------

  ghost predicate StoredOk(k: Controller, passes: seq<Pass>, deployments: seq<Option<Deployment>>, st: Status)
  {
    && (st.observedGeneration > 0 ==> RealizedAt(k, passes, st.observedGeneration))
    && (st.readyReplicas > 0 ==> Reported(deployments, st.readyReplicas))
    && (ReadyStamp(st).Some? ==> SawReadyAt(k, passes, deployments, ReadyStamp(st).value))
    && (RemediationStamp(st).Some? ==> ReadBackAt(passes, RemediationStamp(st).value))
  }

  ghost predicate PassOk(k: Controller, p: Pass, w: World)
  {
    && Some(p.resource) in w.resources
    && (p.sent.Some? ==> Licensed(k, p, p.sent.value))
    && (p.deploymentApplied ==> p.sent.Some? && Carried(w.deployments, p.sent.value))
    && (p.serviceApplied ==> p.deploymentApplied)
    && (p.readBack.Some? ==>
          && p.cached.Some? && p.cached in w.deployments && p.readBack in w.deployments
          && p.readBack.value.uid == p.cached.value.uid && Owns(p.resource, p.readBack.value)
          && p.readBack.value.replicas == Some(1))
    && (p.cached.Some? ==> Owns(p.resource, p.cached.value) && Multiple(p.cached.value) && p.sent.None?)
  }

  ghost predicate LocalOk(k: Controller, passes: seq<Pass>, w: World, l: Local)
  {
    var st := l.status;
    && Some(l.orig) in w.resources
    && l.pass.resource == l.orig
    && PassOk(k, l.pass, w)
    && (l.pass.sent.Some? ==> st.hash == k.hash(l.pass.sent.value.template.config))
    && (st.observedGeneration > 0 ==>
          RealizedAt(k, passes, st.observedGeneration)
          || (st.observedGeneration == l.orig.generation && Realized(k, l.pass)))
    && (st.readyReplicas > 0 ==> Reported(w.deployments, st.readyReplicas))
    && (ReadyStamp(st).Some? ==>
          SawReadyAt(k, passes, w.deployments, ReadyStamp(st).value)
          || (ReadyStamp(st).value == l.orig.generation && SawReady(k, l.pass, w.deployments)))
    && (RemediationStamp(st).Some? ==>
          ReadBackAt(passes, RemediationStamp(st).value)
          || (RemediationStamp(st).value == l.orig.generation && l.pass.readBack.Some?))
  }

  ghost predicate Configured(k: Controller, l: Local, e: Effective)
  {
    && EffectiveOf(k, l.pass.preset, l.orig.spec) == Success(e)
    && k.validate(e) == None
    && l.status.hash == k.hash(e)
  }

  ghost predicate Unwritten(p: Pass)
  {
    p.sent.None? && !p.deploymentApplied && !p.serviceApplied && p.readBack.None? && p.seen.None?
  }

  ghost predicate Unsafe'(k: Controller, l: Local)
  {
    var e := EffectiveOf(k, l.pass.preset, l.orig.spec);
    && Unwritten(l.pass) && e.Success? && l.pass.claim.Some?
    && !Shareable(l.pass.claim.value.modes, Replicas(l.orig.spec), e.value.pvcReadOnly)
  }

  ghost predicate Cleared(l: Local, e: Effective)
  {
    l.pass.claim.Some? && l.pass.cached.None?
    && Shareable(l.pass.claim.value.modes, Replicas(l.orig.spec), e.pvcReadOnly)
  }

  ghost predicate Chosen(l: Local, cached: Deployment)
  {
    l.pass.cached == Some(cached)
  }

  // What each pending call may rely on.
  ghost predicate ControlOk(k: Controller, s: State)
  {
    match s.control
    case Idle => true
    case WantPreset(l) => LocalOk(k, s.passes, s.world, l) && Unwritten(l.pass) && l.pass.cached.None?
    case WantClaim(l, e) => LocalOk(k, s.passes, s.world, l) && Unwritten(l.pass) && l.pass.cached.None? && Configured(k, l, e)
    case WantCached(l, m) => LocalOk(k, s.passes, s.world, l) && Unsafe'(k, l) && l.pass.cached.None? && m.Refusal?
    case WantAuthoritative(l, m, d) =>
      LocalOk(k, s.passes, s.world, l) && Unsafe'(k, l) && Chosen(l, d) && Some(d) in s.world.deployments && m.Refusal?
    case WantRewrite(l, m, c, d) =>
      && m.Refusal? && LocalOk(k, s.passes, s.world, l) && Unsafe'(k, l) && Chosen(l, c) && Some(c) in s.world.deployments
      && Some(d) in s.world.deployments && Multiple(d) && Owns(l.orig, d) && d.uid == c.uid
    case WantReadBack(l, m, c) =>
      LocalOk(k, s.passes, s.world, l) && Unsafe'(k, l) && Chosen(l, c) && Some(c) in s.world.deployments && m.Refusal?
    case WantApplyDeployment(l, e) => LocalOk(k, s.passes, s.world, l) && Configured(k, l, e) && Cleared(l, e) && Unwritten(l.pass)
    case WantApplyService(l, e) =>
      LocalOk(k, s.passes, s.world, l) && Configured(k, l, e) && Cleared(l, e) && l.pass.seen.None?
      && l.pass.deploymentApplied && l.pass.sent == Some(Render(l.orig, e))
    case WantService(l, e) => LocalOk(k, s.passes, s.world, l) && Configured(k, l, e) && Realized(k, l.pass) && l.pass.seen.None?
    case WantDeployment(l, e, _) => LocalOk(k, s.passes, s.world, l) && Configured(k, l, e) && Realized(k, l.pass) && l.pass.seen.None?
    case WantEndpoint(l, e, d) =>
      && LocalOk(k, s.passes, s.world, l) && Configured(k, l, e) && Realized(k, l.pass) && Replicas(l.orig.spec) > 0
      && l.pass.seen == Some(d) && l.pass.seen in s.world.deployments && l.pass.counted == l.status.readyReplicas
    case WantPatch(l, _) => LocalOk(k, s.passes, s.world, l)
  }

  ghost predicate BaseOk(k: Controller, passes: seq<Pass>, w: World)
  {
    && (forall i :: 0 <= i < |w.resources| && w.resources[i].Some? ==>
          StoredOk(k, passes, w.deployments, w.resources[i].value.status))
    && (forall i :: 0 <= i < |passes| ==> PassOk(k, passes[i], w))
    && Stamped(w)
  }

  // A stored Deployment's resource version is its place in the log.
  ghost predicate Stamped(w: World)
  {
    forall i :: 0 <= i < |w.deployments| && w.deployments[i].Some? ==> w.deployments[i].value.resourceVersion == i
  }

  ghost predicate Inv(k: Controller, s: State)
  {
    BaseOk(k, s.passes, s.world) && ControlOk(k, s)
  }

  // ---------------------------------------------------------------------------------------
  // History only grows
  // ---------------------------------------------------------------------------------------

  ghost predicate Grows(w: World, w': World)
  {
    && w.resources <= w'.resources && w.deployments <= w'.deployments
  }

  lemma ReportedGrows(d: seq<Option<Deployment>>, d': seq<Option<Deployment>>, n: nat)
    requires d <= d' && Reported(d, n)
    ensures Reported(d', n)
  {
    var i :| 0 <= i < |d| && d[i].Some?
      && d[i].value.status.observedGeneration >= d[i].value.generation
      && d[i].value.status.readyReplicas == n;
    assert d'[i] == d[i];
  }

  lemma SawReadyGrows(k: Controller, p: Pass, d: seq<Option<Deployment>>, d': seq<Option<Deployment>>)
    requires d <= d' && SawReady(k, p, d)
    ensures SawReady(k, p, d')
  {
    ReportedGrows(d, d', p.counted);
  }

  lemma CarriedGrows(d: seq<Option<Deployment>>, d': seq<Option<Deployment>>, p: Payload)
    requires d <= d' && Carried(d, p)
    ensures Carried(d', p)
  {
    var i :| 0 <= i < |d| && Carries(d[i], p);
    assert d'[i] == d[i];
  }

  lemma HistoryGrows(k: Controller, s: State, s': State, st: Status)
    requires s.passes <= s'.passes && Grows(s.world, s'.world) && StoredOk(k, s.passes, s.world.deployments, st)
    ensures StoredOk(k, s'.passes, s'.world.deployments, st)
  {
    if st.observedGeneration > 0 {
      var i :| 0 <= i < |s.passes| && s.passes[i].resource.generation == st.observedGeneration && Realized(k, s.passes[i]);
      assert s'.passes[i] == s.passes[i];
    }
    if st.readyReplicas > 0 {
      ReportedGrows(s.world.deployments, s'.world.deployments, st.readyReplicas);
    }
    if ReadyStamp(st).Some? {
      var g := ReadyStamp(st).value;
      var i :| 0 <= i < |s.passes| && s.passes[i].resource.generation == g && SawReady(k, s.passes[i], s.world.deployments);
      SawReadyGrows(k, s.passes[i], s.world.deployments, s'.world.deployments);
      assert s'.passes[i] == s.passes[i];
    }
    if RemediationStamp(st).Some? {
      var i :| 0 <= i < |s.passes| && s.passes[i].resource.generation == RemediationStamp(st).value && s.passes[i].readBack.Some?;
      assert s'.passes[i] == s.passes[i];
    }
  }

  lemma PassGrows(k: Controller, p: Pass, w: World, w': World)
    requires Grows(w, w') && PassOk(k, p, w)
    ensures PassOk(k, p, w')
  {
    Inherits(w.resources, w'.resources, Some(p.resource));
    if p.deploymentApplied { CarriedGrows(w.deployments, w'.deployments, p.sent.value); }
    Inherits(w.deployments, w'.deployments, p.cached);
    Inherits(w.deployments, w'.deployments, p.readBack);
  }

  lemma Inherits<T>(a: seq<T>, b: seq<T>, x: T)
    requires a <= b
    ensures x in a ==> x in b
  {
    if x in a {
      var i :| 0 <= i < |a| && a[i] == x;
      assert b[i] == x;
    }
  }

  lemma LocalGrows(k: Controller, s: State, s': State, l: Local)
    requires s.passes == s'.passes && Grows(s.world, s'.world) && LocalOk(k, s.passes, s.world, l)
    ensures LocalOk(k, s'.passes, s'.world, l)
  {
    Inherits(s.world.resources, s'.world.resources, Some(l.orig));
    PassGrows(k, l.pass, s.world, s'.world);
    if l.status.readyReplicas > 0 {
      ReportedGrows(s.world.deployments, s'.world.deployments, l.status.readyReplicas);
    }
    if ReadyStamp(l.status).Some? {
      var g := ReadyStamp(l.status).value;
      if SawReadyAt(k, s.passes, s.world.deployments, g) {
        var i :| 0 <= i < |s.passes| && s.passes[i].resource.generation == g && SawReady(k, s.passes[i], s.world.deployments);
        SawReadyGrows(k, s.passes[i], s.world.deployments, s'.world.deployments);
      } else {
        SawReadyGrows(k, l.pass, s.world.deployments, s'.world.deployments);
      }
    }
  }

  // The world grew under a pending call that stays where it is.
  lemma ControlGrows(k: Controller, s: State, w': World)
    requires ControlOk(k, s) && Grows(s.world, w')
    ensures ControlOk(k, s.(world := w'))
  {
    if !s.control.Idle? {
      LocalGrows(k, s, s.(world := w'), s.control.l);
      forall d: Option<Deployment> ensures d in s.world.deployments ==> d in w'.deployments {
        Inherits(s.world.deployments, w'.deployments, d);
      }
    }
  }

  // The parts of Inv that do not look at the pending call, when the world grows by versions
  // whose status is already accounted for.
  ghost predicate StatusesInherited(s: State, w': World)
  {
    forall i :: |s.world.resources| <= i < |w'.resources| && w'.resources[i].Some? ==>
      w'.resources[i].value.status == EMPTY_STATUS
      || exists j :: 0 <= j < |s.world.resources| && s.world.resources[j].Some?
           && s.world.resources[j].value.status == w'.resources[i].value.status
  }

  lemma BaseGrows(k: Controller, s: State, w': World)
    requires BaseOk(k, s.passes, s.world) && Grows(s.world, w') && StatusesInherited(s, w')
    requires Stamped(w')
    ensures BaseOk(k, s.passes, w')
  {
    var s' := s.(world := w');
    forall i | 0 <= i < |w'.resources| && w'.resources[i].Some?
      ensures StoredOk(k, s'.passes, s'.world.deployments, w'.resources[i].value.status)
    {
      var st := w'.resources[i].value.status;
      if i < |s.world.resources| {
        assert w'.resources[i] == s.world.resources[i];
        HistoryGrows(k, s, s', st);
      } else if st == EMPTY_STATUS {
      } else {
        var j :| 0 <= j < |s.world.resources| && s.world.resources[j].Some? && s.world.resources[j].value.status == st;
        HistoryGrows(k, s, s', st);
      }
    }
    forall i | 0 <= i < |s.passes| ensures PassOk(k, s.passes[i], w') {
      PassGrows(k, s.passes[i], s.world, w');
    }
  }

  // ---------------------------------------------------------------------------------------
  // Environment actions
  // ---------------------------------------------------------------------------------------

  lemma InterfereKeeps(k: Controller, s: State, e: Environment)
    requires Inv(k, s)
    ensures Inv(k, s.(world := Interfere(s.world, e)))
  {
    var w' := Interfere(s.world, e);
    assert Grows(s.world, w');
    BaseGrows(k, s, w');
    ControlGrows(k, s, w');
  }

  // ---------------------------------------------------------------------------------------
  // Staging
  // ---------------------------------------------------------------------------------------

  // Any condition write except Ready=Yes and an unearned claim of remediation keeps the staged status accounted for.
  lemma SetKeeps(k: Controller, s: State, l: Local, kind: Kind, truth: Truth, reason: Reason, message: Message, now: int)
    requires LocalOk(k, s.passes, s.world, l) && (kind == Ready ==> truth != Yes)
    requires kind == StorageReady && message.RefusalRemediated? ==> l.pass.readBack.Some?
    ensures LocalOk(k, s.passes, s.world, Set(l, kind, truth, reason, message, now))
    ensures forall e :: Configured(k, l, e) ==> Configured(k, Set(l, kind, truth, reason, message, now), e)
  {
    var c := Condition(kind, truth, reason, message, l.orig.generation, now);
    SetConditionFinds(l.status.conditions, c, Ready);
    SetConditionFinds(l.status.conditions, c, StorageReady);
  }

  lemma WarnKeeps(k: Controller, s: State, l: Local, kind: Kind, truth: Truth, reason: Reason, message: Message, now: int)
    requires LocalOk(k, s.passes, s.world, l) && (kind == Ready ==> truth != Yes)
    requires kind == StorageReady && message.RefusalRemediated? ==> l.pass.readBack.Some?
    ensures LocalOk(k, s.passes, s.world, Warn(l, kind, truth, reason, message, now))
  {
    SetKeeps(k, s, l, kind, truth, reason, message, now);
  }

  lemma UnsafeKeeps(k: Controller, s: State, l: Local, message: Message, exit: Exit, now: int)
    requires LocalOk(k, s.passes, s.world, l) && (message.RefusalRemediated? ==> l.pass.readBack.Some?)
    ensures ControlOk(k, Go(s, Unsafe(l, message, exit, now)))
  {
    SetKeeps(k, s, l, StorageReady, No, ReplicaStorageUnsafe, message, now);
    var l' := Set(l, StorageReady, No, ReplicaStorageUnsafe, message, now);
    SetKeeps(k, s, l', Ready, No, ReplicaStorageUnsafe, message, now);
  }

  lemma ResolvedKeeps(k: Controller, s: State, l: Local, preset: Option<string>, now: int)
    requires LocalOk(k, s.passes, s.world, l) && Unwritten(l.pass) && l.pass.cached.None?
    ensures ControlOk(k, Go(s, Resolved(k, l, preset, now)))
  {
    hide SetCondition, Find, Flips;
    match k.resolve(preset, l.orig.spec)
    case Failure(_) =>
    case Success(e0) =>
      var e := EffectiveOf(k, preset, l.orig.spec).value;
      var l' := l.(status := l.status.(hash := k.hash(e)), pass := l.pass.(preset := preset));
      assert LocalOk(k, s.passes, s.world, l');
      if k.validate(e).Some? {
        WarnKeeps(k, s, l', Ready, No, InvalidConfiguration, Invalid(k.validate(e).value), now);
      }
  }

  // The ready count of a Deployment, if it is current, and what the pass notes of it.
  function Counted(l: Local, d: Deployment): Local
  {
    var l := if d.status.observedGeneration >= d.generation
             then l.(status := l.status.(readyReplicas := d.status.readyReplicas)) else l;
    l.(pass := l.pass.(seen := Some(d), counted := l.status.readyReplicas))
  }

  lemma CountKeeps(k: Controller, s: State, l: Local, d: Deployment)
    requires LocalOk(k, s.passes, s.world, l) && Realized(k, l.pass) && l.pass.seen.None? && Some(d) in s.world.deployments
    ensures var c := Counted(l, d); LocalOk(k, s.passes, s.world, c) && Realized(k, c.pass)
  {
    if d.status.observedGeneration >= d.generation {
      var i :| 0 <= i < |s.world.deployments| && s.world.deployments[i] == Some(d);
      assert s.world.deployments[i].value == d;
      assert Reported(s.world.deployments, d.status.readyReplicas);
    }
  }

  lemma MirrorKeeps(k: Controller, s: State, l: Local, d: Deployment, now: int)
    requires LocalOk(k, s.passes, s.world, l) && Realized(k, l.pass) && l.pass.seen.None? && Some(d) in s.world.deployments
    ensures var m := Mirror(l, d, now);
      LocalOk(k, s.passes, s.world, m) && Realized(k, m.pass) && m.orig == l.orig && m.status.hash == l.status.hash
      && m.pass == l.pass.(seen := Some(d), counted := m.status.readyReplicas)
  {
    hide LocalOk, Realized;
    CountKeeps(k, s, l, d);
    var l1 := Counted(l, d);
    if d.status.available.Some? {
      var m := d.status.available.value;
      SetKeeps(k, s, l1, DeploymentAvailable, m.truth, MirroredReason(m.reason), MirroredMessage(m.message), now);
    }
    var l2 := SetMirrored(l1, DeploymentAvailable, d.status.available, now);
    if d.status.progressing.Some? {
      var m := d.status.progressing.value;
      SetKeeps(k, s, l2, Progressing, m.truth, MirroredReason(m.reason), MirroredMessage(m.message), now);
    }
  }

  lemma FinishKeeps(k: Controller, s: State, l: Local, d: Deployment, url: string, now: int)
    requires LocalOk(k, s.passes, s.world, l) && Realized(k, l.pass) && Replicas(l.orig.spec) > 0
    requires l.pass.seen == Some(d) && l.pass.seen in s.world.deployments && l.pass.counted == l.status.readyReplicas
    ensures ControlOk(k, Go(s, Finish(l, d, url, now)))
  {
    var l := l.(status := l.status.(endpoint := url));
    if Serving(l, d) {
      var c := Condition(Ready, Yes, AllReady, PodsReady, l.orig.generation, now);
      SetConditionFinds(l.status.conditions, c, Ready);
      SetConditionFinds(l.status.conditions, c, StorageReady);
      assert SawReady(k, l.pass, s.world.deployments);
    } else {
      SetKeeps(k, s, l, Ready, No, DeploymentUnavailable, Waiting, now);
      if d.status.progressing.Some? {
        var m := d.status.progressing.value;
        SetKeeps(k, s, l, Ready, No, MirroredReason(m.reason), MirroredMessage(m.message), now);
      }
    }
  }

  lemma AfterDeploymentKeeps(k: Controller, s: State, l: Local, e: Effective, service: Service, d: Deployment, now: int)
    requires ControlOk(k, Go(s, WantDeployment(l, e, service))) && Some(d) in s.world.deployments
    ensures ControlOk(k, Go(s, AfterDeployment(l, e, service, d, now)))
  {
    assert LocalOk(k, s.passes, s.world, l);
    MirrorKeeps(k, s, l, d, now);
    var l := Mirror(l, d, now);
    if Replicas(l.orig.spec) == 0 {
      SetKeeps(k, s, l, Ready, No, ScaledToZero, NoPods, now);
    } else if service.Addressed? {
      FinishKeeps(k, s, l, d, service.url, now);
    }
  }

  // ---------------------------------------------------------------------------------------
  // Steps
  // ---------------------------------------------------------------------------------------

  // A step that only moves the pending call.
  ghost predicate Moves(s: State, s': State)
  {
    s'.world == s.world && s'.passes == s.passes
  }

  lemma MoveKeeps(k: Controller, s: State, s': State)
    requires BaseOk(k, s.passes, s.world) && ControlOk(k, s') && Moves(s, s')
    ensures Inv(k, s')
  {
  }

  lemma StartKeeps(k: Controller, s: State, r: Resource, now: int)
    requires Inv(k, s) && Some(r) in s.world.resources
    ensures ControlOk(k, Go(s, Start(k, r, now)))
  {
    var i :| 0 <= i < |s.world.resources| && s.world.resources[i] == Some(r);
    assert s.world.resources[i].value.status == r.status;
    assert StoredOk(k, s.passes, s.world.deployments, r.status);
    var l := Local(r, r.status, Pass(r, None, None, None, None, None, false, false, None, 0), []);
    assert LocalOk(k, s.passes, s.world, l);
    SetKeeps(k, s, l, PresetResolved, Yes, OverridesUsed, NoPresetRef, now);
    if r.spec.presetRef.None? {
      ResolvedKeeps(k, s, Set(l, PresetResolved, Yes, OverridesUsed, NoPresetRef, now), None, now);
    }
  }

  lemma StepReadKeeps(k: Controller, s: State, now: int, a: Answer)
    requires Inv(k, s) && s.control.Idle?
    ensures Inv(k, StepRead(k, s, now, a))
  {
    if a.Cached? && a.version < |s.world.resources| && s.world.resources[a.version].Some? {
      StartKeeps(k, s, s.world.resources[a.version].value, now);
      var s0 := Go(s, Start(k, s.world.resources[a.version].value, now));
      MoveKeeps(k, s, s0);
      var s' := StepRead(k, s, now, a);
      assert s'.control == s0.control && s'.world == s0.world && s'.passes == s0.passes;
    }
  }

  lemma StepPresetKeeps(k: Controller, s: State, l: Local, now: int, a: Answer)
    requires ControlOk(k, s) && s.control == WantPreset(l)
    ensures ControlOk(k, StepPreset(k, s, l, now, a)) && Moves(s, StepPreset(k, s, l, now, a))
  {
    if l.orig.spec.presetRef.Some? {
      var name := l.orig.spec.presetRef.value;
      match a
      case Missing =>
        WarnKeeps(k, s, l, PresetResolved, No, PresetNotFound, NoSuchPreset(name), now);
        var l := Warn(l, PresetResolved, No, PresetNotFound, NoSuchPreset(name), now);
        SetKeeps(k, s, l, Ready, No, PresetNotFound, PresetAbsent, now);
      case PresetIs(preset) =>
        var message := UsingPreset(name);
        SetKeeps(k, s, l, PresetResolved, Yes, PresetFound, message, now);
        ResolvedKeeps(k, s, Set(l, PresetResolved, Yes, PresetFound, message, now), Some(preset), now);
      case _ =>
    }
  }

  lemma ClaimMissingKeeps(k: Controller, s: State, l: Local, now: int)
    requires LocalOk(k, s.passes, s.world, l)
    ensures ControlOk(k, StepClaim(k, s, l, Effective("", false), now, Missing))
  {
    var message := NoSuchClaim(l.orig.spec.pvcName);
    WarnKeeps(k, s, l, StorageReady, No, PVCNotFound, message, now);
    SetKeeps(k, s, Warn(l, StorageReady, No, PVCNotFound, message, now), Ready, No, PVCNotFound, StorageNotReady, now);
  }

  lemma ClaimReadKeeps(k: Controller, s: State, l: Local, e: Effective, claim: Claim, now: int)
    requires LocalOk(k, s.passes, s.world, l) && Unwritten(l.pass) && l.pass.cached.None? && Configured(k, l, e)
    ensures var l' := Set(l, StorageReady, Yes, PVCFound, ClaimExists, now);
      var l'' := l'.(pass := l'.pass.(claim := Some(claim)));
      LocalOk(k, s.passes, s.world, l'') && Unwritten(l''.pass) && l''.pass.cached.None? && Configured(k, l'', e)
  {
    SetKeeps(k, s, l, StorageReady, Yes, PVCFound, ClaimExists, now);
  }

  lemma StepClaimKeeps(k: Controller, s: State, l: Local, e: Effective, now: int, a: Answer)
    requires ControlOk(k, s) && s.control == WantClaim(l, e)
    ensures ControlOk(k, StepClaim(k, s, l, e, now, a)) && Moves(s, StepClaim(k, s, l, e, now, a))
  {
    match a
    case Missing =>
      ClaimMissingKeeps(k, s, l, now);
      assert StepClaim(k, s, l, e, now, a) == StepClaim(k, s, l, Effective("", false), now, a);
    case ClaimIs(claim) =>
      ClaimReadKeeps(k, s, l, e, claim, now);
      var l' := Set(l, StorageReady, Yes, PVCFound, ClaimExists, now);
      var l'' := l'.(pass := l'.pass.(claim := Some(claim)));
      var refusal := Refusal(Replicas(l.orig.spec), claim.modes);
      RemediationFailedKeeps(k, s, l'', refusal, NoReader, now);
    case _ =>
  }

  lemma RemediationFailedKeeps(k: Controller, s: State, l: Local, refusal: Message, why: Fault, now: int)
    requires LocalOk(k, s.passes, s.world, l)
    ensures ControlOk(k, Go(s, RemediationFailed(l, refusal, why, now)))
  {
    UnsafeKeeps(k, s, l, RefusalUnremediated(refusal, why), Failed, now);
  }

  lemma StepCachedKeeps(k: Controller, s: State, l: Local, refusal: Message, now: int, a: Answer)
    requires ControlOk(k, s) && s.control == WantCached(l, refusal)
    ensures ControlOk(k, StepCached(s, l, refusal, now, a)) && Moves(s, StepCached(s, l, refusal, now, a))
  {
    UnsafeKeeps(k, s, l, refusal, Done, now);
    if a.Broken? {
      RemediationFailedKeeps(k, s, l, refusal, CachedRead(a.error), now);
    }
  }

  lemma StepAuthoritativeKeeps(k: Controller, s: State, l: Local, refusal: Message, cached: Deployment, now: int, a: Answer)
    requires ControlOk(k, s) && s.control == WantAuthoritative(l, refusal, cached)
    ensures ControlOk(k, StepAuthoritative(s, l, refusal, cached, now, a)) && Moves(s, StepAuthoritative(s, l, refusal, cached, now, a))
  {
    hide LocalOk, Unsafe, SetCondition;
    UnsafeKeeps(k, s, l, refusal, Done, now);
    match a
    case Broken(error) =>
      RemediationFailedKeeps(k, s, l, refusal, PreRead(error), now);
    case Current =>
      RemediationFailedKeeps(k, s, l, refusal, PreRead("not found"), now);
      RemediationFailedKeeps(k, s, l, refusal, PreReadChanged, now);
    case _ =>
  }

  lemma StepRewriteKeeps(k: Controller, s: State, l: Local, refusal: Message, cached: Deployment, d: Deployment, now: int, a: Answer)
    requires Inv(k, s) && s.control == WantRewrite(l, refusal, cached, d)
    ensures Inv(k, StepRewrite(s, l, refusal, cached, d, now, a))
  {
    hide RemediationFailed, LocalOk, StoredOk, PassOk;
    var done := ApplyOneReplica(s.world, d.resourceVersion);
    var refused := Rewriting("refused");
    RemediationFailedKeeps(k, s, l, refusal, refused, now);
    if a.Refused? {
      RemediationFailedKeeps(k, s, l, refusal, Rewriting(a.error), now);
    }
    if done.Some? {
      RewriteHitsCheckedVersion(s.world, d);
      BaseGrows(k, s, done.value);
      ControlGrows(k, s, done.value);
      var s' := s.(world := done.value);
      if a.Lost? {
        RemediationFailedKeeps(k, s', l, refusal, Rewriting(a.error), now);
      }
    }
  }

  // The precondition on the resource version makes the written object the one that was checked.
  lemma RewriteHitsCheckedVersion(w: World, d: Deployment)
    requires Stamped(w) && Some(d) in w.deployments
    requires ApplyOneReplica(w, d.resourceVersion).Some?
    ensures Last(w.deployments) == Some(d)
    ensures var w' := ApplyOneReplica(w, d.resourceVersion).value;
      Grows(w, w') && w'.resources == w.resources && Stamped(w')
  {
    var i :| 0 <= i < |w.deployments| && w.deployments[i] == Some(d);
    assert w.deployments[i].value.resourceVersion == i;
    assert Last(w.deployments).value.resourceVersion == |w.deployments| - 1;
  }

  lemma StepReadBackKeeps(k: Controller, s: State, l: Local, refusal: Message, cached: Deployment, now: int, a: Answer)
    requires ControlOk(k, s) && s.control == WantReadBack(l, refusal, cached)
    ensures ControlOk(k, StepReadBack(s, l, refusal, cached, now, a)) && Moves(s, StepReadBack(s, l, refusal, cached, now, a))
  {
    hide LocalOk, Unsafe;
    match a
    case Broken(error) => RemediationFailedKeeps(k, s, l, refusal, ReadBack(error), now);
    case Current =>
      RemediationFailedKeeps(k, s, l, refusal, ReadBack("not found"), now);
      RemediationFailedKeeps(k, s, l, refusal, ReadBackChanged, now);
      var current := Last(s.world.deployments);
      if current.Some? {
        RemediationFailedKeeps(k, s, l, refusal, ReadBackReplicas(current.value.replicas), now);
      }
      if current.Some? && current.value.uid == cached.uid && Owns(l.orig, current.value) && current.value.replicas == Some(1) {
        ReadBackKeeps(k, s, l, cached, current.value);
        UnsafeKeeps(k, s, l.(pass := l.pass.(readBack := current)), RefusalRemediated(refusal), Done, now);
      }
    case _ =>
  }

  lemma ReadBackKeeps(k: Controller, s: State, l: Local, cached: Deployment, current: Deployment)
    requires LocalOk(k, s.passes, s.world, l) && Unwritten(l.pass) && Chosen(l, cached) && Some(cached) in s.world.deployments
    requires Last(s.world.deployments) == Some(current) && current.uid == cached.uid && Owns(l.orig, current)
    requires current.replicas == Some(1)
    ensures LocalOk(k, s.passes, s.world, l.(pass := l.pass.(readBack := Some(current))))
  {
  }

  lemma ApplyFailedKeeps(k: Controller, s: State, l: Local, message: Message, now: int)
    requires LocalOk(k, s.passes, s.world, l)
    ensures ControlOk(k, Go(s, FailApply(l, message, now)))
  {
    WarnKeeps(k, s, l, Ready, No, ApplyFailed, message, now);
  }

  lemma ApplyFullGrows(w: World, p: Payload)
    requires Stamped(w) && ApplyFull(w, p).Some?
    ensures var w' := ApplyFull(w, p).value;
      Grows(w, w') && w'.resources == w.resources && Stamped(w') && Carried(w'.deployments, p)
  {
    var w' := ApplyFull(w, p).value;
    assert Carries(w'.deployments[|w'.deployments| - 1], p);
  }

  lemma SentKeeps(k: Controller, s: State, l: Local, e: Effective)
    requires LocalOk(k, s.passes, s.world, l) && Configured(k, l, e) && Cleared(l, e) && Unwritten(l.pass)
    ensures var sent := l.(pass := l.pass.(sent := Some(Render(l.orig, e))));
      LocalOk(k, s.passes, s.world, sent) && Licensed(k, sent.pass, Render(l.orig, e))
      && (Carried(s.world.deployments, Render(l.orig, e)) ==>
            LocalOk(k, s.passes, s.world, sent.(status := l.status.(deploymentName := k.name), pass := sent.pass.(deploymentApplied := true))))
  {
  }

  // The apply went through: the world grew, and the pass may say so.
  lemma AppliedKeeps(k: Controller, s: State, l: Local, e: Effective, w': World)
    requires Inv(k, s) && s.control == WantApplyDeployment(l, e)
    requires ApplyFull(s.world, Render(l.orig, e)) == Some(w')
    ensures var s' := s.(world := w'); var sent := l.(pass := l.pass.(sent := Some(Render(l.orig, e))));
      BaseOk(k, s'.passes, s'.world) && LocalOk(k, s'.passes, s'.world, sent)
      && LocalOk(k, s'.passes, s'.world, sent.(status := l.status.(deploymentName := k.name), pass := sent.pass.(deploymentApplied := true)))
  {
    ApplyFullGrows(s.world, Render(l.orig, e));
    BaseGrows(k, s, w');
    LocalGrows(k, s, s.(world := w'), l);
    SentKeeps(k, s.(world := w'), l, e);
  }

  lemma StepApplyDeploymentKeeps(k: Controller, s: State, l: Local, e: Effective, now: int, a: Answer)
    requires Inv(k, s) && s.control == WantApplyDeployment(l, e)
    ensures Inv(k, StepApplyDeployment(k, s, l, e, now, a))
  {
    hide BaseOk, ApplyFull, Render, FailApply, LocalOk, Licensed;
    var sent := l.(pass := l.pass.(sent := Some(Render(l.orig, e))));
    var done := ApplyFull(s.world, Render(l.orig, e));
    match a
    case Accepted =>
      if done.Some? {
        AppliedKeeps(k, s, l, e, done.value);
      } else {
        SentKeeps(k, s, l, e);
        ApplyFailedKeeps(k, s, sent, ApplyDeployment("second controller"), now);
      }
    case Lost(error) =>
      if done.Some? {
        AppliedKeeps(k, s, l, e, done.value);
        ApplyFailedKeeps(k, s.(world := done.value), sent, ApplyDeployment(error), now);
      }
    case Refused(error) =>
      SentKeeps(k, s, l, e);
      ApplyFailedKeeps(k, s, sent, ApplyDeployment(error), now);
    case _ =>
  }

  lemma StepApplyServiceKeeps(k: Controller, s: State, l: Local, e: Effective, now: int, a: Answer)
    requires ControlOk(k, s) && s.control == WantApplyService(l, e)
    ensures ControlOk(k, StepApplyService(k, s, l, e, now, a)) && Moves(s, StepApplyService(k, s, l, e, now, a))
  {
    match a
    case Accepted =>
      var l' := l.(status := l.status.(serviceName := "svc-" + k.name, observedGeneration := l.orig.generation),
                   pass := l.pass.(serviceApplied := true));
      assert Realized(k, l'.pass);
      assert LocalOk(k, s.passes, s.world, l');
    case Lost(error) => ApplyFailedKeeps(k, s, l, ApplyService(error), now);
    case Refused(error) => ApplyFailedKeeps(k, s, l, ApplyService(error), now);
    case _ =>
  }

  lemma StepDeploymentKeeps(k: Controller, s: State, l: Local, e: Effective, service: Service, now: int, a: Answer)
    requires ControlOk(k, s) && s.control == WantDeployment(l, e, service)
    ensures ControlOk(k, StepDeployment(s, l, e, service, now, a)) && Moves(s, StepDeployment(s, l, e, service, now, a))
  {
    hide LocalOk, AfterDeployment, Mirror, Finish;
    if a.Cached? && a.version < |s.world.deployments| && s.world.deployments[a.version].Some? {
      AfterDeploymentKeeps(k, s, l, e, service, s.world.deployments[a.version].value, now);
    }
  }

  lemma StepServiceKeeps(k: Controller, s: State, l: Local, e: Effective, a: Answer)
    requires ControlOk(k, s) && s.control == WantService(l, e)
    ensures ControlOk(k, StepService(s, l, e, a)) && Moves(s, StepService(s, l, e, a))
  {
  }

  lemma StepEndpointKeeps(k: Controller, s: State, l: Local, e: Effective, d: Deployment, now: int, a: Answer)
    requires ControlOk(k, s) && s.control == WantEndpoint(l, e, d)
    ensures ControlOk(k, StepEndpoint(s, l, d, now, a)) && Moves(s, StepEndpoint(s, l, d, now, a))
  {
    if a.EndpointIs? {
      FinishKeeps(k, s, l, d, a.url, now);
    }
  }

  // What the staged status of a pass claims is accounted for once the pass has joined the history.
  lemma StagedJoins(k: Controller, s: State, l: Local)
    requires LocalOk(k, s.passes, s.world, l)
    ensures StoredOk(k, s.passes + [l.pass], s.world.deployments, l.status)
  {
    var passes := s.passes + [l.pass];
    assert passes[|s.passes|] == l.pass;
    if l.status.observedGeneration > 0 && RealizedAt(k, s.passes, l.status.observedGeneration) {
      var i :| 0 <= i < |s.passes| && s.passes[i].resource.generation == l.status.observedGeneration && Realized(k, s.passes[i]);
      assert passes[i] == s.passes[i];
    }
    if ReadyStamp(l.status).Some? {
      var g := ReadyStamp(l.status).value;
      if SawReadyAt(k, s.passes, s.world.deployments, g) {
        var i :| 0 <= i < |s.passes| && s.passes[i].resource.generation == g && SawReady(k, s.passes[i], s.world.deployments);
        assert passes[i] == s.passes[i];
      }
    }
    if RemediationStamp(l.status).Some? && ReadBackAt(s.passes, RemediationStamp(l.status).value) {
      var i :| 0 <= i < |s.passes| && s.passes[i].resource.generation == RemediationStamp(l.status).value
        && s.passes[i].readBack.Some?;
      assert passes[i] == s.passes[i];
    }
  }

  lemma EndKeeps(k: Controller, s: State, l: Local)
    requires Inv(k, s) && LocalOk(k, s.passes, s.world, l)
    ensures Inv(k, End(s, s.world, l))
    ensures StoredOk(k, End(s, s.world, l).passes, End(s, s.world, l).world.deployments, l.status)
  {
    hide StoredOk, PassOk;
    var s' := End(s, s.world, l);
    StagedJoins(k, s, l);
    forall i | 0 <= i < |s.world.resources| && s.world.resources[i].Some?
      ensures StoredOk(k, s'.passes, s'.world.deployments, s.world.resources[i].value.status)
    {
      HistoryGrows(k, s, s', s.world.resources[i].value.status);
    }
  }

  // A merge patch takes each field from one of two accounted-for statuses.
  lemma MergeKeeps(k: Controller, s: State, server: Status, orig: Status, staged: Status)
    requires StoredOk(k, s.passes, s.world.deployments, server) && StoredOk(k, s.passes, s.world.deployments, staged)
    ensures StoredOk(k, s.passes, s.world.deployments, Merge(server, MergeFrom(orig, staged)))
  {
  }

  lemma StepPatchKeeps(k: Controller, s: State, l: Local, exit: Exit, a: Answer)
    requires Inv(k, s) && s.control == WantPatch(l, exit)
    ensures Inv(k, StepPatch(s, l, a))
  {
    hide StoredOk, PassOk, LocalOk, Merge, MergeFrom;
    EndKeeps(k, s, l);
    var done := PatchStatus(s.world, l.orig.status, l.status);
    if done.Some? && done.value != s.world {
      var s0, s1 := End(s, s.world, l), End(s, done.value, l);
      MergeKeeps(k, s0, Last(s.world.resources).value.status, l.orig.status, l.status);
      assert s1.world.deployments == s0.world.deployments;
      forall i | 0 <= i < |s1.world.resources| && s1.world.resources[i].Some?
        ensures StoredOk(k, s1.passes, s1.world.deployments, s1.world.resources[i].value.status)
      {
        assert StoredOk(k, s0.passes, s0.world.deployments, s1.world.resources[i].value.status);
      }
      forall i | 0 <= i < |s1.passes| ensures PassOk(k, s1.passes[i], s1.world) {
        PassGrows(k, s1.passes[i], s0.world, s1.world);
      }
    }
  }

  lemma EarlyStepKeeps(k: Controller, s: State, now: int, a: Answer)
    requires Inv(k, s) && (s.control.Idle? || s.control.WantPreset? || s.control.WantClaim?)
    ensures Inv(k, Step(k, s, now, a))
  {
    hide BaseOk, ControlOk, Moves, StepRead, StepPreset, StepClaim, StepCached, StepAuthoritative, StepRewrite,
         StepReadBack, StepApplyDeployment, StepApplyService, StepService, StepDeployment, StepEndpoint, StepPatch;
    var s' := Step(k, s, now, a);
    match s.control
    case Idle => StepReadKeeps(k, s, now, a);
    case WantPreset(l) => StepPresetKeeps(k, s, l, now, a); MoveKeeps(k, s, s');
    case WantClaim(l, e) => StepClaimKeeps(k, s, l, e, now, a); MoveKeeps(k, s, s');
  }

  lemma RemediationStepKeeps(k: Controller, s: State, now: int, a: Answer)
    requires Inv(k, s) && (s.control.WantCached? || s.control.WantAuthoritative? || s.control.WantRewrite? || s.control.WantReadBack?)
    ensures Inv(k, Step(k, s, now, a))
  {
    hide BaseOk, ControlOk, Moves, StepRead, StepPreset, StepClaim, StepCached, StepAuthoritative, StepRewrite,
         StepReadBack, StepApplyDeployment, StepApplyService, StepService, StepDeployment, StepEndpoint, StepPatch;
    var s' := Step(k, s, now, a);
    match s.control
    case WantCached(l, refusal) => StepCachedKeeps(k, s, l, refusal, now, a); MoveKeeps(k, s, s');
    case WantAuthoritative(l, refusal, cached) =>
      StepAuthoritativeKeeps(k, s, l, refusal, cached, now, a); MoveKeeps(k, s, s');
    case WantRewrite(l, refusal, cached, d) => StepRewriteKeeps(k, s, l, refusal, cached, d, now, a);
    case WantReadBack(l, refusal, cached) => StepReadBackKeeps(k, s, l, refusal, cached, now, a); MoveKeeps(k, s, s');
  }

  lemma ApplyStepKeeps(k: Controller, s: State, now: int, a: Answer)
    requires Inv(k, s) && (s.control.WantApplyDeployment? || s.control.WantApplyService? || s.control.WantService?)
    ensures Inv(k, Step(k, s, now, a))
  {
    hide BaseOk, ControlOk, Moves, StepRead, StepPreset, StepClaim, StepCached, StepAuthoritative, StepRewrite,
         StepReadBack, StepApplyDeployment, StepApplyService, StepService, StepDeployment, StepEndpoint, StepPatch;
    var s' := Step(k, s, now, a);
    match s.control
    case WantApplyDeployment(l, e) => StepApplyDeploymentKeeps(k, s, l, e, now, a);
    case WantApplyService(l, e) => StepApplyServiceKeeps(k, s, l, e, now, a); MoveKeeps(k, s, s');
    case WantService(l, e) => StepServiceKeeps(k, s, l, e, a); MoveKeeps(k, s, s');
  }

  lemma LateStepKeeps(k: Controller, s: State, now: int, a: Answer)
    requires Inv(k, s) && (s.control.WantDeployment? || s.control.WantEndpoint? || s.control.WantPatch?)
    ensures Inv(k, Step(k, s, now, a))
  {
    hide BaseOk, ControlOk, Moves, StepRead, StepPreset, StepClaim, StepCached, StepAuthoritative, StepRewrite,
         StepReadBack, StepApplyDeployment, StepApplyService, StepService, StepDeployment, StepEndpoint, StepPatch;
    var s' := Step(k, s, now, a);
    match s.control
    case WantDeployment(l, e, service) => StepDeploymentKeeps(k, s, l, e, service, now, a); MoveKeeps(k, s, s');
    case WantEndpoint(l, e, d) => StepEndpointKeeps(k, s, l, e, d, now, a); MoveKeeps(k, s, s');
    case WantPatch(l, exit) => StepPatchKeeps(k, s, l, exit, a);
  }

  lemma StepKeeps(k: Controller, s: State, now: int, a: Answer)
    requires Inv(k, s)
    ensures Inv(k, Step(k, s, now, a))
  {
    hide Inv, Step;
    if s.control.Idle? || s.control.WantPreset? || s.control.WantClaim? {
      EarlyStepKeeps(k, s, now, a);
    } else if s.control.WantApplyDeployment? || s.control.WantApplyService? || s.control.WantService? {
      ApplyStepKeeps(k, s, now, a);
    } else if s.control.WantDeployment? || s.control.WantEndpoint? || s.control.WantPatch? {
      LateStepKeeps(k, s, now, a);
    } else {
      RemediationStepKeeps(k, s, now, a);
    }
  }

  lemma CrashKeeps(k: Controller, s: State)
    requires Inv(k, s) && !s.control.Idle?
    ensures Inv(k, End(s, s.world, s.control.l))
  {
    EndKeeps(k, s, s.control.l);
  }

  lemma ActKeeps(k: Controller, s: State, action: Action)
    requires Inv(k, s)
    ensures Inv(k, Act(k, s, action))
  {
    hide Inv, Step, Interfere;
    match action
    case Env(e) => InterfereKeeps(k, s, e);
    case Reply(now, a) => StepKeeps(k, s, now, a);
    case Crash => if !s.control.Idle? { CrashKeeps(k, s); }
  }

  lemma {:induction false} RunKeeps(k: Controller, s: State, actions: seq<Action>)
    requires Inv(k, s)
    ensures Inv(k, Run(k, s, actions))
  {
    hide Inv, Act;
    if actions != [] {
      RunKeeps(k, s, actions[..|actions| - 1]);
      ActKeeps(k, Run(k, s, actions[..|actions| - 1]), actions[|actions| - 1]);
    }
  }
}
