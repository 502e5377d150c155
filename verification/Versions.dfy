// A generation names a spec: what observedGeneration means to a user who reads it.
module Versions {
  import opened Wrappers
  import opened Cluster
  import opened Machine
  import opened Guarantees
  import Safety

  // Versions of one resource: generations never fall, and one generation has one spec. An identity is given
  // out once, by the place of the creation in the log.
  ghost predicate Versioned(log: seq<Option<Resource>>)
  {
    && (forall i :: 0 <= i < |log| && log[i].Some? ==> log[i].value.uid <= i)
    && (forall i, j :: 0 <= i <= j < |log| && log[i].Some? && log[j].Some? && log[i].value.uid == log[j].value.uid ==>
          InOrder(log[i].value, log[j].value))
  }

  predicate InOrder(a: Resource, b: Resource)
  {
    a.generation <= b.generation && (a.generation == b.generation ==> a.spec == b.spec)
  }

  // One more version: of the last resource with no new spec, or of it with the next generation, or a new one.
  lemma NextVersion(log: seq<Option<Resource>>, next: Option<Resource>)
    requires Versioned(log)
    requires next.Some? ==>
      || next.value.uid == |log|
      || (Last(log).Some? && next.value.uid == Last(log).value.uid
          && (next.value.generation == Last(log).value.generation + 1
              || (next.value.generation == Last(log).value.generation && next.value.spec == Last(log).value.spec)))
    ensures Versioned(log + [next])
  {
    var log' := log + [next];
    if next.Some? && next.value.uid != |log| {
      forall i | 0 <= i < |log| && log[i].Some? && log[i].value.uid == next.value.uid
        ensures InOrder(log[i].value, next.value)
      {
        assert InOrder(log[i].value, log[|log| - 1].value);
      }
    }
  }

  lemma InterfereIsVersioned(w: World, e: Environment)
    requires Versioned(w.resources)
    ensures Versioned(Interfere(w, e).resources)
  {
    hide Versioned;
    match e
    case EditSpec(spec) =>
      if Last(w.resources).Some? && Last(w.resources).value.spec != spec {
        var r := Last(w.resources).value;
        NextVersion(w.resources, Some(r.(spec := spec, generation := r.generation + 1)));
      }
    case DeleteResource => NextVersion(w.resources, None);
    case CreateResource(spec) =>
      if Last(w.resources).None? { NextVersion(w.resources, Some(Resource(|w.resources|, 1, spec, EMPTY_STATUS))); }
    case _ =>
  }

  lemma PatchIsVersioned(s: State, l: Local, a: Answer)
    requires Versioned(s.world.resources)
    ensures Versioned(StepPatch(s, l, a).world.resources)
  {
    hide Versioned, Cluster.PatchStatus;
    if Last(s.world.resources).Some? {
      var r := Last(s.world.resources).value;
      PatchFrame(s.world, l.orig.status, l.status, r);
      var w' := Cluster.PatchStatus(s.world, l.orig.status, l.status).value;
      if Last(w'.resources).value.status != r.status {
        NextVersion(s.world.resources, Last(w'.resources));
      } else {
        assert s.world.resources + [] == s.world.resources;
      }
    } else {
      assert Cluster.PatchStatus(s.world, l.orig.status, l.status).None? by { NothingToPatch(s.world, l.orig.status, l.status); }
    }
  }

  lemma NothingToPatch(w: World, orig: Status, staged: Status)
    requires Last(w.resources).None?
    ensures Cluster.PatchStatus(w, orig, staged).None?
  {
  }

  lemma ActIsVersioned(k: Controller, s: State, action: Action)
    requires Versioned(s.world.resources)
    ensures Versioned(Act(k, s, action).world.resources)
  {
    hide Versioned, Step, StepPatch, Interfere;
    match action
    case Env(e) => InterfereIsVersioned(s.world, e);
    case Crash =>
    case Reply(now, a) =>
      if s.control.WantPatch? {
        PatchIsVersioned(s, s.control.l, a);
        PatchSteps(k, s, now, a);
      } else {
        OnlyPatchesWriteResources(k, s, now, a);
      }
  }

  lemma {:induction false} RunIsVersioned(k: Controller, actions: seq<Action>)
    ensures Versioned(Run(k, BOOT, actions).world.resources)
  {
    hide Act;
    if actions != [] {
      hide Versioned, Act;
      RunIsVersioned(k, actions[..|actions| - 1]);
      ActIsVersioned(k, Run(k, BOOT, actions[..|actions| - 1]), actions[|actions| - 1]);
    }
  }

  // In any run, two versions of one resource with one generation have one spec.
  lemma OneSpecPerGeneration(k: Controller, actions: seq<Action>, a: Resource, b: Resource)
    requires var log := Run(k, BOOT, actions).world.resources; Some(a) in log && Some(b) in log
    requires a.uid == b.uid && a.generation == b.generation
    ensures a.spec == b.spec
  {
    hide Run;
    RunIsVersioned(k, actions);
    var log := Run(k, BOOT, actions).world.resources;
    var i :| 0 <= i < |log| && log[i] == Some(a);
    var j :| 0 <= j < |log| && log[j] == Some(b);
    assert InOrder(log[if i <= j then i else j].value, log[if i <= j then j else i].value);
  }

  // So a resource that nobody deletes and whose observedGeneration is its generation has had its own spec
  // applied: some pass sent this spec's payload, and some Deployment version carried it.
  lemma CurrentMeansApplied(k: Controller, actions: seq<Action>, r: Resource) returns (p: Pass)
    requires forall i :: 0 <= i < |actions| ==> actions[i] != Env(DeleteResource)
    requires Some(r) in Run(k, BOOT, actions).world.resources
    requires r.status.observedGeneration == r.generation > 0
    ensures p in Passes(Run(k, BOOT, actions)) && p.resource.uid == r.uid && p.resource.spec == r.spec
    ensures p.deploymentApplied && p.serviceApplied && p.sent.Some?
    ensures Safety.Carried(Run(k, BOOT, actions).world.deployments, p.sent.value)
  {
    hide Run, Safety.Carried, Safety.Licensed;
    var s := Run(k, BOOT, actions);
    assert Reachable(k, s);
    ObservedGenerationIsEarned(k, s, r);
    var i :| 0 <= i < |s.passes| && s.passes[i].resource.generation == r.status.observedGeneration
      && s.passes[i].deploymentApplied && s.passes[i].serviceApplied
      && s.passes[i].sent.Some? && Safety.Licensed(k, s.passes[i], s.passes[i].sent.value)
      && Safety.Carried(s.world.deployments, s.passes[i].sent.value);
    p := s.passes[i];
    assert Passes(s)[i] == p;
    PassesAreOverThisResource(k, actions, r, p);
    PassReadThat(k, s, p);
    OneSpecPerGeneration(k, actions, p.resource, r);
  }

  lemma PassReadThat(k: Controller, s: State, p: Pass)
    requires Reachable(k, s) && p in Passes(s)
    ensures Some(p.resource) in s.world.resources
  {
    hide Run, Safety.Inv;
    ReachableIsSafe(k, s);
  }
}
