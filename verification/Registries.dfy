/** The registry object: connected providers, cached counters, scheduling, and the queue drain. */
module Registries {
  import opened Options
  import opened Fleet
  import opened Selection
  import opened Queueing
  import opened Draining
  import opened Membership
  import opened Simulation
  import opened Sums

  /** Public record of a routing choice. */
  datatype RoutingDecision = RoutingDecision(winner: Option<Candidate>, candidateCount: int, capacityRejections: int)

  ghost function CandidateIds(policy: Policy, ps: map<Id, Provider>, now: int, model: Model, pr: Pending,
                            exclude: set<Id>): set<Id> {
    set id | id in ps && Choosable(policy, ps, now, model, pr, exclude, id)
  }

  /** Providers that passed every gate except free memory. */
  ghost function OverSubscribed(policy: Policy, ps: map<Id, Provider>, now: int, model: Model, pr: Pending,
                            exclude: set<Id>): set<Id> {
    set id | && id in ps && id !in exclude
             && SerialAllowed(ps[id], pr.allowedSerials)
             && SnapshotGate(policy, ps[id], now, model)
             && BuildCandidate(SnapshotOf(policy, ps[id], model), pr).OverCapacity?
  }

  class Registry {
    var providers: map<Id, Provider>
    var online: int
    var modelProviders: map<Model, int>
    var policy: Policy
    const queue: RequestQueue

    constructor (policy: Policy)
      ensures providers == map[] && online == 0 && modelProviders == map[] && this.policy == policy
      ensures fresh(queue) && queue.queues == map[] && queue.done == {} && queue.responses == map[]
      ensures queue.maxSize == 10 && queue.maxWait == 120_000
      ensures CountersMatch(Roster(providers, online, modelProviders))
      ensures WellFormed(View())
    {
      providers, online, modelProviders := map[], 0, map[];
      this.policy := policy;
      queue := new RequestQueue(10, 120_000);
    }

    ghost function View(): Pool
      reads this, queue
    {
      Pool(providers, queue.queues, queue.done, queue.responses)
    }

    ghost function Members(): Roster
      reads this
    {
      Roster(providers, online, modelProviders)
    }

    // ----- counters and membership --------------------------------------------

    method ModelProviderInc(m: Model)
      modifies this`modelProviders
      ensures modelProviders == Inc(old(modelProviders), m)
    {
      var c := if m in modelProviders then modelProviders[m] else 0;
      modelProviders := modelProviders[m := c + 1];
    }

    method ModelProviderDec(m: Model)
      modifies this`modelProviders
      ensures modelProviders == Dec(old(modelProviders), m)
    {
      if m in modelProviders {
        var v := modelProviders[m] - 1;
        modelProviders := modelProviders[m := v];
        if v <= 0 {
          modelProviders := modelProviders - {m};
        }
      }
    }

    /** Drops the models the catalogue does not accept. */
    method FilterModels(ms: seq<ModelInfo>) returns (models: seq<Model>)
      ensures models == KeptModels(policy.catalog, ms)
    {
      models := [];
      for i := 0 to |ms|
        invariant models == KeptModels(policy.catalog, ms[..i])
      {
        assert ms[..i + 1][..i] == ms[..i];
        if InCatalog(policy.catalog, ms[i]) {
          models := models + [ms[i].id];
        }
      }
      assert ms[..|ms|] == ms;
    }

    method Register(id: Id, msg: RegisterMessage)
      modifies this`providers, this`online, this`modelProviders
      ensures Members() == Joined(old(Members()), NewProvider(id, KeptModels(policy.catalog, msg.models), msg))
      ensures id !in old(providers) && old(CountersMatch(Members())) ==> CountersMatch(Members())
    {
      hide CountersMatch, IncAll, KeptModels, NewProvider;
      ghost var before := Members();
      var models := FilterModels(msg.models);
      var p := NewProvider(id, models, msg);
      providers := providers[id := p];
      online := online + 1;
      IncrementModels(models);
      if id !in before.providers && CountersMatch(before) {
        JoinedKeepsCounters(before, p);
      }
    }

    method IncrementModels(models: seq<Model>)
      modifies this`modelProviders
      ensures modelProviders == IncAll(old(modelProviders), models)
    {
      for i := 0 to |models|
        invariant modelProviders == IncAll(old(modelProviders), models[..i])
      {
        assert models[..i + 1][..i] == models[..i];
        ModelProviderInc(models[i]);
      }
      assert models[..|models|] == models;
    }

    method DecrementModels(models: seq<Model>)
      modifies this`modelProviders
      ensures modelProviders == DecAll(old(modelProviders), models)
    {
      for i := 0 to |models|
        invariant modelProviders == DecAll(old(modelProviders), models[..i])
      {
        assert models[..i + 1][..i] == models[..i];
        ModelProviderDec(models[i]);
      }
      assert models[..|models|] == models;
    }

    /** Removes the provider; its pending requests are handed back to be failed by the caller's channels. */
    method Disconnect(id: Id) returns (failed: map<ReqId, Pending>)
      modifies this`providers, this`online, this`modelProviders
      ensures Members() == Left(old(Members()), id)
      ensures failed == if id in old(providers) then old(providers)[id].pending else map[]
      ensures old(CountersMatch(Members())) ==> CountersMatch(Members())
    {
      if CountersMatch(Members()) {
        LeftKeepsCounters(Members(), id);
      }
      if id !in providers {
        return map[];
      }
      var p := providers[id];
      providers := providers - {id};
      if p.status != Untrusted {
        online := online - 1;
        DecrementModels(p.models);
      }
      failed := p.pending;
    }

    method MarkUntrusted(id: Id)
      modifies this`providers, this`online, this`modelProviders
      ensures Members() == Distrusted(old(Members()), id)
      ensures old(CountersMatch(Members())) ==> CountersMatch(Members())
    {
      if CountersMatch(Members()) {
        DistrustedKeepsCounters(Members(), id);
      }
      if id !in providers {
        return;
      }
      var p := providers[id];
      if p.status != Untrusted {
        online := online - 1;
        DecrementModels(p.models);
      }
      providers := providers[id := p.(status := Untrusted)];
    }

    method RecordChallengeFailure(id: Id) returns (failures: int)
      modifies this`providers
      ensures providers == if id in old(providers) then old(providers)[id := ChallengeFailed(old(providers)[id])]
                           else old(providers)
      ensures failures == if id in providers then providers[id].failedChallenges else 0
      ensures old(CountersMatch(Members())) ==> CountersMatch(Members())
    {
      if id !in providers {
        return 0;
      }
      if CountersMatch(Members()) {
        ChangedKeepsCounters(Members(), id, ChallengeFailed(providers[id]));
      }
      providers := providers[id := ChallengeFailed(providers[id])];
      failures := providers[id].failedChallenges;
    }

    /** Records the failure and gives up on the provider at the third in a row. */
    method HandleChallengeFailure(id: Id)
      modifies this`providers, this`online, this`modelProviders
      ensures providers.Keys == old(providers).Keys
      ensures forall k :: k in providers && k != id ==> providers[k] == old(providers)[k]
      ensures id in old(providers) ==>
                var p := old(providers)[id];
                var status := if p.failedChallenges + 1 >= 3 then Untrusted else p.status;
                providers[id] == ChallengeFailed(p).(status := status)
      ensures old(CountersMatch(Members())) ==> CountersMatch(Members())
    {
      var failures := RecordChallengeFailure(id);
      if failures >= 3 {
        MarkUntrusted(id);
      }
    }

    // ----- selection and reservation --------------------------------------------

    /** First pass over the providers, in whatever order the map yields them. */
    method BuildCandidates(model: Model, pr: Pending, exclude: set<Id>, now: int)
      returns (cs: seq<Candidate>, rejections: int)
      requires forall id :: id in providers ==> providers[id].id == id
      ensures Selection.Members(cs) == Candidates(policy, providers, now, model, pr, exclude)
      ensures |cs| == |CandidateIds(policy, providers, now, model, pr, exclude)|
      ensures rejections == |OverSubscribed(policy, providers, now, model, pr, exclude)|
    {
      cs, rejections := [], 0;
      ghost var all := CandidateIds(policy, providers, now, model, pr, exclude);
      ghost var allFull := OverSubscribed(policy, providers, now, model, pr, exclude);
      var todo := providers.Keys;
      SelectionBounds(policy, providers, now, model, pr, exclude);
      while todo != {}
        invariant todo <= providers.Keys
        invariant |cs| == |all - todo| && rejections == |allFull - todo|
        invariant Selection.Members(cs) == Images(policy, providers, model, pr, all - todo)
        decreases |todo|
      {
        var id :| id in todo;
        var verdict := Judge(providers[id], model, pr, exclude, now);
        Visit(all, todo, id);
        Visit(allFull, todo, id);
        if verdict.Accepted? {
          MembersSnoc(cs, verdict.candidate);
          ImagesInsert(policy, providers, model, pr, all - todo, id);
          cs := cs + [verdict.candidate];
        } else if verdict.OverCapacity? {
          rejections := rejections + 1;
        }
        todo := todo - {id};
      }
      MinusNothing(all, todo);
      MinusNothing(allFull, todo);
    }

    /** The loop body of the selection: gates, then candidate. */
    method Judge(p: Provider, model: Model, pr: Pending, exclude: set<Id>, now: int) returns (v: Verdict)
      requires p.id in providers && providers[p.id] == p
      ensures v.Accepted? <==> p.id in CandidateIds(policy, providers, now, model, pr, exclude)
      ensures v.Accepted? ==> v.candidate == CandidateOf(policy, p, model, pr)
      ensures v.OverCapacity? <==> p.id in OverSubscribed(policy, providers, now, model, pr, exclude)
    {
      v := Ineligible;
      if SerialAllowed(p, pr.allowedSerials) && p.id !in exclude {
        var snap := TakeSnapshot(policy, p, now, model);
        if snap.Some? {
          v := BuildCandidate(snap.value, pr);
        }
      }
    }

    /** Both passes: the winning provider, if any candidate exists. */
    method Select(model: Model, pr: Pending, exclude: set<Id>, now: int)
      returns (winner: Option<Candidate>, decision: RoutingDecision)
      requires forall id :: id in providers ==> providers[id].id == id
      requires pr.id != ""
      ensures winner.Some? <==> Reservable(policy, providers, now, model, pr, exclude)
      ensures winner.Some? ==> MayServe(policy, providers, now, model, pr, exclude, winner.value.provider)
      ensures decision.winner == winner
      ensures decision.candidateCount == |CandidateIds(policy, providers, now, model, pr, exclude)|
      ensures decision.capacityRejections == |OverSubscribed(policy, providers, now, model, pr, exclude)|
    {
      var cs, rejections := BuildCandidates(model, pr, exclude, now);
      var draw: nat := *;
      winner := SelectBest(cs, draw);
      decision := RoutingDecision(winner, |cs|, rejections);
      CandidatesNonEmpty(policy, providers, now, model, pr, exclude, cs);
      if winner.Some? {
        assert winner.value in Winners(cs);
        WinnerIsChoosable(policy, providers, now, model, pr, exclude, winner.value);
      }
    }

    /**
     * Reserves a provider exactly when some eligible provider exists, and then one of the
     * winners. The recheck under the provider's lock never turns a winner away.
     */
    method ReserveProviderEx(model: Model, pr: Pending, exclude: set<Id>, now: int)
      returns (chosen: Option<Id>, pr': Pending, decision: RoutingDecision)
      requires forall id :: id in providers ==> providers[id].id == id
      modifies this`providers
      ensures pr' == Normalize(pr, model)
      ensures chosen.Some? <==> Reservable(policy, old(providers), now, model, pr', exclude)
      ensures chosen.None? ==> providers == old(providers)
      ensures chosen.Some? ==>
                && chosen.value in old(providers)
                && MayServe(policy, old(providers), now, model, pr', exclude, chosen.value)
                && providers == old(providers)[chosen.value := Reserved(old(providers)[chosen.value], pr')]
      ensures pr.id != "" ==>
                && decision.candidateCount == |CandidateIds(policy, old(providers), now, model, pr', exclude)|
                && decision.capacityRejections == |OverSubscribed(policy, old(providers), now, model, pr', exclude)|
      ensures old(CountersMatch(Members())) ==> CountersMatch(Members())
    {
      hide CountersMatch, CandidateIds, OverSubscribed, Candidates, CandidateOf;
      pr' := Normalize(pr, model);
      chosen := None;
      if pr.id == "" {
        decision := RoutingDecision(None, 0, 0);
        return;
      }
      var winner;
      winner, decision := Select(model, pr', exclude, now);
      if winner.Some? {
        var id := winner.value.provider;
        var p := providers[id];
        GatesAgree(policy, p, now, model, pr');
        if CanAdmit(policy, p, now, model) {
          if CountersMatch(Members()) {
            ChangedKeepsCounters(Members(), id, Reserved(p, pr'));
          }
          providers := providers[id := Reserved(p, pr')];
          chosen := Some(id);
        }
      }
    }

    method RemovePending(id: Id, x: ReqId) returns (taken: Option<Pending>)
      modifies this`providers
      ensures taken == if id in old(providers) && x in old(providers)[id].pending
                       then Some(old(providers)[id].pending[x]) else None
      ensures providers == if id in old(providers) then old(providers)[id := Released(old(providers)[id], x)]
                           else old(providers)
    {
      if id !in providers {
        return None;
      }
      taken := if x in providers[id].pending then Some(providers[id].pending[x]) else None;
      providers := providers[id := Released(providers[id], x)];
    }

    // ----- draining the queues -----------------------------------------------------

    /** Puts the skipped requests back in front of their queue, in their original order. */
    method RequeueSkipped(model: Model, skipped: seq<QueuedRequest>)
      requires forall r :: r in skipped ==> r.model == model
      modifies queue`queues
      ensures queue.queues == if skipped == [] then old(queue.queues)
                              else old(queue.queues)[model := skipped + QueueOf(old(queue.queues), model)]
    {
      ghost var q0 := QueueOf(queue.queues, model);
      var i := |skipped|;
      while i > 0
        invariant 0 <= i <= |skipped|
        invariant QueueOf(queue.queues, model) == skipped[i..] + q0
        invariant queue.queues == if i == |skipped| then old(queue.queues)
                                  else old(queue.queues)[model := skipped[i..] + q0]
      {
        i := i - 1;
        assert skipped[i] in skipped;
        assert skipped[i..] + q0 == [skipped[i]] + (skipped[i + 1..] + q0);
        queue.RequeueFront(skipped[i]);
      }
      assert skipped[0..] == skipped;
    }

    /** Takes the next unexpired request off the queue, prepared, on top of those already set aside. */
    method NextRequest(model: Model, ghost skipped: seq<QueuedRequest>, now: int) returns (next: Option<QueuedRequest>)
      requires WellFormed(Restore(View(), model, skipped))
      modifies queue
      ensures next.None? ==>
                && QueueOf(queue.queues, model) == []
                && WellFormed(Restore(View(), model, skipped))
                && Progress(Clock(now, queue.maxWait), old(Restore(View(), model, skipped)),
                            Restore(View(), model, skipped))
                && Waiting(queue.queues) <= old(Waiting(queue.queues))
      ensures next.Some? ==>
                && WellQueued(next.value, model) && next.value == Prepared(next.value, model)
                && PendingOf(next.value, model).id == next.value.id
                && WellFormed(Restore(View(), model, skipped + [next.value]))
                && Progress(Clock(now, queue.maxWait), old(Restore(View(), model, skipped)),
                            Restore(View(), model, skipped + [next.value]))
                && model in queue.queues && Waiting(queue.queues) + 1 <= old(Waiting(queue.queues))
                && |QueueOf(queue.queues, model)| < old(|QueueOf(queue.queues, model)|)
      ensures Simulated(policy, Clock(now, queue.maxWait), old(View()), skipped, View(),
                        if next.Some? then skipped + [next.value] else skipped)
    {
      hide Progress, WellFormed, Waiting, Restore, Simulated;
      ghost var before := View();
      ghost var q := QueueOf(queue.queues, model);
      ghost var n := FirstFresh(q, now, queue.maxWait);
      var popped := queue.PopNextFresh(model, now);
      assert q == [] ==> SameQueues(View().queues, before.queues[model := AfterPop(q, n)]);
      PopSimulated(policy, Clock(now, queue.maxWait), before, model, skipped, n, View());
      if popped.None? {
        next := None;
        assert q[..n] == q;
        PopNothing(Clock(now, queue.maxWait), before, model, skipped, View());
        WaitingUpdate(before.queues, model, []);
      } else {
        next := Some(Prepared(popped.value, model));
        PreparedTwice(popped.value, model);
        PopRequest(Clock(now, queue.maxWait), before, model, skipped, n, View());
        WaitingUpdate(before.queues, model, q[n + 1..]);
      }
    }

    /**
     * Deals with a request that has just been reserved on a provider: the set-aside requests
     * go back, and the request is handed to its waiter, or released again when the waiter is
     * gone or its response channel is full.
     */
    method Place(model: Model, skipped: seq<QueuedRequest>, req: QueuedRequest, id: Id, now: int, ghost mid: Pool)
      returns (ghost trace: seq<Assignment>)
      requires WellFormed(mid) && WellQueued(req, model) && req.pending.Some? && req == Prepared(req, model)
      requires forall r :: r in skipped ==>
                 r.model == model && !Reservable(policy, mid.providers, now, model, PendingOf(r, model), {})
      requires id in mid.providers && MayServe(policy, mid.providers, now, model, PendingOf(req, model), {}, id)
      requires providers == mid.providers[id := Reserved(mid.providers[id], PendingOf(req, model))]
      requires queue.done == mid.done && queue.responses == mid.responses
      requires model in queue.queues
      requires mid.queues == queue.queues[model := skipped + [req] + QueueOf(queue.queues, model)]
      modifies this`providers, queue
      ensures WellFormed(View()) && Progress(Clock(now, queue.maxWait), mid, View())
      ensures FairTrace(policy, now, mid, View(), trace)
      ensures Waiting(queue.queues) <= old(Waiting(queue.queues)) + |skipped|
      ensures Simulated(policy, Clock(now, queue.maxWait), old(View()), skipped, View(), [])
      decreases Waiting(queue.queues) + |skipped|, 3
    {
      hide Progress, WellFormed, FairTrace, Reservable, MayServe, Waiting, Simulated;
      ghost var clock := Clock(now, queue.maxWait);
      ghost var z, start := QueueOf(queue.queues, model), View();
      WaitingUpdate(queue.queues, model, skipped + z);
      RequeueSkipped(model, skipped);
      ghost var requeued := View();
      RequeueSimulated(policy, clock, start, model, skipped, requeued);
      assert skipped == [] ==> skipped + z == z;
      assert queue.queues == mid.queues[model := skipped + z];
      if req.id in queue.done || req.id in queue.responses {
        var taken := RemovePending(id, req.pending.value.id);
        ghost var released := View();
        RemoveSimulated(policy, clock, requeued, id, req.pending.value.id, released);
        ghost var idle := released.(providers := providers[id := Idled(providers[id])]);
        GiveUpProgress(clock, mid, model, skipped, req, z, id, PendingOf(req, model), released, idle);
        QuietTrace(policy, now, mid, idle);
        trace := SetProviderIdle(id, now);
        ProgressTransitive(clock, mid, idle, View());
        FairTraceConcat(clock, policy, now, mid, idle, View(), [], trace);
        assert [] + trace == trace;
        SimulatedThen(policy, clock, start, skipped, requeued, [], released, []);
        SimulatedThen(policy, clock, start, skipped, released, [], View(), []);
      } else {
        queue.responses := queue.responses[req.id := Some(id)];
        HandOverProgress(clock, mid, model, skipped, req, z, id, PendingOf(req, model), View());
        HandOverTrace(clock, policy, now, mid, model, skipped, req, z, id, View());
        trace := [Assignment(model, mid.providers, skipped + [req] + z, |skipped|, id)];
        SimulatedQuiet(policy, clock, requeued, View(), []);
        SimulatedThen(policy, clock, start, skipped, requeued, [], View(), []);
      }
    }

    /** Tries to reserve a provider for the request just taken off its queue, and places it if there is one. */
    method Serve(model: Model, skipped: seq<QueuedRequest>, req: QueuedRequest, now: int, ghost mid: Pool)
      returns (placed: bool, ghost trace: seq<Assignment>)
      requires WellFormed(mid) && WellQueued(req, model) && req == Prepared(req, model)
      requires forall r :: r in skipped ==>
                 r.model == model && !Reservable(policy, mid.providers, now, model, PendingOf(r, model), {})
      requires model in queue.queues && mid == Restore(View(), model, skipped + [req])
      modifies this`providers, queue
      ensures !placed ==> View() == old(View()) && trace == []
      ensures !placed ==> !Reservable(policy, providers, now, model, PendingOf(req, model), {})
      ensures placed ==> WellFormed(View()) && Progress(Clock(now, queue.maxWait), mid, View())
      ensures placed ==> FairTrace(policy, now, mid, View(), trace)
      ensures placed ==> Waiting(queue.queues) <= old(Waiting(queue.queues)) + |skipped|
      ensures placed ==> Simulated(policy, Clock(now, queue.maxWait), old(View()), skipped + [req], View(), [])
      decreases Waiting(queue.queues) + |skipped|, 4
    {
      hide Progress, WellFormed, FairTrace, Reservable, MayServe, Waiting, Simulated;
      IdsMatch(mid);
      assert req.pending.value == PendingOf(req, model);
      ghost var clock, start := Clock(now, queue.maxWait), View();
      trace := [];
      var chosen, pr, decision := ReserveProviderEx(model, req.pending.value, {}, now);
      placed := chosen.Some?;
      if placed {
        ghost var reserved := View();
        ReservableId(policy, start.providers, now, model, pr, {});
        ReserveSimulated(policy, clock, start, model, skipped, req, chosen.value, reserved);
        trace := Place(model, skipped, req, chosen.value, now, mid);
        SimulatedThen(policy, clock, start, skipped + [req], reserved, skipped, View(), []);
      }
    }

    /** One model's share of a drain: the inner loop of drainQueuedRequestsForModels. */
    method DrainModel(model: Model, now: int) returns (ghost trace: seq<Assignment>)
      requires WellFormed(View())
      modifies this`providers, queue
      ensures WellFormed(View()) && Progress(Clock(now, queue.maxWait), old(View()), View())
      ensures Stuck(policy, now, View(), model)
      ensures FairTrace(policy, now, old(View()), View(), trace)
      ensures Waiting(queue.queues) <= old(Waiting(queue.queues))
      ensures Simulated(policy, Clock(now, queue.maxWait), old(View()), [], View(), [])
      decreases Waiting(queue.queues), 0
    {
      hide Progress, WellFormed, FairTrace, Reservable, MayServe, Waiting, Stuck, Simulated;
      ghost var clock, start := Clock(now, queue.maxWait), View();
      var skipped: seq<QueuedRequest> := [];
      trace := [];
      ProgressReflexive(Clock(now, queue.maxWait), start);
      QuietTrace(policy, now, start, start);
      SimulatedSelf(policy, clock, start);
      while true
        invariant WellFormed(Restore(View(), model, skipped))
        invariant Progress(Clock(now, queue.maxWait), start, Restore(View(), model, skipped))
        invariant FairTrace(policy, now, start, Restore(View(), model, skipped), trace)
        invariant forall r :: r in skipped ==>
                    r.model == model && !Reservable(policy, providers, now, model, PendingOf(r, model), {})
        invariant Waiting(queue.queues) + |skipped| <= old(Waiting(queue.queues))
        invariant Simulated(policy, clock, start, [], View(), skipped)
        decreases Waiting(queue.queues) + |skipped|, |QueueOf(queue.queues, model)|
      {
        ghost var whole, before := Restore(View(), model, skipped), View();
        WaitingNonNegative(queue.queues);
        var next := NextRequest(model, skipped, now);
        ghost var popped := View();
        if next.None? {
          ghost var ended := Restore(popped, model, skipped);
          Extend(clock, policy, now, start, whole, ended, trace, []);
          WaitingUpdate(queue.queues, model, skipped);
          assert skipped + [] == skipped;
          RequeueSkipped(model, skipped);
          SimulatedThen(policy, clock, start, [], before, skipped, popped, skipped);
          RequeueSimulated(policy, clock, popped, model, skipped, View());
          SimulatedThen(policy, clock, start, [], popped, skipped, View(), []);
          NothingPlaceable(policy, now, View(), model, skipped);
          break;
        }
        var req := next.value;
        ghost var mid := Restore(View(), model, skipped + [req]);
        Extend(clock, policy, now, start, whole, mid, trace, []);
        SimulatedThen(policy, clock, start, [], before, skipped, popped, skipped + [req]);
        var placed;
        ghost var more;
        placed, more := Serve(model, skipped, req, now, mid);
        if !placed {
          skipped := skipped + [req];
          continue;
        }
        Extend(clock, policy, now, start, mid, View(), trace, more);
        SimulatedThen(policy, clock, start, [], popped, skipped + [req], View(), []);
        trace := trace + more;
        skipped := [];
      }
    }

    /** drainQueuedRequestsForModels: nothing placeable is left in any of the given queues. */
    method Drain(models: seq<Model>, now: int) returns (ghost trace: seq<Assignment>)
      requires WellFormed(View())
      modifies this`providers, queue
      ensures WellFormed(View()) && Progress(Clock(now, queue.maxWait), old(View()), View())
      ensures forall m :: m in models ==> Stuck(policy, now, View(), m)
      ensures FairTrace(policy, now, old(View()), View(), trace)
      ensures Waiting(queue.queues) <= old(Waiting(queue.queues))
      ensures Simulated(policy, Clock(now, queue.maxWait), old(View()), [], View(), [])
      decreases Waiting(queue.queues), 1
    {
      hide *;
      ghost var start := View();
      trace := [];
      ProgressReflexive(Clock(now, queue.maxWait), start);
      QuietTrace(policy, now, start, start);
      SimulatedSelf(policy, Clock(now, queue.maxWait), start);
      WaitingNonNegative(queue.queues);
      for i := 0 to |models|
        invariant WellFormed(View()) && Progress(Clock(now, queue.maxWait), start, View())
        invariant forall j :: 0 <= j < i ==> Stuck(policy, now, View(), models[j])
        invariant FairTrace(policy, now, start, View(), trace)
        invariant Waiting(queue.queues) <= old(Waiting(queue.queues))
        invariant Simulated(policy, Clock(now, queue.maxWait), start, [], View(), [])
      {
        ghost var before := View();
        ghost var more := DrainModel(models[i], now);
        Extend(Clock(now, queue.maxWait), policy, now, start, before, View(), trace, more);
        SimulatedThen(policy, Clock(now, queue.maxWait), start, [], before, [], View(), []);
        trace := trace + more;
        forall j | 0 <= j < i ensures Stuck(policy, now, View(), models[j]) {
          StuckStable(Clock(now, queue.maxWait), policy, now, before, View(), models[j]);
        }
      }
    }

    /** Back to online when nothing is pending, then use the freed capacity. */
    method SetProviderIdle(id: Id, now: int) returns (ghost trace: seq<Assignment>)
      requires WellFormed(View())
      modifies this`providers, queue
      ensures WellFormed(View()) && Progress(Clock(now, queue.maxWait), old(View()), View())
      ensures id in old(providers) ==> forall m :: m in old(providers)[id].models ==> Stuck(policy, now, View(), m)
      ensures id in old(providers) ==>
        var idle := old(View()).(providers := old(providers)[id := Idled(old(providers)[id])]);
        && Progress(Clock(now, queue.maxWait), idle, View()) && FairTrace(policy, now, idle, View(), trace)
        && id in providers
        && (Routable(old(providers)[id].status) && providers[id].pending == map[] ==> providers[id].status == Online)
      ensures FairTrace(policy, now, old(View()), View(), trace)
      ensures Waiting(queue.queues) <= old(Waiting(queue.queues))
      ensures Simulated(policy, Clock(now, queue.maxWait), old(View()), [], View(), [])
      decreases Waiting(queue.queues), 2
    {
      hide Progress, WellFormed, FairTrace, Waiting, Stuck, Simulated;
      ghost var start := View();
      trace := [];
      if id !in providers {
        ProgressReflexive(Clock(now, queue.maxWait), start);
        QuietTrace(policy, now, start, start);
        SimulatedSelf(policy, Clock(now, queue.maxWait), start);
        return;
      }
      providers := providers[id := Idled(providers[id])];
      IdleProgress(Clock(now, queue.maxWait), start, id, View());
      QuietTrace(policy, now, start, View());
      ghost var idle := View();
      IdleSimulated(policy, Clock(now, queue.maxWait), start, id, idle);
      trace := Drain(providers[id].models, now);
      IdleStatus(Clock(now, queue.maxWait), start, id, idle, View());
      SimulatedThen(policy, Clock(now, queue.maxWait), start, [], idle, [], View(), []);
      Extend(Clock(now, queue.maxWait), policy, now, start, idle, View(), [], trace);
      assert [] + trace == trace;
    }

    /** Replaces a provider's record, then drains the queues of its models. */
    method Refresh(id: Id, p: Provider, now: int) returns (ghost trace: seq<Assignment>)
      requires WellFormed(View()) && id in providers && p.id == id && p.pending == providers[id].pending
      requires p.models == providers[id].models && (p.status == Untrusted <==> providers[id].status == Untrusted)
      modifies this`providers, queue
      ensures Drained(policy, now, queue.maxWait, old(View()).(providers := old(providers)[id := p]), View(),
                      p.models, trace)
      ensures old(CountersMatch(Members())) ==> CountersMatch(Members())
    {
      hide Progress, FairTrace, Waiting, Stuck, CountersMatch, Simulated;
      ghost var roster := Members();
      providers := providers[id := p];
      if CountersMatch(roster) {
        ChangedKeepsCounters(roster, id, p);
      }
      ghost var mid := View();
      assert WellFormed(mid);
      hide WellFormed;
      trace := Drain(p.models, now);
      if CountersMatch(roster) {
        ProgressKeepsCounters(Clock(now, queue.maxWait), roster.(providers := mid.providers), mid, View());
      }
    }

    /** A heartbeat refreshes the provider's metrics and capacity, and uses what that frees. */
    method Heartbeat(id: Id, msg: HeartbeatMessage, now: int) returns (ghost trace: seq<Assignment>)
      requires WellFormed(View())
      modifies this`providers, queue
      ensures id !in old(providers) ==> View() == old(View()) && trace == []
      ensures id in old(providers) ==>
        var p := Heartbeaten(old(providers)[id], msg);
        Drained(policy, now, queue.maxWait, old(View()).(providers := old(providers)[id := p]), View(), p.models, trace)
      ensures old(CountersMatch(Members())) ==> CountersMatch(Members())
    {
      trace := [];
      if id in providers {
        IdsMatch(View());
        hide WellFormed, Drained, CountersMatch;
        trace := Refresh(id, Heartbeaten(providers[id], msg), now);
      }
    }

    /** A passed challenge restamps the provider; it may unlock queued requests for any of its models. */
    method RecordChallengeSuccess(id: Id, now: int) returns (ghost trace: seq<Assignment>)
      requires WellFormed(View())
      modifies this`providers, queue
      ensures id !in old(providers) ==> View() == old(View()) && trace == []
      ensures id in old(providers) ==>
        var p := ChallengePassed(old(providers)[id], now);
        Drained(policy, now, queue.maxWait, old(View()).(providers := old(providers)[id := p]), View(), p.models, trace)
      ensures old(CountersMatch(Members())) ==> CountersMatch(Members())
    {
      trace := [];
      if id in providers {
        IdsMatch(View());
        hide WellFormed, Drained, CountersMatch;
        trace := Refresh(id, ChallengePassed(providers[id], now), now);
      }
    }
  }

  /** A complete drain of the given models' queues took pool a to pool b. */
  ghost predicate Drained(policy: Policy, now: int, maxWait: int, a: Pool, b: Pool, models: seq<Model>,
                          trace: seq<Assignment>) {
    && WellFormed(b)
    && Progress(Clock(now, maxWait), a, b)
    && FairTrace(policy, now, a, b, trace)
    && Simulated(policy, Clock(now, maxWait), a, [], b, [])
    && forall m :: m in models ==> Stuck(policy, now, b, m)
  }

  lemma ProgressKeepsCounters(clock: Clock, r: Roster, a: Pool, b: Pool)
    requires CountersMatch(r) && r.providers == a.providers && Progress(clock, a, b)
    ensures CountersMatch(r.(providers := b.providers))
  {
    LoadedKeepsCounters(r, b.providers);
  }

  lemma NothingPlaceable(policy: Policy, now: int, p: Pool, model: Model, q: seq<QueuedRequest>)
    requires QueueOf(p.queues, model) == q
    requires forall r :: r in q ==>
               r.model == model && !Reservable(policy, p.providers, now, model, PendingOf(r, model), {})
    ensures Stuck(policy, now, p, model)
  {
  }

  lemma IdleStatus(clock: Clock, p: Pool, id: Id, idle: Pool, b: Pool)
    requires id in p.providers && idle.providers == p.providers[id := Idled(p.providers[id])]
    requires Progress(clock, idle, b)
    ensures id in b.providers
    ensures Routable(p.providers[id].status) && b.providers[id].pending == map[] ==> b.providers[id].status == Online
  {
    if Routable(p.providers[id].status) {
      EmptyIsOnline(clock, p, id, idle, b);
    }
  }

  lemma ReservableId(policy: Policy, ps: map<Id, Provider>, now: int, model: Model, pr: Pending, exclude: set<Id>)
    requires Reservable(policy, ps, now, model, pr, exclude)
    ensures pr.id != ""
  {
  }

  lemma IdsMatch(p: Pool)
    requires WellFormed(p)
    ensures forall id :: id in p.providers ==> p.providers[id].id == id
  {
  }

  /** Appending a further stretch of draining. */
  lemma Extend(clock: Clock, policy: Policy, now: int, a: Pool, b: Pool, c: Pool, s: seq<Assignment>,
               t: seq<Assignment>)
    requires Progress(clock, a, b) && Progress(clock, b, c) && FairTrace(policy, now, a, b, s)
    requires FairTrace(policy, now, b, c, t) || (t == [] && b.providers == c.providers)
    ensures Progress(clock, a, c) && FairTrace(policy, now, a, c, s + t)
    ensures t == [] ==> FairTrace(policy, now, a, c, s)
  {
    hide Progress, FairTrace;
    ProgressTransitive(clock, a, b, c);
    if b.providers == c.providers && t == [] {
      QuietTrace(policy, now, b, c);
    }
    FairTraceConcat(clock, policy, now, a, b, c, s, t);
    assert t == [] ==> s + t == s;
  }

  ghost function Images(policy: Policy, ps: map<Id, Provider>, model: Model, pr: Pending,
                        ids: set<Id>): set<Candidate> {
    set id | id in ids && id in ps :: CandidateOf(policy, ps[id], model, pr)
  }

  lemma ImagesInsert(policy: Policy, ps: map<Id, Provider>, model: Model, pr: Pending, ids: set<Id>, id: Id)
    requires id in ps
    ensures Images(policy, ps, model, pr, ids + {id})
         == Images(policy, ps, model, pr, ids) + {CandidateOf(policy, ps[id], model, pr)}
  {
  }

  lemma SelectionBounds(policy: Policy, ps: map<Id, Provider>, now: int, model: Model, pr: Pending, exclude: set<Id>)
    ensures CandidateIds(policy, ps, now, model, pr, exclude) - ps.Keys == {}
    ensures OverSubscribed(policy, ps, now, model, pr, exclude) - ps.Keys == {}
    ensures Images(policy, ps, model, pr, {}) == {}
    ensures Images(policy, ps, model, pr, CandidateIds(policy, ps, now, model, pr, exclude))
         == Candidates(policy, ps, now, model, pr, exclude)
  {
  }

  lemma MembersSnoc(cs: seq<Candidate>, c: Candidate)
    ensures Selection.Members(cs + [c]) == Selection.Members(cs) + {c}
  {
  }

  lemma CandidatesNonEmpty(policy: Policy, ps: map<Id, Provider>, now: int, model: Model, pr: Pending,
                           exclude: set<Id>, cs: seq<Candidate>)
    requires Selection.Members(cs) == Candidates(policy, ps, now, model, pr, exclude) && pr.id != ""
    ensures cs != [] <==> Reservable(policy, ps, now, model, pr, exclude)
  {
    if cs != [] {
      assert cs[0] in Selection.Members(cs);
    }
    if id :| Choosable(policy, ps, now, model, pr, exclude, id) {
      assert CandidateOf(policy, ps[id], model, pr) in Candidates(policy, ps, now, model, pr, exclude);
      assert CandidateOf(policy, ps[id], model, pr) in cs;
    }
  }

  lemma WinnerIsChoosable(policy: Policy, ps: map<Id, Provider>, now: int, model: Model, pr: Pending,
                          exclude: set<Id>, c: Candidate)
    requires forall id :: id in ps ==> ps[id].id == id
    requires Wins(c, Candidates(policy, ps, now, model, pr, exclude))
    ensures MayServe(policy, ps, now, model, pr, exclude, c.provider)
  {
    var id :| id in ps && Choosable(policy, ps, now, model, pr, exclude, id)
        && CandidateOf(policy, ps[id], model, pr) == c;
    assert c.provider == ps[id].id;
  }
}
