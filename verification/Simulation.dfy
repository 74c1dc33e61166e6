/**
 * The registry's methods as runs of the routing protocol: whatever a drain does to the fleet and
 * the queues is a sequence of the protocol's steps.
 */
module Simulation {
  import opened Options
  import opened Fleet
  import opened Queueing
  import opened Draining
  import opened Membership
  import opened Protocol
  import opened RoutingLaws
  import opened Ownership

  // ----- stretches of a run -----------------------------------------------------------------

  /** The critical sections of a drain. */
  predicate DrainStep(e: Event) {
    match e
    case Requests(Pop(_)) => true
    case Requests(ReserveHeld(_, _, _)) => true
    case Requests(PutBack(_)) => true
    case Requests(Remove(_, _, taker)) => taker == Dispatcher
    case Fleets(Touch(_, change)) => change == BecomeIdle
    case _ => false
  }

  ghost predicate Leads(s: System, es: seq<Event>, t: System)
    decreases |es|
  {
    if es == [] then s == t
    else DrainStep(es[0]) && Enabled(s, es[0]) && Leads(Step(s, es[0]), es[1..], t)
  }

  ghost predicate Reaches(s: System, t: System) {
    exists es :: Leads(s, es, t)
  }

  lemma {:induction false} LeadsOn(s: System, es: seq<Event>, t: System, fs: seq<Event>, u: System)
    requires Leads(s, es, t) && Leads(t, fs, u)
    ensures Leads(s, es + fs, u)
    decreases |es|
  {
    hide DrainStep, Enabled, Step;
    if es == [] {
      assert es + fs == fs;
    } else {
      LeadsOn(Step(s, es[0]), es[1..], t, fs, u);
      assert (es + fs)[0] == es[0] && (es + fs)[1..] == es[1..] + fs;
    }
  }

  lemma ReachesSelf(s: System)
    ensures Reaches(s, s)
  {
    assert Leads(s, [], s);
  }

  lemma ReachesStep(s: System, e: Event)
    requires DrainStep(e) && Enabled(s, e)
    ensures Reaches(s, Step(s, e))
  {
    hide DrainStep, Enabled, Step;
    assert Leads(Step(s, e), [e][1..], Step(s, e));
    assert Leads(s, [e], Step(s, e));
  }

  // ----- the registry's view of a system ------------------------------------------------------

  /** What every state of a run satisfies. */
  ghost predicate Sound(s: System) {
    Invariant(s) && Owned(s)
  }

  lemma SoundStep(s: System, e: Event)
    requires Sound(s) && Enabled(s, e)
    ensures Sound(Step(s, e))
  {
    hide Invariant, Owned, Enabled, Step;
    InvariantIds(s);
    InvariantStep(s, e);
    OwnershipStep(s, e);
  }

  ghost predicate SameQueues(a: Queues, b: Queues) {
    forall m :: QueueOf(a, m) == QueueOf(b, m)
  }

  /** The set-aside requests, each once, are in hand. */
  ghost predicate Held(hand: map<ReqId, QueuedRequest>, skipped: seq<QueuedRequest>) {
    && (forall i :: 0 <= i < |skipped| ==> skipped[i].id in hand && hand[skipped[i].id] == skipped[i])
    && (forall i, j :: 0 <= i < j < |skipped| ==> skipped[i].id != skipped[j].id)
  }

  /** The system's registry and queue are the pool's. */
  ghost predicate Shows(policy: Policy, clock: Clock, s: System, p: Pool) {
    && s.policy == policy && s.clock == clock.now && s.maxWait == clock.maxWait
    && s.roster.providers == p.providers
    && SameQueues(s.queues, p.queues)
  }

  /** The same with some set-aside requests among those in hand. */
  ghost predicate Mirrors(policy: Policy, clock: Clock, s: System, p: Pool, skipped: seq<QueuedRequest>) {
    Sound(s) && Shows(policy, clock, s, p) && Held(s.hand, skipped)
  }

  /** What the other drains have in hand. */
  ghost function Others(s: System, skipped: seq<QueuedRequest>): map<ReqId, QueuedRequest> {
    s.hand - IdsOf(skipped)
  }

  /** Drain steps take s to a system that mirrors the pool; the other drains keep what they have in hand. */
  ghost predicate Follows(policy: Policy, clock: Clock, s: System, skipped: seq<QueuedRequest>, b: Pool,
                          left: seq<QueuedRequest>) {
    exists t :: Reaches(s, t) && Mirrors(policy, clock, t, b, left) && Others(t, left) == Others(s, skipped)
  }

  /** From every system that mirrors pool a, drain steps lead to one that mirrors pool b. */
  ghost predicate Simulated(policy: Policy, clock: Clock, a: Pool, skipped: seq<QueuedRequest>, b: Pool,
                            left: seq<QueuedRequest>) {
    forall s :: Mirrors(policy, clock, s, a, skipped) ==> Follows(policy, clock, s, skipped, b, left)
  }

  /** Nothing the protocol knows of has changed. */
  lemma SimulatedQuiet(policy: Policy, clock: Clock, a: Pool, b: Pool, skipped: seq<QueuedRequest>)
    requires a.providers == b.providers && SameQueues(a.queues, b.queues)
    ensures Simulated(policy, clock, a, skipped, b, skipped)
  {
    hide Held, Sound, Reaches, Others, QueueOf;
    forall s | Mirrors(policy, clock, s, a, skipped) ensures Follows(policy, clock, s, skipped, b, skipped) {
      ReachesSelf(s);
      assert Mirrors(policy, clock, s, b, skipped);
    }
  }

  lemma SimulatedSelf(policy: Policy, clock: Clock, a: Pool)
    ensures Simulated(policy, clock, a, [], a, [])
  {
    SimulatedQuiet(policy, clock, a, a, []);
  }

  lemma SimulatedThen(policy: Policy, clock: Clock, a: Pool, x: seq<QueuedRequest>, b: Pool, y: seq<QueuedRequest>,
                      c: Pool, z: seq<QueuedRequest>)
    requires Simulated(policy, clock, a, x, b, y) && Simulated(policy, clock, b, y, c, z)
    ensures Simulated(policy, clock, a, x, c, z)
  {
    hide Mirrors, Reaches, Others;
    forall s | Mirrors(policy, clock, s, a, x) ensures Follows(policy, clock, s, x, c, z) {
      var t :| Reaches(s, t) && Mirrors(policy, clock, t, b, y) && Others(t, y) == Others(s, x);
      assert Follows(policy, clock, t, y, c, z);
      var u :| Reaches(t, u) && Mirrors(policy, clock, u, c, z) && Others(u, z) == Others(t, y);
      ReachesOn(s, t, u);
    }
  }

  lemma ReachesOn(s: System, t: System, u: System)
    requires Reaches(s, t) && Reaches(t, u)
    ensures Reaches(s, u)
  {
    hide Leads;
    var es :| Leads(s, es, t);
    var fs :| Leads(t, fs, u);
    LeadsOn(s, es, t, fs, u);
  }

  /** One step is enough. */
  lemma OneStep(policy: Policy, clock: Clock, s: System, e: Event, x: seq<QueuedRequest>, b: Pool,
                y: seq<QueuedRequest>)
    requires DrainStep(e) && Sound(s) && Enabled(s, e)
    requires Shows(policy, clock, Step(s, e), b) && Held(Step(s, e).hand, y) && Others(Step(s, e), y) == Others(s, x)
    ensures Follows(policy, clock, s, x, b, y)
  {
    hide DrainStep, Enabled, Step, Sound, Shows, Held, Others, Reaches;
    SoundStep(s, e);
    ReachesStep(s, e);
    assert Mirrors(policy, clock, Step(s, e), b, y);
  }

  // ----- each critical section --------------------------------------------------------------

  lemma UpdatedQueue(s: Queues, p: Queues, m: Model, q: seq<QueuedRequest>)
    requires SameQueues(s, p)
    ensures SameQueues(s[m := q], p[m := q])
  {
    var t, u := s[m := q], p[m := q];
    forall k ensures QueueOf(t, k) == QueueOf(u, k) {
      assert QueueOf(s, k) == QueueOf(p, k);
    }
  }

  /** A queued request is in nobody's hand. */
  lemma QueuedNotHeld(s: System, m: Model, i: nat)
    requires Sound(s) && i < |QueueOf(s.queues, m)|
    ensures QueueOf(s.queues, m)[i].id !in s.hand
  {
    hide Invariant, PendingOwned, TakesOwned;
    assert QueueOwned(QueueOf(s.queues, m), m, s.owner);
  }

  lemma HeldSnoc(hand: map<ReqId, QueuedRequest>, x: seq<QueuedRequest>, r: QueuedRequest)
    requires Held(hand, x) && r.id !in hand
    ensures Held(hand[r.id := r], x + [r])
    ensures hand[r.id := r] - IdsOf(x + [r]) == hand - IdsOf(x)
  {
    assert IdsOf(x + [r]) == IdsOf(x) + {r.id} by {
      forall i | 0 <= i < |x| ensures (x + [r])[i] == x[i] {
      }
      assert (x + [r])[|x|] == r;
    }
    hide IdsOf;
  }

  lemma HeldLess(hand: map<ReqId, QueuedRequest>, x: seq<QueuedRequest>, r: QueuedRequest)
    requires Held(hand, x + [r])
    ensures r.id in hand && hand[r.id] == r
    ensures Held(hand - {r.id}, x)
    ensures (hand - {r.id}) - IdsOf(x) == hand - IdsOf(x + [r])
  {
    var y := x + [r];
    assert y[|x|] == r && forall i :: 0 <= i < |x| ==> y[i] == x[i];
    assert IdsOf(y) == IdsOf(x) + {r.id};
    hide IdsOf;
  }

  /** What a pop makes of the set-aside requests. */
  ghost function SetAside(q: seq<QueuedRequest>, n: nat, m: Model, x: seq<QueuedRequest>): seq<QueuedRequest> {
    if n < |q| then x + [Prepared(q[n], m)] else x
  }

  function AfterPop(q: seq<QueuedRequest>, n: nat): seq<QueuedRequest> {
    if n < |q| then q[n + 1..] else []
  }

  lemma PopHolds(s: System, m: Model, x: seq<QueuedRequest>)
    requires Sound(s) && Held(s.hand, x)
    ensures var q := QueueOf(s.queues, m);
      var n := FirstFresh(q, s.clock, s.maxWait);
      var t := PopStep(s, m);
      Held(t.hand, SetAside(q, n, m, x)) && Others(t, SetAside(q, n, m, x)) == Others(s, x)
  {
    var q := QueueOf(s.queues, m);
    var n := FirstFresh(q, s.clock, s.maxWait);
    if n < |q| {
      QueuedNotHeld(s, m, n);
      HeldSnoc(s.hand, x, Prepared(q[n], m));
    }
    hide Sound, QueueOf, Held, IdsOf, PopOwner, FirstFresh;
  }

  lemma PopSimulated(policy: Policy, clock: Clock, a: Pool, m: Model, x: seq<QueuedRequest>, n: nat, b: Pool)
    requires n == FirstFresh(QueueOf(a.queues, m), clock.now, clock.maxWait) && b.providers == a.providers
    requires SameQueues(b.queues, a.queues[m := AfterPop(QueueOf(a.queues, m), n)])
    ensures Simulated(policy, clock, a, x, b, SetAside(QueueOf(a.queues, m), n, m, x))
  {
    var q := QueueOf(a.queues, m);
    hide Sound, QueueOf, Held, IdsOf, Follows, PopOwner, FirstFresh, SetAside, Prepared, Others;
    forall s | Mirrors(policy, clock, s, a, x) ensures Follows(policy, clock, s, x, b, SetAside(q, n, m, x)) {
      UpdatedQueue(s.queues, a.queues, m, AfterPop(q, n));
      PopHolds(s, m, x);
      OneStep(policy, clock, s, Requests(Pop(m)), x, b, SetAside(q, n, m, x));
    }
  }

  lemma ReserveSimulated(policy: Policy, clock: Clock, a: Pool, m: Model, x: seq<QueuedRequest>, r: QueuedRequest,
                         id: Id, b: Pool)
    requires r.model == m && PendingOf(r, m).id != ""
    requires MayServe(policy, a.providers, clock.now, m, PendingOf(r, m), {}, id)
    requires b == a.(providers := a.providers[id := Reserved(a.providers[id], PendingOf(r, m))])
    ensures Simulated(policy, clock, a, x + [r], b, x)
  {
    hide Sound, QueueOf, Held, IdsOf, Follows, PendingOf, Reserved, Candidates;
    var e := Requests(ReserveHeld(r.id, m, Some(id)));
    forall s | Mirrors(policy, clock, s, a, x + [r]) ensures Follows(policy, clock, s, x + [r], b, x) {
      HeldLess(s.hand, x, r);
      OneStep(policy, clock, s, e, x + [r], b, x);
    }
  }

  lemma PutBackSimulated(policy: Policy, clock: Clock, a: Pool, x: seq<QueuedRequest>, r: QueuedRequest, b: Pool)
    requires b == a.(queues := a.queues[r.model := [r] + QueueOf(a.queues, r.model)])
    ensures Simulated(policy, clock, a, x + [r], b, x)
  {
    forall s | Mirrors(policy, clock, s, a, x + [r]) ensures Follows(policy, clock, s, x + [r], b, x) {
      HeldLess(s.hand, x, r);
      UpdatedQueue(s.queues, a.queues, r.model, [r] + QueueOf(a.queues, r.model));
      assert QueueOf(s.queues, r.model) == QueueOf(a.queues, r.model);
      hide Sound, QueueOf, Held, IdsOf, Follows;
      OneStep(policy, clock, s, Requests(PutBack(r.id)), x + [r], b, x);
    }
  }

  /** Putting all set-aside requests back, the last one first. */
  lemma {:induction false} RequeueSimulated(policy: Policy, clock: Clock, a: Pool, m: Model, x: seq<QueuedRequest>,
                                            b: Pool)
    requires forall r :: r in x ==> r.model == m
    requires b.providers == a.providers
    requires b.queues == if x == [] then a.queues else a.queues[m := x + QueueOf(a.queues, m)]
    ensures Simulated(policy, clock, a, x, b, [])
    decreases |x|
  {
    hide Simulated;
    if x == [] {
      SimulatedQuiet(policy, clock, a, b, []);
    } else {
      var y, r := x[..|x| - 1], x[|x| - 1];
      var mid := a.(queues := a.queues[m := [r] + QueueOf(a.queues, m)]);
      assert y + [r] == x && y + ([r] + QueueOf(a.queues, m)) == x + QueueOf(a.queues, m);
      assert y == [] ==> mid.queues == b.queues;
      PutBackSimulated(policy, clock, a, y, r, mid);
      RequeueSimulated(policy, clock, mid, m, y, b);
      SimulatedThen(policy, clock, a, x, mid, y, b, []);
    }
  }

  /** Releasing a request that is not pending changes nothing. */
  lemma ReleaseNothing(ps: map<Id, Provider>, id: Id, k: ReqId)
    requires id in ps && k !in ps[id].pending
    ensures ps[id := Released(ps[id], k)] == ps
  {
    assert ps[id].pending - {k} == ps[id].pending;
  }

  lemma RemoveSimulated(policy: Policy, clock: Clock, a: Pool, id: Id, k: ReqId, b: Pool)
    requires id in a.providers && b == a.(providers := a.providers[id := Released(a.providers[id], k)])
    ensures Simulated(policy, clock, a, [], b, [])
  {
    if k !in a.providers[id].pending {
      ReleaseNothing(a.providers, id, k);
    }
    hide Sound, Held, IdsOf, Follows, Released, QueueOf, Bump;
    forall s | Mirrors(policy, clock, s, a, []) ensures Follows(policy, clock, s, [], b, []) {
      OneStep(policy, clock, s, Requests(Remove(id, k, Dispatcher)), [], b, []);
    }
  }

  lemma IdleSimulated(policy: Policy, clock: Clock, a: Pool, id: Id, b: Pool)
    requires id in a.providers && b == a.(providers := a.providers[id := Idled(a.providers[id])])
    ensures Simulated(policy, clock, a, [], b, [])
  {
    hide Sound, Held, IdsOf, Follows, Idled, QueueOf;
    forall s | Mirrors(policy, clock, s, a, []) ensures Follows(policy, clock, s, [], b, []) {
      OneStep(policy, clock, s, Fleets(Touch(id, BecomeIdle)), [], b, []);
    }
  }

  // ----- drains within a run -------------------------------------------------------------------

  /** A run continued by drain steps. */
  ghost predicate Continues(ss: seq<System>, es: seq<Event>, ss': seq<System>, es': seq<Event>) {
    && Run(ss', es') && ss <= ss' && es <= es'
    && forall i :: |es| <= i < |es'| ==> DrainStep(es'[i])
  }

  lemma RunSnoc(ss: seq<System>, es: seq<Event>, e: Event)
    requires Run(ss, es) && Enabled(ss[|es|], e)
    ensures Run(ss + [Step(ss[|es|], e)], es + [e])
  {
    hide Enabled, Step, Start;
    var ss', es' := ss + [Step(ss[|es|], e)], es + [e];
    forall i | 0 <= i < |es'| ensures Enabled(ss'[i], es'[i]) && ss'[i + 1] == Step(ss'[i], es'[i]) {
      if i < |es| {
        assert es'[i] == es[i] && Enabled(ss[i], es[i]);
      }
    }
  }

  lemma {:induction false} RunOn(ss: seq<System>, es: seq<Event>, fs: seq<Event>, t: System)
      returns (ss': seq<System>, es': seq<Event>)
    requires Run(ss, es) && Leads(ss[|es|], fs, t)
    ensures Continues(ss, es, ss', es') && ss'[|es'|] == t
    decreases |fs|
  {
    hide Run, DrainStep, Enabled, Step;
    assert |ss| == |es| + 1 by { RunLength(ss, es); }
    if fs == [] {
      ss', es' := ss, es;
    } else {
      RunSnoc(ss, es, fs[0]);
      var next := Step(ss[|es|], fs[0]);
      ss', es' := RunOn(ss + [next], es + [fs[0]], fs[1..], t);
      assert es'[|es|] == fs[0];
    }
  }

  lemma RunLength(ss: seq<System>, es: seq<Event>)
    requires Run(ss, es)
    ensures |ss| == |es| + 1
  {
  }

  lemma ShownQueue(s: System, p: Pool, m: Model, i: int)
    requires Sound(s) && SameQueues(s.queues, p.queues) && QueuedAt(p.queues, m, i)
    ensures WellQueued(p.queues[m][i], m)
    ensures p.queues[m][i].id in s.owner && s.owner[p.queues[m][i].id] == InQueue(m)
    ensures forall j :: 0 <= j < |p.queues[m]| && p.queues[m][j].id == p.queues[m][i].id ==> j == i
  {
    hide Invariant, HandOwned, PendingOwned, TakesOwned;
    assert QueueOf(s.queues, m) == p.queues[m];
    assert QueueOwned(p.queues[m], m, s.owner);
  }

  /** In every state of a run the pool is well formed: a drain may start there. */
  lemma ShownIsWellFormed(policy: Policy, clock: Clock, s: System, p: Pool)
    requires Sound(s) && Shows(policy, clock, s, p)
    ensures WellFormed(p)
  {
    InvariantIds(s);
    hide Invariant, QueuesOwned, HandOwned, TakesOwned, SameQueues, WellQueued;
    forall m, i | QueuedAt(p.queues, m, i) ensures WellQueued(p.queues[m][i], m) {
      ShownQueue(s, p, m, i);
    }
    forall m, i, n, j | QueuedAt(p.queues, m, i) && QueuedAt(p.queues, n, j) && p.queues[m][i].id == p.queues[n][j].id
      ensures m == n && i == j
    {
      ShownQueue(s, p, m, i);
      ShownQueue(s, p, n, j);
    }
    forall m, i, id | QueuedAt(p.queues, m, i) && id in p.providers
      ensures p.queues[m][i].id !in p.providers[id].pending
    {
      ShownQueue(s, p, m, i);
    }
  }

  lemma RunSound(ss: seq<System>, es: seq<Event>)
    requires Run(ss, es)
    ensures |ss| == |es| + 1 && Sound(ss[|es|])
  {
    RunLength(ss, es);
    hide Run, Invariant, Owned;
    RunInvariant(ss, es, |es|);
    RunOwned(ss, es, |es|);
  }

  lemma DrainReaches(policy: Policy, clock: Clock, s: System, a: Pool, b: Pool) returns (fs: seq<Event>, t: System)
    requires Sound(s) && Shows(policy, clock, s, a) && Simulated(policy, clock, a, [], b, [])
    ensures Leads(s, fs, t) && Shows(policy, clock, t, b) && t.hand == s.hand
  {
    hide Sound, Leads, Shows;
    assert Mirrors(policy, clock, s, a, []);
    assert Follows(policy, clock, s, [], b, []);
    t :| Reaches(s, t) && Mirrors(policy, clock, t, b, []) && Others(t, []) == Others(s, []);
    fs :| Leads(s, fs, t);
    assert t.hand - IdsOf([]) == t.hand && s.hand - IdsOf([]) == s.hand;
  }

  /**
   * A drain of the registry of a run's last state continues that run: what the registry's method
   * leaves behind is the state after some pops, reservations, put-backs and releases, in some order.
   */
  lemma DrainContinuesRun(ss: seq<System>, es: seq<Event>, policy: Policy, clock: Clock, a: Pool, b: Pool)
      returns (ss': seq<System>, es': seq<Event>)
    requires Run(ss, es) && Shows(policy, clock, ss[|es|], a) && Simulated(policy, clock, a, [], b, [])
    ensures WellFormed(a) && Continues(ss, es, ss', es')
    ensures Shows(policy, clock, ss'[|es'|], b) && ss'[|es'|].hand == ss[|es|].hand
  {
    RunSound(ss, es);
    hide Run, Sound, Leads, Shows, WellFormed, Simulated;
    ShownIsWellFormed(policy, clock, ss[|es|], a);
    var fs, t := DrainReaches(policy, clock, ss[|es|], a, b);
    ss', es' := RunOn(ss, es, fs, t);
    RunLength(ss', es');
  }
}
