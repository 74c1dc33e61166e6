/**
 * Response chunks on their way from a provider's connection to the waiting consumer. The
 * connection's read loop looks the request up, decrypts, and only then sends on the request's
 * channel; between the two, other goroutines may run, and one of them may close the channel.
 */
module Streaming {
  import opened Options
  import opened Fleet
  import opened Queueing
  import opened Draining
  import opened Membership
  import opened Protocol
  import opened RoutingLaws
  import opened Ownership

  /** `chunks` holds, per connection, the request whose chunk its read loop is working on. */
  datatype Stream = Stream(sys: System, chunks: map<Id, ReqId>)

  datatype Act =
    | Base(e: Event)
    | Look(id: Id, x: ReqId)      // the read loop finds the pending request, if any
    | Deliver(id: Id)             // and sends the chunk
    | Discard(id: Id)             // or rejects it

  /** The event is handled by this connection's read loop and closes the request's channels. */
  predicate ClosesOnLoop(e: Event, id: Id) {
    e.Requests? && e.q.Remove? && e.q.id == id && e.q.taker != Dispatcher
  }

  /** A read loop handles one message at a time. */
  ghost predicate ActEnabled(s: Stream, a: Act) {
    match a
    case Base(e) => Enabled(s.sys, e) && forall id :: id in s.chunks ==> !ClosesOnLoop(e, id)
    case Look(id, x) => id !in s.chunks
    case Deliver(id) => id in s.chunks
    case Discard(id) => id in s.chunks
  }

  predicate PendingOn(sys: System, id: Id, x: ReqId) {
    id in sys.roster.providers && x in sys.roster.providers[id].pending
  }

  ghost function ActStep(s: Stream, a: Act): Stream
    requires ActEnabled(s, a)
  {
    match a
    case Base(e) => s.(sys := Step(s.sys, e))
    case Look(id, x) => if PendingOn(s.sys, id, x) then s.(chunks := s.chunks[id := x]) else s
    case Deliver(id) => s.(chunks := s.chunks - {id})
    case Discard(id) => s.(chunks := s.chunks - {id})
  }

  ghost predicate StreamRun(ss: seq<Stream>, acts: seq<Act>) {
    && |ss| == |acts| + 1
    && ss[0] == Stream(Start(ss[0].sys.policy, ss[0].sys.maxWait, ss[0].sys.clock), map[])
    && forall i :: 0 <= i < |acts| ==> ActEnabled(ss[i], acts[i]) && ss[i + 1] == ActStep(ss[i], acts[i])
  }

  // ----- the label of a request that was once pending ------------------------------------------

  /** Pending on this provider, or already taken from it. */
  ghost predicate Bound(sys: System, id: Id, x: ReqId) {
    x in sys.owner && (sys.owner[x] == PendingAt(id) || sys.owner[x] == Taken)
  }

  /** The step disconnects the provider while the request is still pending on it. */
  predicate Evicts(sys: System, e: Event, id: Id, x: ReqId) {
    e == Fleets(Leave(id)) && PendingOn(sys, id, x)
  }

  ghost predicate BoundStep(sys: System, t: System, id: Id, x: ReqId, evicted: bool) {
    Bound(t, id, x) && Count(t.closes, x) == Count(sys.closes, x) + if evicted then 1 else 0
  }

  lemma PendingLabel(s: System, k: Id, y: ReqId)
    requires Owned(s) && PendingOn(s, k, y)
    ensures y in s.owner && s.owner[y] == PendingAt(k)
  {
    hide QueuesOwned, HandOwned, TakesOwned;
  }

  lemma RelabelAt(owner: map<ReqId, Owner>, ids: set<ReqId>, to: Owner, x: ReqId)
    requires x in owner
    ensures x in Relabel(owner, ids, to) && Relabel(owner, ids, to)[x] == if x in ids then to else owner[x]
  {
  }

  lemma LeaveBound(s: System, k: Id, id: Id, x: ReqId)
    requires Owned(s) && Bound(s, id, x)
    ensures BoundStep(s, LeaveStep(s, k), id, x, k == id && PendingOn(s, id, x))
  {
    hide Owned, Left, Bump, Relabel, Count;
    if k in s.roster.providers {
      var t := LeaveStep(s, k);
      var failed := s.roster.providers[k].pending.Keys;
      if x in failed {
        PendingLabel(s, k, x);
      }
      BumpCount(s.closes, failed, x);
      RelabelAt(s.owner, failed, Taken, x);
    }
  }

  lemma FleetBound(s: System, f: FleetEvent, id: Id, x: ReqId)
    requires Enabled(s, Fleets(f)) && Owned(s) && Bound(s, id, x)
    ensures BoundStep(s, FleetStep(s, f), id, x, Evicts(s, Fleets(f), id, x))
  {
    hide Owned, LeaveStep, Joined, Distrusted, TouchedRoster, Judged, SpentBy, NewProvider, ChangeEnabled;
    match f
    case Leave(k) => LeaveBound(s, k, id, x);
    case Join(k, models, msg) =>
    case Untrust(k) =>
    case Touch(k, change) =>
  }

  lemma RemoveBound(s: System, k: Id, y: ReqId, taker: Taker, id: Id, x: ReqId)
    requires Owned(s) && Bound(s, id, x) && (k == id ==> taker == Dispatcher)
    ensures BoundStep(s, RemoveStep(s, k, y, taker), id, x, false)
  {
    hide QueuesOwned, HandOwned, TakesOwned, Released;
    if PendingOn(s, k, y) {
      assert s.owner[y] == PendingAt(k);
      BumpCount(s.closes, {y}, x);
      hide Bump;
    }
  }

  lemma NotQueued(s: System, m: Model, id: Id, x: ReqId)
    requires Owned(s) && Bound(s, id, x)
    ensures forall i :: 0 <= i < |QueueOf(s.queues, m)| ==> QueueOf(s.queues, m)[i].id != x
    ensures x !in s.hand
  {
    assert QueueOwned(QueueOf(s.queues, m), m, s.owner);
    hide PendingOwned, TakesOwned;
  }

  lemma CleanBound(s: System, m: Model, id: Id, x: ReqId)
    requires Owned(s) && Bound(s, id, x)
    ensures BoundStep(s, CleanStep(s, m), id, x, false)
  {
    NotQueued(s, m, id, x);
    var q := QueueOf(s.queues, m);
    RelabelAt(s.owner, Expired(q, s.clock, s.maxWait), Dropped, x);
    hide Owned, Count, QueueOf, Fresh, Relabel;
  }

  lemma WithdrawBound(s: System, m: Model, i: nat, id: Id, x: ReqId)
    requires Owned(s) && Bound(s, id, x) && i < |QueueOf(s.queues, m)|
    ensures BoundStep(s, WithdrawStep(s, m, i), id, x, false)
  {
    hide Owned, Count, QueueOf;
    NotQueued(s, m, id, x);
  }

  lemma PutBackBound(s: System, y: ReqId, id: Id, x: ReqId)
    requires Owned(s) && Bound(s, id, x) && y in s.hand
    ensures BoundStep(s, PutBackStep(s, y), id, x, false)
  {
    hide Owned, Count, QueueOf;
    NotQueued(s, "", id, x);
  }

  lemma AppendBound(s: System, r: QueuedRequest, id: Id, x: ReqId)
    requires Bound(s, id, x) && r.id !in s.owner
    ensures BoundStep(s, AppendStep(s, r), id, x, false)
  {
    hide Count, QueueOf;
  }

  lemma PopOwnerAt(owner: map<ReqId, Owner>, q: seq<QueuedRequest>, n: nat, x: ReqId)
    requires n <= |q| && x in owner && forall i :: 0 <= i < |q| ==> q[i].id != x
    ensures x in PopOwner(owner, q, n) && PopOwner(owner, q, n)[x] == owner[x]
  {
    assert x !in IdsOf(q[..n]) by {
      assert forall i :: 0 <= i < n ==> q[..n][i] == q[i];
    }
    RelabelAt(owner, IdsOf(q[..n]), Dropped, x);
    hide IdsOf, Relabel;
  }

  lemma PopBound(s: System, m: Model, id: Id, x: ReqId)
    requires Owned(s) && Bound(s, id, x)
    ensures BoundStep(s, PopStep(s, m), id, x, false)
  {
    NotQueued(s, m, id, x);
    hide Owned, Count, QueueOf, FirstFresh, PopOwner, Prepared;
    var q := QueueOf(s.queues, m);
    PopOwnerAt(s.owner, q, FirstFresh(q, s.clock, s.maxWait), x);
  }

  lemma QueueBound(s: System, q: RequestEvent, id: Id, x: ReqId)
    requires RequestEnabled(s, q) && Owned(s) && Bound(s, id, x)
    requires q.Clean? || q.Append? || q.Withdraw? || q.Pop? || q.PutBack?
    ensures BoundStep(s, RequestStep(s, q), id, x, false)
  {
    hide Owned, Bound, QueueOf, CleanStep, AppendStep, WithdrawStep, PopStep, PutBackStep, BoundStep, Count;
    match q
    case Clean(m) => CleanBound(s, m, id, x);
    case Append(r) => AppendBound(s, r, id, x);
    case Withdraw(m, i) => WithdrawBound(s, m, i, id, x);
    case Pop(m) => PopBound(s, m, id, x);
    case PutBack(y) => PutBackBound(s, y, id, x);
  }

  lemma ReserveStepBound(s: System, pr: Pending, chosen: Option<Id>, id: Id, x: ReqId)
    requires Bound(s, id, x) && pr.id != x
    ensures BoundStep(s, ReserveStep(s, pr, chosen), id, x, false)
  {
    var t := ReserveStep(s, pr, chosen);
    hide Reserved, Count;
    assert t.closes == s.closes;
    assert t.owner == s.owner || t.owner == s.owner[pr.id := PendingAt(chosen.value)];
    hide ReserveStep;
  }

  lemma ReserveBound(s: System, q: RequestEvent, id: Id, x: ReqId)
    requires RequestEnabled(s, q) && Owned(s) && Bound(s, id, x) && (q.Reserve? || q.ReserveHeld?)
    ensures BoundStep(s, RequestStep(s, q), id, x, false)
  {
    NotQueued(s, "", id, x);
    if q.Reserve? {
      hide Owned, Chooses, QueueOf, ReserveStep, Count;
      ReserveStepBound(s, Normalize(q.pr, q.model), q.chosen, id, x);
    } else {
      HeldId(s, q.x, q.model);
      hide Owned, Chooses, QueueOf, ReserveStep, Count, PendingOf;
      ReserveStepBound(s.(hand := s.hand - {q.x}), PendingOf(s.hand[q.x], q.model), q.chosen, id, x);
    }
  }

  /** A bound request stays bound; of the steps a read loop lets in, only an eviction closes its channels. */
  lemma StepBound(s: System, e: Event, id: Id, x: ReqId)
    requires Enabled(s, e) && Owned(s) && Bound(s, id, x) && !ClosesOnLoop(e, id)
    ensures BoundStep(s, Step(s, e), id, x, Evicts(s, e, id, x))
  {
    match e
    case Tick(_) => hide Owned;
    case Fleets(f) =>
      hide Owned, FleetStep, Bound;
      FleetBound(s, f, id, x);
    case Trackers(t) =>
      hide Owned, TrackerStep;
      TrackerKeeps(s, t);
    case Requests(q) =>
      match q {
        case Remove(k, y, taker) =>
          hide Owned, RemoveStep, Bound;
          RemoveBound(s, k, y, taker, id, x);
        case Reserve(_, _, _, _) =>
          hide Owned, RequestEnabled, RequestStep, Bound;
          ReserveBound(s, q, id, x);
        case ReserveHeld(_, _, _) =>
          hide Owned, RequestEnabled, RequestStep, Bound;
          ReserveBound(s, q, id, x);
        case _ =>
          hide Owned, RequestEnabled, RequestStep, Bound;
          QueueBound(s, q, id, x);
      }
  }

  // ----- every run ------------------------------------------------------------------------------------

  ghost predicate StreamInvariant(s: Stream) {
    Invariant(s.sys) && Owned(s.sys) && forall id :: id in s.chunks ==> Bound(s.sys, id, s.chunks[id])
  }

  lemma PendingIsBound(s: System, id: Id, x: ReqId)
    requires Owned(s) && PendingOn(s, id, x)
    ensures Bound(s, id, x) && Count(s.closes, x) == 0
  {
    hide QueuesOwned, HandOwned;
    assert s.owner[x] == PendingAt(id);
    assert Count(s.takes, x) != 1;
  }

  lemma BaseKeeps(s: Stream, e: Event)
    requires ActEnabled(s, Base(e)) && StreamInvariant(s)
    ensures StreamInvariant(ActStep(s, Base(e)))
  {
    hide Invariant, Owned, Enabled, Step, Bound, ClosesOnLoop, Evicts;
    InvariantStep(s.sys, e);
    InvariantIds(s.sys);
    OwnershipStep(s.sys, e);
    forall id | id in s.chunks ensures Bound(Step(s.sys, e), id, s.chunks[id]) {
      StepBound(s.sys, e, id, s.chunks[id]);
    }
  }

  lemma ActKeeps(s: Stream, a: Act)
    requires ActEnabled(s, a) && StreamInvariant(s)
    ensures StreamInvariant(ActStep(s, a))
  {
    match a
    case Base(e) =>
      hide StreamInvariant, Step, Enabled;
      BaseKeeps(s, e);
    case Look(id, x) =>
      if PendingOn(s.sys, id, x) {
        PendingIsBound(s.sys, id, x);
      }
      hide Invariant, Owned, Bound;
    case Deliver(id) => hide Invariant, Owned, Bound;
    case Discard(id) => hide Invariant, Owned, Bound;
  }

  lemma {:induction false} StreamKeeps(ss: seq<Stream>, acts: seq<Act>, k: nat)
    requires StreamRun(ss, acts) && k < |ss|
    ensures StreamInvariant(ss[k])
  {
    hide StreamInvariant, ActStep, ActEnabled, Start;
    if k == 0 {
      StreamStart(ss[0].sys.policy, ss[0].sys.maxWait, ss[0].sys.clock);
    } else {
      StreamKeeps(ss, acts, k - 1);
      assert ActEnabled(ss[k - 1], acts[k - 1]);
      ActKeeps(ss[k - 1], acts[k - 1]);
    }
  }

  lemma StreamStart(policy: Policy, maxWait: int, clock: int)
    ensures StreamInvariant(Stream(Start(policy, maxWait, clock), map[]))
  {
    StartInvariant(policy, maxWait, clock);
    hide Invariant;
  }

  // ----- sends and closed channels -------------------------------------------------------------------------

  ghost predicate EvictedBetween(ss: seq<Stream>, acts: seq<Act>, i: int, j: int, id: Id, x: ReqId)
    requires |ss| == |acts| + 1 && 0 <= i && j <= |acts|
  {
    exists k :: i < k < j && acts[k].Base? && Evicts(ss[k].sys, acts[k].e, id, x)
  }

  /** The read loop found the request at step i and has not sent or rejected the chunk before step j. */
  ghost predicate Carries(ss: seq<Stream>, acts: seq<Act>, i: nat, j: nat, id: Id, x: ReqId) {
    && StreamRun(ss, acts) && i < j <= |acts|
    && acts[i] == Look(id, x) && PendingOn(ss[i].sys, id, x)
    && forall k :: i < k < j ==> acts[k] != Deliver(id) && acts[k] != Discard(id)
  }

  lemma CarriedStart(ss: seq<Stream>, acts: seq<Act>, i: nat, id: Id, x: ReqId)
    requires Carries(ss, acts, i, i + 1, id, x) && Owned(ss[i].sys)
    ensures id in ss[i + 1].chunks && ss[i + 1].chunks[id] == x && Count(ss[i + 1].sys.closes, x) == 0
    ensures !EvictedBetween(ss, acts, i, i + 1, id, x)
  {
    PendingIsBound(ss[i].sys, id, x);
    hide Owned, Bound, Evicts, Count, Start;
    assert ActEnabled(ss[i], acts[i]) && ss[i + 1] == ActStep(ss[i], acts[i]);
  }

  lemma CarriesBefore(ss: seq<Stream>, acts: seq<Act>, i: nat, j: nat, id: Id, x: ReqId)
    requires Carries(ss, acts, i, j, id, x)
    ensures i < j < |ss| && StreamInvariant(ss[j - 1]) && Owned(ss[j - 1].sys)
    ensures i < j - 1 ==> Carries(ss, acts, i, j - 1, id, x)
  {
    assert |ss| == |acts| + 1;
    hide StreamRun, Invariant, Owned, Bound, PendingOn;
    StreamKeeps(ss, acts, j - 1);
  }

  lemma {:induction false} CarriedUntil(ss: seq<Stream>, acts: seq<Act>, i: nat, j: nat, id: Id, x: ReqId)
    requires Carries(ss, acts, i, j, id, x)
    ensures id in ss[j].chunks && ss[j].chunks[id] == x
    ensures Count(ss[j].sys.closes, x) > 0 <==> EvictedBetween(ss, acts, i, j, id, x)
    ensures Count(ss[j].sys.closes, x) >= 0
  {
    hide *;
    CarriesBefore(ss, acts, i, j, id, x);
    if j == i + 1 {
      CarriedStart(ss, acts, i, id, x);
    } else {
      CarriedUntil(ss, acts, i, j - 1, id, x);
      CarriedStep(ss, acts, i, j - 1, id, x);
    }
  }

  lemma CarriedStep(ss: seq<Stream>, acts: seq<Act>, i: nat, j: nat, id: Id, x: ReqId)
    requires Carries(ss, acts, i, j + 1, id, x) && i < j && StreamInvariant(ss[j])
    requires id in ss[j].chunks && ss[j].chunks[id] == x && Count(ss[j].sys.closes, x) >= 0
    requires Count(ss[j].sys.closes, x) > 0 <==> EvictedBetween(ss, acts, i, j, id, x)
    ensures id in ss[j + 1].chunks && ss[j + 1].chunks[id] == x
    ensures Count(ss[j + 1].sys.closes, x) > 0 <==> EvictedBetween(ss, acts, i, j + 1, id, x)
    ensures Count(ss[j + 1].sys.closes, x) >= 0
  {
    hide Invariant, Owned, Step, Enabled, Start, Evicts, Count;
    var a := acts[j];
    assert ActEnabled(ss[j], a) && ss[j + 1] == ActStep(ss[j], a) && a != Deliver(id) && a != Discard(id);
    if a.Base? {
      StepBound(ss[j].sys, a.e, id, x);
      hide Bound;
      if Evicts(ss[j].sys, a.e, id, x) {
        assert EvictedBetween(ss, acts, i, j + 1, id, x);
      }
    }
    OneMore(ss, acts, i, j, id, x);
  }

  lemma OneMore(ss: seq<Stream>, acts: seq<Act>, i: nat, j: nat, id: Id, x: ReqId)
    requires |ss| == |acts| + 1 && i < j < |acts|
    ensures EvictedBetween(ss, acts, i, j + 1, id, x)
       <==> EvictedBetween(ss, acts, i, j, id, x) || (acts[j].Base? && Evicts(ss[j].sys, acts[j].e, id, x))
  {
    hide Evicts;
  }

  /**
   * A chunk is sent on a closed channel exactly when its provider was disconnected, with the
   * request still pending on it, after the read loop had looked the request up.
   */
  lemma SendMeetsClosed(ss: seq<Stream>, acts: seq<Act>, i: nat, j: nat, id: Id, x: ReqId)
    requires Carries(ss, acts, i, j, id, x) && j < |acts| && acts[j] == Deliver(id)
    ensures Count(ss[j].sys.closes, x) > 0 <==> EvictedBetween(ss, acts, i, j, id, x)
  {
    CarriedUntil(ss, acts, i, j, id, x);
  }

  lemma LeaveIsStep(s: System, id: Id)
    ensures Enabled(s, Fleets(Leave(id))) && Step(s, Fleets(Leave(id))) == LeaveStep(s, id)
  {
    hide LeaveStep;
  }

  lemma LeaveCloses(s: System, id: Id, x: ReqId)
    requires Owned(s) && PendingOn(s, id, x)
    ensures Enabled(s, Fleets(Leave(id))) && Count(Step(s, Fleets(Leave(id))).closes, x) == 1
  {
    hide Owned, LeaveStep, Enabled, Step, Bound, Count;
    LeaveIsStep(s, id);
    PendingIsBound(s, id, x);
    LeaveBound(s, id, id, x);
  }

  /** From every state with a pending request and an idle read loop, that can happen next. */
  lemma EvictionBeforeSend(s: Stream, id: Id, x: ReqId)
    requires StreamInvariant(s) && id !in s.chunks && PendingOn(s.sys, id, x)
    ensures var looked := ActStep(s, Look(id, x));
      && ActEnabled(looked, Base(Fleets(Leave(id))))
      && var evicted := ActStep(looked, Base(Fleets(Leave(id))));
         ActEnabled(evicted, Deliver(id)) && Count(evicted.sys.closes, x) == 1
  {
    hide Invariant, Owned, Enabled, Step, Bound, Count, PendingOn;
    LeaveCloses(s.sys, id, x);
  }
}
