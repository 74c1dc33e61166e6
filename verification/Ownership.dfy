/** Every request is in exactly one place, in every state of every run of the routing protocol. */
module Ownership {
  import opened Options
  import opened Fleet
  import opened Queueing
  import opened Draining
  import opened Membership
  import opened Protocol
  import opened RoutingLaws

  /** The containers agree with the owner label of every request. */
  ghost predicate Owned(s: System) {
    && QueuesOwned(s)
    && HandOwned(s.hand, s.owner)
    && PendingOwned(s.roster.providers, s.owner)
    && TakesOwned(s.takes, s.closes, s.owner)
  }

  ghost predicate HandOwned(hand: map<ReqId, QueuedRequest>, owner: map<ReqId, Owner>) {
    forall x :: x in hand ==> x in owner && owner[x] == InHand && hand[x].id == x && WellQueued(hand[x], hand[x].model)
  }

  ghost predicate PendingOwned(providers: map<Id, Provider>, owner: map<ReqId, Owner>) {
    forall id, x :: id in providers && x in providers[id].pending ==> x in owner && owner[x] == PendingAt(id)
  }

  ghost predicate TakesOwned(takes: map<ReqId, int>, closes: map<ReqId, int>, owner: map<ReqId, Owner>) {
    forall x ::
      && 0 <= Count(closes, x) <= Count(takes, x) <= 1
      && (Count(takes, x) == 1 ==> x in owner && owner[x] == Taken)
  }

  ghost predicate QueuesOwned(s: System) {
    forall m :: QueueOwned(QueueOf(s.queues, m), m, s.owner)
  }

  ghost predicate QueueOwned(q: seq<QueuedRequest>, m: Model, owner: map<ReqId, Owner>) {
    && (forall i :: 0 <= i < |q| ==> q[i].id in owner && owner[q[i].id] == InQueue(m) && WellQueued(q[i], m))
    && (forall i, j :: 0 <= i < j < |q| ==> q[i].id != q[j].id)
  }

  /** Relabelling requests that are not in a queue leaves that queue owned. */
  lemma QueueStaysOwned(q: seq<QueuedRequest>, m: Model, owner: map<ReqId, Owner>, owner': map<ReqId, Owner>)
    requires QueueOwned(q, m, owner)
    requires forall i :: 0 <= i < |q| ==> q[i].id in owner' && owner'[q[i].id] == owner[q[i].id]
    ensures QueueOwned(q, m, owner')
  {
  }

  lemma QueueOwnedSnoc(q: seq<QueuedRequest>, r: QueuedRequest, m: Model, owner: map<ReqId, Owner>)
    requires QueueOwned(q, m, owner) && r.id in owner && owner[r.id] == InQueue(m) && WellQueued(r, m)
    requires forall k :: k in q ==> k.id != r.id
    ensures QueueOwned(q + [r], m, owner)
  {
    forall i | 0 <= i < |q| ensures q[i] in q {
    }
  }

  lemma {:induction false} FreshOwned(q: seq<QueuedRequest>, m: Model, owner: map<ReqId, Owner>, now: int, maxWait: int)
    requires QueueOwned(q, m, owner)
    ensures QueueOwned(Fresh(q, now, maxWait), m, owner)
  {
    if q != [] {
      var n := |q| - 1;
      FreshOwned(q[..n], m, owner, now, maxWait);
      var f := Fresh(q[..n], now, maxWait);
      forall r | r in f ensures r.id != q[n].id {
        assert r in q[..n];
      }
      QueueOwnedSnoc(f, q[n], m, owner);
      hide QueueOwned;
      assert f + [] == f;
    }
  }

  lemma FreshNotExpired(q: seq<QueuedRequest>, m: Model, owner: map<ReqId, Owner>, now: int, maxWait: int)
    requires QueueOwned(q, m, owner)
    ensures forall r :: r in Fresh(q, now, maxWait) ==> r.id !in Expired(q, now, maxWait)
  {
    forall r | r in q && !Stale(r, now, maxWait) ensures r.id !in Expired(q, now, maxWait) {
      var i :| 0 <= i < |q| && q[i] == r;
      assert forall j :: 0 <= j < |q| && q[j].id == q[i].id ==> j == i;
    }
  }

  lemma BumpCount(m: map<ReqId, int>, ids: set<ReqId>, x: ReqId)
    ensures Count(Bump(m, ids), x) == Count(m, x) + if x in ids then 1 else 0
  {
  }

  lemma OwnedEdit(s: System, t: System)
    requires Owned(s)
    requires t == s.(roster := t.roster, clock := t.clock, connected := t.connected, outcomes := t.outcomes,
                     trackers := t.trackers, sent := t.sent, answers := t.answers, spent := t.spent)
    requires forall id :: id in t.roster.providers ==>
               t.roster.providers[id].pending ==
               (if id in s.roster.providers then s.roster.providers[id].pending else map[])
    ensures Owned(t)
  {
  }

  lemma PendingAdded(ps: map<Id, Provider>, owner: map<ReqId, Owner>, id: Id, pr: Pending)
    requires PendingOwned(ps, owner) && id in ps
    requires pr.id in owner ==> owner[pr.id] == InHand
    ensures PendingOwned(ps[id := Reserved(ps[id], pr)], owner[pr.id := PendingAt(id)])
  {
    assert Reserved(ps[id], pr).pending.Keys == ps[id].pending.Keys + {pr.id};
    hide Reserved;
  }

  /** Giving one request that is not queued, taken or pending a pending label leaves the rest as it is. */
  lemma OwnedRelabelled(s: System, pr: Pending, id: Id)
    requires Owned(s) && id in s.roster.providers
    requires pr.id in s.owner ==> s.owner[pr.id] == InHand
    ensures var t := ReserveStep(s, pr, Some(id));
      && QueuesOwned(t) && PendingOwned(t.roster.providers, t.owner)
      && TakesOwned(t.takes, t.closes, t.owner) && HandOwned(s.hand - {pr.id}, t.owner)
  {
    PendingAdded(s.roster.providers, s.owner, id, pr);
    hide PendingOwned, Reserved;
    var t := ReserveStep(s, pr, Some(id));
    forall m ensures QueueOwned(QueueOf(t.queues, m), m, t.owner) {
      assert QueueOwned(QueueOf(s.queues, m), m, s.owner);
      QueueStaysOwned(QueueOf(s.queues, m), m, s.owner, t.owner);
    }
    hide QueueOwned, QueueOf;
  }

  lemma OwnedReserve(s: System, pr: Pending, id: Id)
    requires Owned(s) && id in s.roster.providers && pr.id !in s.owner
    ensures Owned(ReserveStep(s, pr, Some(id)))
  {
    OwnedRelabelled(s, pr, id);
    assert s.hand - {pr.id} == s.hand;
    hide QueuesOwned, PendingOwned, HandOwned, TakesOwned;
  }

  lemma OwnedReserveHeld(s: System, x: ReqId, pr: Pending, chosen: Option<Id>)
    requires Owned(s) && x in s.hand && pr.id == x
    requires chosen.Some? ==> chosen.value in s.roster.providers
    ensures Owned(ReserveHeldStep(s, x, pr, chosen))
  {
    if chosen.Some? {
      OwnedRelabelled(s, pr, chosen.value);
    }
    hide QueueOwned, PendingOwned, HandOwned, TakesOwned;
  }

  /** Taking a set of requests that are pending at one provider, which must no longer hold them. */
  lemma OwnedTake(s: System, t: System, id: Id, ids: set<ReqId>)
    requires Owned(s) && id in s.roster.providers && ids <= s.roster.providers[id].pending.Keys
    requires t == s.(roster := t.roster, owner := t.owner, takes := Bump(s.takes, ids), closes := t.closes)
    requires t.owner.Keys == s.owner.Keys
    requires forall x :: x in s.owner ==> t.owner[x] == if x in ids then Taken else s.owner[x]
    requires t.closes == s.closes || t.closes == Bump(s.closes, ids)
    requires forall k :: k in t.roster.providers ==>
               && k in s.roster.providers
               && t.roster.providers[k].pending.Keys ==
                  s.roster.providers[k].pending.Keys - if k == id then ids else {}
    ensures Owned(t)
  {
    TakesBumped(s, t, id, ids);
    QueuesUntaken(s, t.owner, id, ids);
    hide QueueOwned, QueueOf, Bump, TakesOwned;
  }

  /** Queued requests are pending nowhere, so relabelling pending requests leaves the queues owned. */
  lemma QueuesUntaken(s: System, owner: map<ReqId, Owner>, id: Id, ids: set<ReqId>)
    requires Owned(s) && id in s.roster.providers && ids <= s.roster.providers[id].pending.Keys
    requires owner.Keys == s.owner.Keys
    requires forall x :: x in s.owner ==> owner[x] == if x in ids then Taken else s.owner[x]
    ensures forall m :: QueueOwned(QueueOf(s.queues, m), m, owner)
  {
    hide HandOwned, TakesOwned;
    forall m ensures QueueOwned(QueueOf(s.queues, m), m, owner) {
      assert QueueOwned(QueueOf(s.queues, m), m, s.owner);
      QueueStaysOwned(QueueOf(s.queues, m), m, s.owner, owner);
    }
  }

  lemma TakesBumped(s: System, t: System, id: Id, ids: set<ReqId>)
    requires Owned(s) && id in s.roster.providers && ids <= s.roster.providers[id].pending.Keys
    requires t.takes == Bump(s.takes, ids) && (t.closes == s.closes || t.closes == Bump(s.closes, ids))
    requires t.owner.Keys == s.owner.Keys
    requires forall x :: x in s.owner ==> t.owner[x] == if x in ids then Taken else s.owner[x]
    ensures TakesOwned(t.takes, t.closes, t.owner)
  {
    hide QueuesOwned, HandOwned;
    forall x
      ensures 0 <= Count(t.closes, x) <= Count(t.takes, x) <= 1
      ensures Count(t.takes, x) == 1 ==> x in t.owner && t.owner[x] == Taken
    {
      BumpCount(s.takes, ids, x);
      BumpCount(s.closes, ids, x);
      hide Bump;
      if x in ids {
        assert x in s.roster.providers[id].pending && s.owner[x] == PendingAt(id);
      }
    }
  }

  lemma OwnedRemove(s: System, id: Id, x: ReqId, taker: Taker)
    requires Owned(s)
    ensures Owned(RemoveStep(s, id, x, taker))
  {
    if id in s.roster.providers && x in s.roster.providers[id].pending {
      OwnedTake(s, RemoveStep(s, id, x, taker), id, {x});
    }
    hide Owned;
  }

  lemma OwnedLeave(s: System, id: Id)
    requires Owned(s)
    ensures Owned(LeaveStep(s, id))
  {
    if id in s.roster.providers {
      hide DecAll, Bump, Owned;
      OwnedTake(s, LeaveStep(s, id), id, s.roster.providers[id].pending.Keys);
    }
  }

  /** Changing one queue, and labels of that queue's requests only. */
  lemma OwnedQueueChange(s: System, t: System, m: Model)
    requires Owned(s)
    requires t == s.(queues := t.queues, owner := t.owner)
    requires forall n :: n != m ==> QueueOf(t.queues, n) == QueueOf(s.queues, n)
    requires s.owner.Keys <= t.owner.Keys
    requires forall x :: x in s.owner && s.owner[x] != InQueue(m) ==> t.owner[x] == s.owner[x]
    requires QueueOwned(QueueOf(t.queues, m), m, t.owner)
    ensures Owned(t)
  {
    forall n ensures QueueOwned(QueueOf(t.queues, n), n, t.owner) {
      if n != m {
        QueueStaysOwned(QueueOf(s.queues, n), n, s.owner, t.owner);
      }
    }
  }

  lemma OwnedClean(s: System, m: Model)
    requires Owned(s)
    ensures Owned(CleanStep(s, m))
  {
    var q, t := QueueOf(s.queues, m), CleanStep(s, m);
    assert QueueOwned(q, m, s.owner);
    FreshOwned(q, m, s.owner, s.clock, s.maxWait);
    FreshNotExpired(q, m, s.owner, s.clock, s.maxWait);
    var f := Fresh(q, s.clock, s.maxWait);
    assert forall i :: 0 <= i < |f| ==> f[i] in f;
    QueueStaysOwned(f, m, s.owner, t.owner);
    OwnedQueueChange(s, t, m);
  }

  lemma OwnedAppend(s: System, r: QueuedRequest)
    requires Owned(s) && r.id !in s.owner && (r.pending.Some? ==> r.pending.value.id == r.id)
    ensures Owned(AppendStep(s, r))
  {
    var q, t := QueueOf(s.queues, r.model), AppendStep(s, r);
    assert QueueOwned(q, r.model, s.owner);
    OwnedQueueChange(s, t, r.model);
  }

  lemma OwnedWithdraw(s: System, m: Model, i: nat)
    requires Owned(s) && i < |QueueOf(s.queues, m)|
    ensures Owned(WithdrawStep(s, m, i))
  {
    var q, t := QueueOf(s.queues, m), WithdrawStep(s, m, i);
    assert QueueOwned(q, m, s.owner);
    OwnedQueueChange(s, t, m);
  }

  /** What is left of a queue once a prefix is dropped or popped, relabelled. */
  lemma SuffixOwned(q: seq<QueuedRequest>, m: Model, owner: map<ReqId, Owner>, n: nat, owner': map<ReqId, Owner>)
    requires QueueOwned(q, m, owner) && n <= |q|
    requires forall x :: x in owner && x !in IdsOf(q[..n]) ==> x in owner' && owner'[x] == owner[x]
    ensures QueueOwned(q[n..], m, owner')
  {
    forall i | n <= i < |q| ensures q[i].id !in IdsOf(q[..n]) {
      assert forall j :: 0 <= j < n ==> q[..n][j] == q[j];
    }
    assert QueueOwned(q[n..], m, owner);
  }

  lemma OwnedExpire(s: System, m: Model, n: nat)
    requires Owned(s) && n <= |QueueOf(s.queues, m)|
    ensures var q := QueueOf(s.queues, m);
      Owned(s.(queues := s.queues[m := q[n..]], owner := Relabel(s.owner, IdsOf(q[..n]), Dropped)))
  {
    var q := QueueOf(s.queues, m);
    assert QueueOwned(q, m, s.owner);
    var t := s.(queues := s.queues[m := q[n..]], owner := Relabel(s.owner, IdsOf(q[..n]), Dropped));
    SuffixOwned(q, m, s.owner, n, t.owner);
    PrefixLabels(q, m, s.owner, n);
    OwnedQueueChange(s, t, m);
  }

  lemma PrefixLabels(q: seq<QueuedRequest>, m: Model, owner: map<ReqId, Owner>, n: nat)
    requires QueueOwned(q, m, owner) && n <= |q|
    ensures forall x :: x in IdsOf(q[..n]) ==> x in owner && owner[x] == InQueue(m)
  {
    assert forall j :: 0 <= j < n ==> q[..n][j] == q[j];
  }

  /** Moving the head of a queue into some drain's hand. */
  lemma OwnedTakeHead(s: System, m: Model)
    requires Owned(s) && QueueOf(s.queues, m) != []
    ensures var q := QueueOf(s.queues, m);
      Owned(s.(queues := s.queues[m := q[1..]], hand := s.hand[q[0].id := Prepared(q[0], m)],
          owner := s.owner[q[0].id := InHand]))
  {
    var q := QueueOf(s.queues, m);
    assert QueueOwned(q, m, s.owner);
    var t := s.(queues := s.queues[m := q[1..]], hand := s.hand[q[0].id := Prepared(q[0], m)],
        owner := s.owner[q[0].id := InHand]);
    assert q[..1] == [q[0]];
    assert IdsOf(q[..1]) == {q[0].id};
    SuffixOwned(q, m, s.owner, 1, t.owner);
    OwnedQueueChange(s, t.(hand := s.hand), m);
    assert q[0].id !in s.hand && WellQueued(Prepared(q[0], m), m);
    hide QueuesOwned, PendingOwned, TakesOwned, Prepared, IdsOf, QueueOwned;
  }

  lemma OwnedPop(s: System, m: Model)
    requires Owned(s)
    ensures Owned(PopStep(s, m))
  {
    var q := QueueOf(s.queues, m);
    var n := FirstFresh(q, s.clock, s.maxWait);
    OwnedExpire(s, m, n);
    hide Owned, Relabel, IdsOf, FirstFresh, Prepared, QueueOf;
    Requeued(s.queues, m, q[n..], if n < |q| then q[n + 1..] else []);
    var t := s.(queues := s.queues[m := q[n..]], owner := Relabel(s.owner, IdsOf(q[..n]), Dropped));
    if n < |q| {
      OwnedTakeHead(t, m);
      assert q[n..][0] == q[n] && q[n..][1..] == q[n + 1..];
    } else {
      assert q[n..] == [];
    }
  }

  lemma OwnedPutBack(s: System, x: ReqId)
    requires Owned(s) && x in s.hand
    ensures Owned(PutBackStep(s, x))
  {
    var r, t := s.hand[x], PutBackStep(s, x);
    var q := QueueOf(s.queues, r.model);
    assert QueueOwned(q, r.model, s.owner);
    assert QueueOwned([r] + q, r.model, t.owner);
    forall n ensures QueueOwned(QueueOf(t.queues, n), n, t.owner) {
      if n != r.model {
        QueueStaysOwned(QueueOf(s.queues, n), n, s.owner, t.owner);
      }
    }
  }

  lemma JoinOwned(s: System, id: Id, models: seq<Model>, msg: RegisterMessage)
    requires id !in s.connected && Owned(s) && IdsMatch(s)
    ensures Owned(JoinStep(s, NewProvider(id, models, msg)))
  {
    hide Owned, IncAll, NewProvider;
    OwnedEdit(s, JoinStep(s, NewProvider(id, models, msg)));
  }

  lemma UntrustOwned(s: System, id: Id)
    requires Owned(s)
    ensures Owned(s.(roster := Distrusted(s.roster, id)))
  {
    hide Owned, DecAll;
    OwnedEdit(s, s.(roster := Distrusted(s.roster, id)));
  }

  lemma TouchOwned(s: System, id: Id, change: Change)
    requires Owned(s)
    ensures Owned(TouchStep(s, id, change))
  {
    hide Owned, Touched, Judged, SpentBy;
    if id in s.roster.providers {
      TouchedKeeps(s.roster.providers[id], change, s.clock);
    }
    OwnedEdit(s, TouchStep(s, id, change));
  }

  lemma FleetOwnership(s: System, f: FleetEvent)
    requires Enabled(s, Fleets(f)) && Owned(s) && IdsMatch(s)
    ensures Owned(FleetStep(s, f))
  {
    hide Owned, JoinStep, LeaveStep, TouchStep, Distrusted, ChangeEnabled, IdsMatch;
    match f
    case Join(id, models, msg) => JoinOwned(s, id, models, msg);
    case Leave(id) => OwnedLeave(s, id);
    case Untrust(id) => UntrustOwned(s, id);
    case Touch(id, change) => TouchOwned(s, id, change);
  }

  lemma RequestOwnership(s: System, q: RequestEvent)
    requires RequestEnabled(s, q) && Owned(s)
    ensures Owned(RequestStep(s, q))
  {
    hide Owned, ReserveHeldStep, RemoveStep, CleanStep, AppendStep, WithdrawStep, PopStep, PutBackStep, MayServe,
        Reservable, PendingOf;
    match q
    case Reserve(model, pr, exclude, chosen) =>
      if chosen.Some? && chosen.value in s.roster.providers {
        OwnedReserve(s, Normalize(pr, model), chosen.value);
      }
    case ReserveHeld(x, model, chosen) =>
      HeldId(s, x, model);
      if chosen.Some? {
        ChosenHasRoom(s, model, PendingOf(s.hand[x], model), {}, chosen);
      }
      OwnedReserveHeld(s, x, PendingOf(s.hand[x], model), chosen);
    case Remove(id, x, taker) => OwnedRemove(s, id, x, taker);
    case Clean(model) => OwnedClean(s, model);
    case Append(r) => OwnedAppend(s, r);
    case Withdraw(model, i) => OwnedWithdraw(s, model, i);
    case Pop(model) => OwnedPop(s, model);
    case PutBack(x) => OwnedPutBack(s, x);
  }

  lemma OwnershipStep(s: System, e: Event)
    requires Enabled(s, e) && Owned(s) && IdsMatch(s)
    ensures Owned(Step(s, e))
  {
    hide RequestEnabled, RequestStep, TrackerStep, FleetStep, Owned, ChangeEnabled, IdsMatch;
    match e
    case Tick(_) => OwnedEdit(s, Step(s, e));
    case Fleets(f) => FleetOwnership(s, f);
    case Trackers(t) =>
      TrackerKeeps(s, t);
      OwnedEdit(s, Step(s, e));
    case Requests(q) => RequestOwnership(s, q);
  }

  lemma HeldId(s: System, x: ReqId, model: Model)
    requires Owned(s) && x in s.hand
    ensures PendingOf(s.hand[x], model).id == x
  {
  }

  // ----- every run ---------------------------------------------------------------------------

  lemma {:induction false} RunOwned(ss: seq<System>, es: seq<Event>, i: nat)
    requires Run(ss, es) && i < |ss|
    ensures Owned(ss[i])
  {
    if i == 0 {
      hide Step, Enabled;
      assert Owned(ss[0]);
    } else {
      RunOwned(ss, es, i - 1);
      RunInvariant(ss, es, i - 1);
      hide Owned, Step, Enabled, CountersMatch, NoncesOnce, ChallengesSound, StampsPast, WithinCapacity, IdsMatch;
      assert Enabled(ss[i - 1], es[i - 1]);
      OwnershipStep(ss[i - 1], es[i - 1]);
    }
  }

  /** Queued ids are distinct, within and across the models' queues. */
  ghost predicate QueuedUnique(queues: Queues) {
    forall m, i, n, j ::
      QueuedAt(queues, m, i) && QueuedAt(queues, n, j) && queues[m][i].id == queues[n][j].id ==> m == n && i == j
  }

  /** A queued request is in nobody's hand, pending nowhere and not taken. */
  ghost predicate QueuedOnly(s: System, x: ReqId) {
    && x !in s.hand
    && Count(s.takes, x) == 0
    && forall id :: id in s.roster.providers ==> x !in s.roster.providers[id].pending
  }

  /** A request pending at a provider is in nobody's hand, pending at no other provider and not taken. */
  ghost predicate PendingOnly(s: System, id: Id, x: ReqId) {
    && x !in s.hand
    && Count(s.takes, x) == 0
    && forall k :: k in s.roster.providers && x in s.roster.providers[k].pending ==> k == id
  }

  /** A request is in at most one place, and is taken, and has its channels closed, at most once. */
  ghost predicate SingleOwner(s: System) {
    && QueuedUnique(s.queues)
    && (forall m, i :: QueuedAt(s.queues, m, i) ==> QueuedOnly(s, s.queues[m][i].id))
    && (forall id, x :: id in s.roster.providers && x in s.roster.providers[id].pending ==> PendingOnly(s, id, x))
    && (forall x :: x in s.hand ==> Count(s.takes, x) == 0)
    && (forall x :: 0 <= Count(s.closes, x) <= Count(s.takes, x) <= 1)
  }

  lemma SingleOwnership(ss: seq<System>, es: seq<Event>, i: nat)
    requires Run(ss, es) && i < |ss|
    ensures SingleOwner(ss[i])
  {
    RunOwned(ss, es, i);
    OwnedMeansSingle(ss[i]);
  }

  lemma QueuedLabel(s: System, m: Model, i: int)
    requires Owned(s) && QueuedAt(s.queues, m, i)
    ensures s.queues[m][i].id in s.owner && s.owner[s.queues[m][i].id] == InQueue(m)
  {
    assert QueueOwned(QueueOf(s.queues, m), m, s.owner);
  }

  lemma QueuedOnce(s: System, m: Model, i: int, n: Model, j: int)
    requires Owned(s) && QueuedAt(s.queues, m, i) && QueuedAt(s.queues, n, j) && s.queues[m][i].id == s.queues[n][j].id
    ensures m == n && i == j
  {
    QueuedLabel(s, m, i);
    QueuedLabel(s, n, j);
    assert QueueOwned(QueueOf(s.queues, m), m, s.owner);
  }

  lemma QueuedIsOnly(s: System, m: Model, i: int)
    requires Owned(s) && QueuedAt(s.queues, m, i)
    ensures QueuedOnly(s, s.queues[m][i].id)
  {
    QueuedLabel(s, m, i);
    hide QueuesOwned;
    assert Count(s.takes, s.queues[m][i].id) != 1;
  }

  lemma PendingIsOnly(s: System, id: Id, x: ReqId)
    requires Owned(s) && id in s.roster.providers && x in s.roster.providers[id].pending
    ensures PendingOnly(s, id, x)
  {
    hide QueuesOwned;
    assert s.owner[x] == PendingAt(id);
    forall k | k in s.roster.providers && x in s.roster.providers[k].pending ensures k == id {
      assert s.owner[x] == PendingAt(k);
    }
    assert Count(s.takes, x) != 1;
  }

  lemma OwnedMeansSingle(s: System)
    requires Owned(s)
    ensures SingleOwner(s)
  {
    forall m, i | QueuedAt(s.queues, m, i) ensures QueuedOnly(s, s.queues[m][i].id) {
      QueuedIsOnly(s, m, i);
    }
    forall m, i, n, j | QueuedAt(s.queues, m, i) && QueuedAt(s.queues, n, j) && s.queues[m][i].id == s.queues[n][j].id
      ensures m == n && i == j
    {
      QueuedOnce(s, m, i, n, j);
    }
    forall id, x | id in s.roster.providers && x in s.roster.providers[id].pending ensures PendingOnly(s, id, x) {
      PendingIsOnly(s, id, x);
    }
    hide QueuesOwned, PendingOwned, QueuedOnly, PendingOnly;
    forall x | x in s.hand ensures Count(s.takes, x) == 0 {
      assert s.owner[x] == InHand && Count(s.takes, x) != 1;
    }
  }
}
