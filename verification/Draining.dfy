/**
 * What a drain of the request queues may do to the fleet and the queues, and the
 * laws every drain obeys: nothing is lost or duplicated, order is kept, load only grows.
 */
module Draining {
  import opened Options
  import opened Fleet
  import opened Selection
  import opened Queueing
  import opened Sums

  /** The state a drain works on. */
  datatype Pool = Pool(
    providers: map<Id, Provider>,
    queues: Queues,
    done: set<ReqId>,
    responses: map<ReqId, Option<Id>>)

  // ----- preparing and placing one request -----------------------------------

  /** The defaults ReserveProviderEx fills in; a request without an id is left as it is. */
  function Normalize(pr: Pending, model: Model): (n: Pending)
    ensures n.id == pr.id && n.allowedSerials == pr.allowedSerials && n.promptTokens == pr.promptTokens
    ensures pr.id != "" ==> n.maxTokens > 0
  {
    if pr.id == "" then pr
    else pr.(model := if pr.model == "" then model else pr.model, maxTokens := TokensOrDefault(pr.maxTokens))
  }

  function PendingOf(r: QueuedRequest, model: Model): Pending {
    Normalize(if r.pending.Some? then r.pending.value else Pending(r.id, "", model, 0, DEFAULT_MAX_TOKENS, []), model)
  }

  function Prepared(r: QueuedRequest, model: Model): QueuedRequest {
    r.(pending := Some(PendingOf(r, model)))
  }

  /**
   * A queued request without a record of its own is served as one with its id, no prompt, no
   * serials and 256 tokens; a record only has its gaps filled.
   */
  lemma PreparedAs(r: QueuedRequest, model: Model)
    ensures r.pending.None? && r.id != "" ==> PendingOf(r, model) == Pending(r.id, "", model, 0, 256, [])
    ensures r.pending.Some? && r.pending.value.id != "" ==>
      var p, n := r.pending.value, PendingOf(r, model);
      && n == p.(model := n.model, maxTokens := n.maxTokens)
      && n.model == (if p.model != "" then p.model else model)
      && n.maxTokens == (if p.maxTokens > 0 then p.maxTokens else 256)
  {
  }

  lemma PreparedTwice(r: QueuedRequest, model: Model)
    ensures PendingOf(Prepared(r, model), model) == PendingOf(r, model)
    ensures Prepared(Prepared(r, model), model) == Prepared(r, model)
  {
  }

  /** A queue with every request prepared: the form in which queues are compared. */
  ghost function Canon(q: seq<QueuedRequest>, model: Model): seq<QueuedRequest> {
    seq(|q|, i requires 0 <= i < |q| => Prepared(q[i], model))
  }

  ghost predicate Choosable(policy: Policy, ps: map<Id, Provider>, now: int, model: Model, pr: Pending,
                            exclude: set<Id>, id: Id) {
    id in ps && id !in exclude && Eligible(policy, ps[id], now, model, pr)
  }

  ghost predicate Reservable(policy: Policy, ps: map<Id, Provider>, now: int, model: Model, pr: Pending,
                            exclude: set<Id>) {
    pr.id != "" && exists id :: Choosable(policy, ps, now, model, pr, exclude, id)
  }

  ghost function Candidates(policy: Policy, ps: map<Id, Provider>, now: int, model: Model, pr: Pending,
                            exclude: set<Id>): set<Candidate> {
    set id | id in ps && Choosable(policy, ps, now, model, pr, exclude, id) :: CandidateOf(policy, ps[id], model, pr)
  }

  /** id may be chosen: it is eligible and its candidate wins among all candidates. */
  ghost predicate MayServe(policy: Policy, ps: map<Id, Provider>, now: int, model: Model, pr: Pending,
                           exclude: set<Id>, id: Id) {
    && Choosable(policy, ps, now, model, pr, exclude, id)
    && Wins(CandidateOf(policy, ps[id], model, pr), Candidates(policy, ps, now, model, pr, exclude))
  }

  function Reserved(p: Provider, pr: Pending): Provider {
    p.(pending := p.pending[pr.id := pr.(provider := p.id)], status := if Routable(p.status) then Serving else p.status)
  }

  function Released(p: Provider, id: ReqId): Provider {
    p.(pending := p.pending - {id})
  }

  function Idled(p: Provider): Provider {
    if |p.pending| == 0 && Routable(p.status) then p.(status := Online) else p
  }

  /** Load on the fleet never turns an unplaceable request into a placeable one. */
  lemma LoadKeepsUnreservable(policy: Policy, a: map<Id, Provider>, b: map<Id, Provider>, now: int, model: Model,
                            pr: Pending, exclude: set<Id>)
    requires Loaded(a, b)
    requires Reservable(policy, b, now, model, pr, exclude)
    ensures Reservable(policy, a, now, model, pr, exclude)
  {
    var id :| Choosable(policy, b, now, model, pr, exclude, id);
    assert LoadedProvider(a[id], b[id]);
    LoadNeverHelps(policy, a[id], b[id], now, model, pr);
    assert Choosable(policy, a, now, model, pr, exclude, id);
  }

  // ----- well-formed pools -----------------------------------------------------

  ghost predicate QueuedAt(queues: Queues, m: Model, i: int) {
    m in queues && 0 <= i < |queues[m]|
  }

  /** Ids are unique among queued requests, and no queued request is also pending somewhere. */
  ghost predicate WellFormed(p: Pool) {
    && (forall id :: id in p.providers ==> p.providers[id].id == id)
    && (forall m, i :: QueuedAt(p.queues, m, i) ==> WellQueued(p.queues[m][i], m))
    && (forall m, i, n, j ::
          (QueuedAt(p.queues, m, i) && QueuedAt(p.queues, n, j) && p.queues[m][i].id == p.queues[n][j].id) ==>
            m == n && i == j)
    && (forall m, i, id ::
          QueuedAt(p.queues, m, i) && id in p.providers ==> p.queues[m][i].id !in p.providers[id].pending)
  }

  ghost predicate WellQueued(r: QueuedRequest, m: Model) {
    r.model == m && (r.pending.Some? ==> r.pending.value.id == r.id)
  }

  // ----- progress --------------------------------------------------------------

  ghost predicate DeliveredIn(p: Pool, x: ReqId) {
    && x in p.responses
    && p.responses[x].Some?
    && p.responses[x].value in p.providers
    && x in p.providers[p.responses[x].value].pending
  }

  /** A request that has left the queues: its waiter is gone, its channel was already used, or it was handed over. */
  ghost predicate Accounted(a: Pool, b: Pool, x: ReqId) {
    x in b.done || x in a.responses || DeliveredIn(b, x)
  }

  ghost predicate QueuedSomewhere(p: Pool, x: ReqId) {
    exists m :: x in IdsOf(QueueOf(p.queues, m))
  }

  /** The instant of a drain, and how long a request may wait. */
  datatype Clock = Clock(now: int, maxWait: int)

  ghost predicate ExpiredIn(clock: Clock, p: Pool, x: ReqId) {
    exists m, i :: QueuedAt(p.queues, m, i) && p.queues[m][i].id == x && Stale(p.queues[m][i], clock.now, clock.maxWait)
  }

  /**
   * A response channel filled since a: nil for an expired request, otherwise the provider the request
   * is pending on.
   */
  ghost predicate Answered(clock: Clock, a: Pool, b: Pool, x: ReqId) {
    && QueuedSomewhere(a, x)
    && if x in b.responses && b.responses[x].Some? then DeliveredIn(b, x) else x in b.done && ExpiredIn(clock, a, x)
  }

  ghost predicate OrderKept(before: Queues, after: Queues, m: Model) {
    Subseq(Canon(QueueOf(after, m), m), Canon(QueueOf(before, m), m))
  }

  ghost predicate NoneLost(a: Pool, b: Pool, m: Model) {
    forall x :: x in IdsOf(QueueOf(a.queues, m)) && x !in IdsOf(QueueOf(b.queues, m)) ==> Accounted(a, b, x)
  }

  ghost predicate NewlyPending(a: Pool, b: Pool, id: Id, x: ReqId) {
    id in a.providers && id in b.providers && x in b.providers[id].pending && x !in a.providers[id].pending
  }

  /**
   * One drain, or any part of one, takes pool a to pool b: providers only gain load, every
   * queue becomes an order-preserving subsequence of itself, every request that left is
   * accounted for, only expired requests are given up on, and every new pending entry is a
   * request handed over from a queue.
   */
  ghost predicate Progress(clock: Clock, a: Pool, b: Pool) {
    && Loaded(a.providers, b.providers)
    && a.done <= b.done
    && (forall x :: x in b.done && x !in a.done ==> ExpiredIn(clock, a, x))
    && (forall x :: x in a.responses ==> x in b.responses && b.responses[x] == a.responses[x])
    && (forall x :: x in b.responses && x !in a.responses ==> Answered(clock, a, b, x))
    && (forall m :: OrderKept(a.queues, b.queues, m))
    && (forall m :: NoneLost(a, b, m))
    && (forall m, x :: x in IdsOf(QueueOf(b.queues, m)) && x in b.responses ==> x in a.responses)
    && (forall id, x :: NewlyPending(a, b, id, x) ==>
          x in b.responses && b.responses[x] == Some(id) && QueuedSomewhere(a, x))
  }

  lemma CanonIds(q: seq<QueuedRequest>, q': seq<QueuedRequest>, m: Model, x: ReqId)
    requires Subseq(Canon(q', m), Canon(q, m)) && x in IdsOf(q')
    ensures x in IdsOf(q)
  {
    var i :| 0 <= i < |q'| && q'[i].id == x;
    assert Canon(q', m)[i] in Canon(q', m);
    SubseqMember(Canon(q', m), Canon(q, m), Canon(q', m)[i]);
    var j :| 0 <= j < |Canon(q, m)| && Canon(q, m)[j] == Canon(q', m)[i];
    assert q[j].id == x;
  }

  lemma ProgressReflexive(clock: Clock, a: Pool)
    ensures Progress(clock, a, a)
  {
    forall m ensures OrderKept(a.queues, a.queues, m) {
      SubseqReflexive(Canon(QueueOf(a.queues, m), m));
    }
  }

  lemma ProgressTransitive(clock: Clock, a: Pool, b: Pool, c: Pool)
    requires Progress(clock, a, b) && Progress(clock, b, c)
    ensures Progress(clock, a, c)
  {
    LoadedTransitive(a.providers, b.providers, c.providers);
    forall m ensures OrderKept(a.queues, c.queues, m) {
      assert OrderKept(a.queues, b.queues, m) && OrderKept(b.queues, c.queues, m);
      SubseqTransitive(Canon(QueueOf(c.queues, m), m), Canon(QueueOf(b.queues, m), m), Canon(QueueOf(a.queues, m), m));
    }
    forall m ensures NoneLost(a, c, m) {
      NoneLostTransitive(clock, a, b, c, m);
    }
    forall x | x in c.done && x !in a.done ensures ExpiredIn(clock, a, x) {
      if x !in b.done { ExpiredEarlier(clock, a, b, x); }
    }
    forall x | x in c.responses && x !in a.responses ensures Answered(clock, a, c, x) {
      AnsweredTransitive(clock, a, b, c, x);
    }
    forall m, x | x in IdsOf(QueueOf(c.queues, m)) && x in c.responses ensures x in a.responses {
      assert OrderKept(b.queues, c.queues, m);
      CanonIds(QueueOf(b.queues, m), QueueOf(c.queues, m), m, x);
    }
    forall id, x | NewlyPending(a, c, id, x)
      ensures x in c.responses && c.responses[x] == Some(id) && QueuedSomewhere(a, x)
    {
      NewlyPendingTransitive(clock, a, b, c, id, x);
    }
  }

  lemma ExpiredEarlier(clock: Clock, a: Pool, b: Pool, x: ReqId)
    requires Progress(clock, a, b) && ExpiredIn(clock, b, x)
    ensures ExpiredIn(clock, a, x)
  {
    var m, i :| QueuedAt(b.queues, m, i) && b.queues[m][i].id == x && Stale(b.queues[m][i], clock.now, clock.maxWait);
    assert OrderKept(a.queues, b.queues, m);
    var qa, qb := QueueOf(a.queues, m), QueueOf(b.queues, m);
    assert Canon(qb, m)[i] in Canon(qb, m);
    SubseqMember(Canon(qb, m), Canon(qa, m), Canon(qb, m)[i]);
    var j :| 0 <= j < |Canon(qa, m)| && Canon(qa, m)[j] == Canon(qb, m)[i];
    assert QueuedAt(a.queues, m, j) && a.queues[m][j].id == x;
  }

  lemma AnsweredTransitive(clock: Clock, a: Pool, b: Pool, c: Pool, x: ReqId)
    requires Progress(clock, a, b) && Progress(clock, b, c)
    requires x in c.responses && x !in a.responses
    ensures Answered(clock, a, c, x)
  {
    if x in b.responses {
      assert Answered(clock, a, b, x);
      if b.responses[x].Some? {
        assert LoadedProvider(b.providers[b.responses[x].value], c.providers[b.responses[x].value]);
      }
    } else {
      assert Answered(clock, b, c, x);
      var m :| x in IdsOf(QueueOf(b.queues, m));
      OrderKeptIds(a, b, m, x);
      if c.responses[x].None? { ExpiredEarlier(clock, a, b, x); }
    }
  }

  lemma NoneLostTransitive(clock: Clock, a: Pool, b: Pool, c: Pool, m: Model)
    requires Progress(clock, a, b) && Progress(clock, b, c)
    ensures NoneLost(a, c, m)
  {
    assert NoneLost(a, b, m) && NoneLost(b, c, m);
    forall x | x in IdsOf(QueueOf(a.queues, m)) && x !in IdsOf(QueueOf(c.queues, m)) ensures Accounted(a, c, x) {
      if x !in IdsOf(QueueOf(b.queues, m)) {
        assert Accounted(a, b, x);
        if DeliveredIn(b, x) {
          assert LoadedProvider(b.providers[b.responses[x].value], c.providers[b.responses[x].value]);
        }
      } else {
        assert Accounted(b, c, x);
      }
    }
  }

  lemma NewlyPendingTransitive(clock: Clock, a: Pool, b: Pool, c: Pool, id: Id, x: ReqId)
    requires Progress(clock, a, b) && Progress(clock, b, c) && NewlyPending(a, c, id, x)
    ensures x in c.responses && c.responses[x] == Some(id) && QueuedSomewhere(a, x)
  {
    hide NoneLost, OrderKept, LoadedProvider;
    if x in b.providers[id].pending {
      assert NewlyPending(a, b, id, x);
    } else {
      assert NewlyPending(b, c, id, x);
      var m :| x in IdsOf(QueueOf(b.queues, m));
      OrderKeptIds(a, b, m, x);
    }
  }

  lemma OrderKeptIds(a: Pool, b: Pool, m: Model, x: ReqId)
    requires OrderKept(a.queues, b.queues, m) && x in IdsOf(QueueOf(b.queues, m))
    ensures x in IdsOf(QueueOf(a.queues, m))
  {
    CanonIds(QueueOf(a.queues, m), QueueOf(b.queues, m), m, x);
  }

  // ----- the single moves of a drain -------------------------------------------

  /** The pool with the queue of one model replaced. */
  ghost function WithQueue(p: Pool, m: Model, q: seq<QueuedRequest>): Pool {
    p.(queues := p.queues[m := q])
  }

  lemma IdsOfConcat(x: seq<QueuedRequest>, y: seq<QueuedRequest>)
    ensures IdsOf(x + y) == IdsOf(x) + IdsOf(y)
  {
    forall i | 0 <= i < |x| ensures x[i].id in IdsOf(x + y) { assert (x + y)[i] == x[i]; }
    forall i | 0 <= i < |y| ensures y[i].id in IdsOf(x + y) { assert (x + y)[|x| + i] == y[i]; }
  }

  lemma CanonConcat(x: seq<QueuedRequest>, y: seq<QueuedRequest>, m: Model)
    ensures Canon(x + y, m) == Canon(x, m) + Canon(y, m)
  {
  }

  /** Deleting a block y of one queue keeps order and touches no other queue. */
  lemma DeleteBlock(p: Pool, m: Model, x: seq<QueuedRequest>, y: seq<QueuedRequest>, z: seq<QueuedRequest>, b: Pool)
    requires QueueOf(p.queues, m) == x + y + z
    requires b.queues == p.queues[m := x + z]
    ensures forall n :: OrderKept(p.queues, b.queues, n)
    ensures forall n :: n != m ==> QueueOf(b.queues, n) == QueueOf(p.queues, n)
    ensures IdsOf(QueueOf(p.queues, m)) == IdsOf(x) + IdsOf(y) + IdsOf(z)
    ensures IdsOf(QueueOf(b.queues, m)) == IdsOf(x) + IdsOf(z)
  {
    IdsOfConcat(x + y, z);
    IdsOfConcat(x, y);
    IdsOfConcat(x, z);
    CanonConcat(x + y, z, m);
    CanonConcat(x, y, m);
    CanonConcat(x, z, m);
    SubseqDrop(Canon(x, m), Canon(y, m), Canon(z, m));
    forall n ensures OrderKept(p.queues, b.queues, n) {
      if n != m {
        SubseqReflexive(Canon(QueueOf(p.queues, n), n));
      }
    }
  }

  lemma BlockExpired(clock: Clock, p: Pool, m: Model, x: seq<QueuedRequest>, y: seq<QueuedRequest>,
                     z: seq<QueuedRequest>)
    requires QueueOf(p.queues, m) == x + y + z
    requires forall i :: 0 <= i < |y| ==> Stale(y[i], clock.now, clock.maxWait)
    ensures forall i :: i in IdsOf(y) ==> ExpiredIn(clock, p, i) && QueuedSomewhere(p, i)
  {
    forall i | i in IdsOf(y) ensures ExpiredIn(clock, p, i) && QueuedSomewhere(p, i) {
      var k :| 0 <= k < |y| && y[k].id == i;
      assert (x + y + z)[|x| + k] == y[k];
      assert QueuedAt(p.queues, m, |x| + k);
      assert i in IdsOf(QueueOf(p.queues, m));
    }
  }

  lemma SignalProgress(clock: Clock, p: Pool, b: Pool, ids: set<ReqId>)
    requires b.providers == p.providers && b.done == p.done + ids && b.responses == SendNil(p.responses, ids)
    requires forall n :: OrderKept(p.queues, b.queues, n)
    requires forall n :: IdsOf(QueueOf(p.queues, n)) <= IdsOf(QueueOf(b.queues, n)) + ids
    requires forall n :: IdsOf(QueueOf(b.queues, n)) !! ids
    requires forall i :: i in ids ==> ExpiredIn(clock, p, i) && QueuedSomewhere(p, i)
    ensures Progress(clock, p, b)
  {
    LoadedReflexive(p.providers);
    hide OrderKept, Loaded, ExpiredIn, QueuedSomewhere, IdsOf, QueueOf;
  }

  /** Expired requests are signalled and dropped. */
  lemma ExpireProgress(clock: Clock, p: Pool, m: Model, x: seq<QueuedRequest>, y: seq<QueuedRequest>,
                       z: seq<QueuedRequest>, b: Pool)
    requires WellFormed(p) && QueueOf(p.queues, m) == x + y + z
    requires forall i :: 0 <= i < |y| ==> Stale(y[i], clock.now, clock.maxWait)
    requires b == Pool(p.providers, p.queues[m := x + z], p.done + IdsOf(y), SendNil(p.responses, IdsOf(y)))
    ensures Progress(clock, p, b) && WellFormed(b)
  {
    DeleteBlock(p, m, x, y, z, b);
    ShrinkWellFormed(p, m, x, y, z, b);
    BlockExpired(clock, p, m, x, y, z);
    hide OrderKept, ExpiredIn, QueuedSomewhere, Stale;
    forall n ensures IdsOf(QueueOf(b.queues, n)) !! IdsOf(y) {
      forall i | i in IdsOf(QueueOf(b.queues, n)) ensures i !in IdsOf(y) {
        QueuedOnce(p, m, x, y, z, n, i);
      }
    }
    hide WellFormed, IdsOf, QueueOf;
    SignalProgress(clock, p, b, IdsOf(y));
  }

  /** An id found in the deleted block is found nowhere else. */
  lemma QueuedOnce(p: Pool, m: Model, x: seq<QueuedRequest>, y: seq<QueuedRequest>, z: seq<QueuedRequest>, n: Model,
                   i: ReqId)
    requires WellFormed(p) && QueueOf(p.queues, m) == x + y + z
    requires i in IdsOf(QueueOf(p.queues[m := x + z], n))
    ensures i !in IdsOf(y)
  {
    var q := QueueOf(p.queues[m := x + z], n);
    var j :| 0 <= j < |q| && q[j].id == i;
    var j' := if n != m || j < |x| then j else j + |y|;
    assert QueuedAt(p.queues, n, j') && p.queues[n][j'] == q[j];
    forall k | 0 <= k < |y| ensures y[k].id != i {
      assert (x + y + z)[|x| + k] == y[k];
      assert QueuedAt(p.queues, m, |x| + k);
    }
  }

  lemma ShrinkWellFormed(p: Pool, m: Model, x: seq<QueuedRequest>, y: seq<QueuedRequest>, z: seq<QueuedRequest>,
                         b: Pool)
    requires WellFormed(p) && QueueOf(p.queues, m) == x + y + z
    requires b.providers == p.providers && b.queues == p.queues[m := x + z]
    ensures WellFormed(b)
  {
    var at := (n: Model, j: int) => if n != m || j < |x| then j else j + |y|;
    forall n, j | QueuedAt(b.queues, n, j)
      ensures QueuedAt(p.queues, n, at(n, j)) && b.queues[n][j] == p.queues[n][at(n, j)]
    {
      if n == m {
        assert p.queues[m] == x + y + z;
      }
    }
  }

  /** Preparing the request at one place of a queue changes nothing that is compared. */
  lemma PrepareProgress(clock: Clock, p: Pool, m: Model, x: seq<QueuedRequest>, r: QueuedRequest,
                        z: seq<QueuedRequest>, b: Pool)
    requires WellFormed(p) && QueueOf(p.queues, m) == x + [r] + z
    requires b == WithQueue(p, m, x + [Prepared(r, m)] + z)
    ensures Progress(clock, p, b) && WellFormed(b)
  {
    LoadedReflexive(p.providers);
    PreparedTwice(r, m);
    var q, q' := x + [r] + z, x + [Prepared(r, m)] + z;
    assert Canon(q, m) == Canon(q', m);
    assert IdsOf(q) == IdsOf(q') by {
      IdsOfConcat(x + [r], z); IdsOfConcat(x, [r]);
      IdsOfConcat(x + [Prepared(r, m)], z); IdsOfConcat(x, [Prepared(r, m)]);
      assert IdsOf([r]) == {r.id} == IdsOf([Prepared(r, m)]) by {
        assert [r][0].id in IdsOf([r]) && [Prepared(r, m)][0].id in IdsOf([Prepared(r, m)]);
      }
    }
    forall n ensures OrderKept(p.queues, b.queues, n) && IdsOf(QueueOf(b.queues, n)) == IdsOf(QueueOf(p.queues, n)) {
      SubseqReflexive(Canon(QueueOf(p.queues, n), n));
    }
    assert m in p.queues && p.queues[m] == q;
    assert QueuedAt(p.queues, m, |x|) && q[|x|] == r;
    forall n, j | QueuedAt(b.queues, n, j)
      ensures QueuedAt(p.queues, n, j) && b.queues[n][j].id == p.queues[n][j].id && WellQueued(b.queues[n][j], n)
    {
      assert n == m && j != |x| ==> q'[j] == q[j];
      assert QueuedAt(p.queues, n, j) && WellQueued(p.queues[n][j], n);
    }
  }

  lemma TakenId(p: Pool, m: Model, x: seq<QueuedRequest>, r: QueuedRequest, z: seq<QueuedRequest>)
    requires WellFormed(p) && QueueOf(p.queues, m) == x + [r] + z
    ensures QueuedAt(p.queues, m, |x|) && p.queues[m][|x|] == r && WellQueued(r, m)
    ensures IdsOf([r]) == {r.id} && r.id in IdsOf(QueueOf(p.queues, m))
    ensures forall id :: id in p.providers ==> r.id !in p.providers[id].pending
  {
    assert (x + [r] + z)[|x|] == r;
    assert QueuedAt(p.queues, m, |x|);
    assert [r][0].id in IdsOf([r]);
  }

  /** Replacing one provider by a more loaded one loads the fleet. */
  lemma LoadOne(ps: map<Id, Provider>, id: Id, q: Provider)
    requires id in ps && LoadedProvider(ps[id], q)
    ensures Loaded(ps, ps[id := q])
  {
  }

  /** The queue side of taking request r out of its queue. */
  lemma TakeOut(p: Pool, m: Model, x: seq<QueuedRequest>, r: QueuedRequest, z: seq<QueuedRequest>, b: Pool)
    requires WellFormed(p) && QueueOf(p.queues, m) == x + [r] + z
    requires b.queues == p.queues[m := x + z]
    requires p.done <= b.done && Accounted(p, b, r.id)
    requires forall i :: i in b.responses && i != r.id ==> i in p.responses
    ensures forall n :: OrderKept(p.queues, b.queues, n)
    ensures forall n :: NoneLost(p, b, n)
    ensures forall n, i :: i in IdsOf(QueueOf(b.queues, n)) && i in b.responses ==> i in p.responses
    ensures forall n :: r.id !in IdsOf(QueueOf(b.queues, n))
    ensures WellFormed(b.(providers := p.providers))
  {
    TakenId(p, m, x, r, z);
    DeleteBlock(p, m, x, [r], z, b);
    ShrinkWellFormed(p, m, x, [r], z, b.(providers := p.providers));
    forall n | r.id in IdsOf(QueueOf(b.queues, n)) ensures false {
      QueuedOnce(p, m, x, [r], z, n, r.id);
    }
  }

  /** A reserved request is handed to its waiter. */
  lemma HandOverProgress(clock: Clock, p: Pool, m: Model, x: seq<QueuedRequest>, r: QueuedRequest,
                         z: seq<QueuedRequest>, id: Id, pr: Pending, b: Pool)
    requires WellFormed(p) && QueueOf(p.queues, m) == x + [r] + z
    requires id in p.providers && pr.id == r.id && r.id !in p.responses
    requires b == Pool(p.providers[id := Reserved(p.providers[id], pr)], p.queues[m := x + z], p.done,
        p.responses[r.id := Some(id)])
    ensures Progress(clock, p, b) && WellFormed(b)
  {
    hide OrderKept, NoneLost, IdsOf, QueueOf, WellFormed;
    TakenId(p, m, x, r, z);
    ReserveLoads(p.providers[id], pr);
    LoadOne(p.providers, id, b.providers[id]);
    hide Reserved, LoadedProvider;
    assert DeliveredIn(b, r.id);
    TakeOut(p, m, x, r, z, b);
    forall k, i | NewlyPending(p, b, k, i)
      ensures i in b.responses && b.responses[i] == Some(k) && QueuedSomewhere(p, i)
    {
      assert k == id && i == r.id;
    }
    assert WellFormed(b) by { HandOverWellFormed(p, b, id, r.id); }
  }

  lemma ReserveLoads(p: Provider, pr: Pending)
    requires pr.id !in p.pending
    ensures LoadedProvider(p, Reserved(p, pr))
    ensures Reserved(p, pr).pending.Keys == p.pending.Keys + {pr.id}
    ensures Reserved(p, pr).pending[pr.id] == pr.(provider := p.id)
  {
  }

  lemma HandOverWellFormed(p: Pool, b: Pool, id: Id, x: ReqId)
    requires id in p.providers && b.providers.Keys == p.providers.Keys
    requires WellFormed(b.(providers := p.providers))
    requires forall k :: k in p.providers ==> b.providers[k].id == p.providers[k].id
    requires forall k :: k in p.providers ==> b.providers[k].pending.Keys <= p.providers[k].pending.Keys + {x}
    requires forall n :: x !in IdsOf(QueueOf(b.queues, n))
    ensures WellFormed(b)
  {
    var b' := b.(providers := p.providers);
    forall n, j, k | QueuedAt(b.queues, n, j) && k in b.providers ensures b.queues[n][j].id !in b.providers[k].pending {
      assert QueuedAt(b'.queues, n, j);
      assert b.queues[n][j].id in IdsOf(QueueOf(b.queues, n));
    }
  }

  /** Reserving and releasing leaves the pending set as it was; idling then sees to the status. */
  lemma GivenBack(p: Provider, pr: Pending)
    requires pr.id !in p.pending
    ensures var q := Released(Reserved(p, pr), pr.id);
      q.pending == p.pending && q == p.(status := q.status) && LoadedProvider(p, Idled(q))
  {
  }

  /** The same entries everywhere. */
  ghost predicate SameEntries(a: map<Id, Provider>, b: map<Id, Provider>) {
    a.Keys == b.Keys && forall k :: k in a ==> a[k].id == b[k].id && a[k].pending == b[k].pending
  }

  lemma GivenBackFleet(ps: map<Id, Provider>, id: Id, pr: Pending)
    requires id in ps && pr.id !in ps[id].pending
    ensures var back := Released(Reserved(ps[id], pr), pr.id);
      && SameEntries(ps, ps[id := back]) && SameEntries(ps, ps[id := Idled(back)])
      && Loaded(ps, ps[id := Idled(back)])
  {
    GivenBack(ps[id], pr);
    IdledKeeps(Released(Reserved(ps[id], pr), pr.id));
    hide Released, Reserved, Idled, LoadedProvider;
    LoadOne(ps, id, Idled(Released(Reserved(ps[id], pr), pr.id)));
  }

  lemma IdledKeeps(p: Provider)
    ensures Idled(p) == p.(status := Idled(p).status)
  {
  }

  /** A reserved request whose waiter is gone is released again, and its provider idles if it has no other. */
  lemma GiveUpProgress(clock: Clock, p: Pool, m: Model, x: seq<QueuedRequest>, r: QueuedRequest,
                       z: seq<QueuedRequest>, id: Id, pr: Pending, released: Pool, b: Pool)
    requires WellFormed(p) && QueueOf(p.queues, m) == x + [r] + z
    requires id in p.providers && pr.id == r.id && (r.id in p.done || r.id in p.responses)
    requires released == p.(providers := p.providers[id := Released(Reserved(p.providers[id], pr), pr.id)],
        queues := p.queues[m := x + z])
    requires b == released.(providers := released.providers[id := Idled(released.providers[id])])
    ensures WellFormed(released) && Progress(clock, p, b) && WellFormed(b)
    ensures SameEntries(p.providers, b.providers)
  {
    hide *;
    TakenId(p, m, x, r, z);
    GivenBackFleet(p.providers, id, pr);
    assert b.providers == p.providers[id := Idled(Released(Reserved(p.providers[id], pr), pr.id))];
    TakenAway(clock, p, m, x, r, z, b);
    TakenAway(clock, p, m, x, r, z, released);
  }

  /** Taking a request out of its queue, without giving it to anybody. */
  lemma TakenAway(clock: Clock, p: Pool, m: Model, x: seq<QueuedRequest>, r: QueuedRequest, z: seq<QueuedRequest>,
                  b: Pool)
    requires WellFormed(p) && QueueOf(p.queues, m) == x + [r] + z && (r.id in p.done || r.id in p.responses)
    requires b == p.(providers := b.providers, queues := p.queues[m := x + z]) && SameEntries(p.providers, b.providers)
    ensures WellFormed(b)
    ensures Loaded(p.providers, b.providers) ==> Progress(clock, p, b)
  {
    hide LoadedProvider, WellFormed, OrderKept, NoneLost, IdsOf, QueueOf;
    TakeOut(p, m, x, r, z, b);
    Restocked(b.(providers := p.providers), b.providers);
  }

  lemma Restocked(b: Pool, ps: map<Id, Provider>)
    requires WellFormed(b) && SameEntries(b.providers, ps)
    ensures WellFormed(b.(providers := ps))
  {
  }

  /** Popping: the expired requests in front are dropped and the first fresh one is prepared. */
  lemma PopProgress(clock: Clock, p: Pool, m: Model, x: seq<QueuedRequest>, q: seq<QueuedRequest>, n: nat, b: Pool)
    requires WellFormed(p) && QueueOf(p.queues, m) == x + q && n < |q|
    requires forall i :: 0 <= i < n ==> Stale(q[i], clock.now, clock.maxWait)
    requires b == Pool(p.providers, p.queues[m := x + [Prepared(q[n], m)] + q[n + 1..]],
                       p.done + IdsOf(q[..n]), SendNil(p.responses, IdsOf(q[..n])))
    ensures Progress(clock, p, b) && WellFormed(b)
  {
    var y, r, z := q[..n], q[n], q[n + 1..];
    SplitAt(x, q, n);
    hide Progress, WellFormed, IdsOf, SendNil, Prepared, Stale;
    var c := Pool(p.providers, p.queues[m := x + ([r] + z)], p.done + IdsOf(y), SendNil(p.responses, IdsOf(y)));
    ExpireProgress(clock, p, m, x, y, [r] + z, c);
    Requeued(p.queues, m, x + ([r] + z), x + [Prepared(r, m)] + z);
    PrepareProgress(clock, c, m, x, r, z, b);
    ProgressTransitive(clock, p, c, b);
  }

  lemma SplitAt(x: seq<QueuedRequest>, q: seq<QueuedRequest>, n: nat)
    requires n < |q|
    ensures x + q == x + q[..n] + ([q[n]] + q[n + 1..])
    ensures x + ([q[n]] + q[n + 1..]) == x + [q[n]] + q[n + 1..]
  {
    assert q == q[..n] + ([q[n]] + q[n + 1..]);
  }

  lemma Requeued(queues: Queues, m: Model, x: seq<QueuedRequest>, y: seq<QueuedRequest>)
    ensures queues[m := x][m := y] == queues[m := y]
    ensures QueueOf(queues[m := x], m) == x
  {
  }

  /** The pool with the requests a drain has set aside put back in front of their queue. */
  ghost function Restore(p: Pool, m: Model, skipped: seq<QueuedRequest>): Pool {
    if skipped == [] then p else WithQueue(p, m, skipped + QueueOf(p.queues, m))
  }

  lemma RestoreQueue(p: Pool, m: Model, skipped: seq<QueuedRequest>)
    ensures QueueOf(Restore(p, m, skipped).queues, m) == skipped + QueueOf(p.queues, m)
  {
  }

  /** PopNextFresh finds nothing: whatever was queued has expired. */
  lemma PopNothing(clock: Clock, p: Pool, m: Model, skipped: seq<QueuedRequest>, b: Pool)
    requires WellFormed(Restore(p, m, skipped))
    requires var q := QueueOf(p.queues, m);
             b == Pool(p.providers, if q == [] then p.queues else p.queues[m := []],
                       p.done + IdsOf(q), SendNil(p.responses, IdsOf(q)))
    requires forall i :: 0 <= i < |QueueOf(p.queues, m)| ==> Stale(QueueOf(p.queues, m)[i], clock.now, clock.maxWait)
    ensures Progress(clock, Restore(p, m, skipped), Restore(b, m, skipped)) && WellFormed(Restore(b, m, skipped))
  {
    hide Progress, WellFormed;
    var q, whole, ended := QueueOf(p.queues, m), Restore(p, m, skipped), Restore(b, m, skipped);
    RestoreQueue(p, m, skipped);
    if q == [] {
      assert IdsOf(q) == {};
      SendNilNobody(p.responses);
      assert b == p;
      ProgressReflexive(clock, whole);
    } else {
      assert skipped + q + [] == skipped + q && skipped + [] == skipped;
      assert ended.queues == whole.queues[m := skipped + []];
      ExpireProgress(clock, whole, m, skipped, q, [], ended);
    }
  }

  /** PopNextFresh finds the request at place n. */
  lemma PopRequest(clock: Clock, p: Pool, m: Model, skipped: seq<QueuedRequest>, n: nat, b: Pool)
    requires WellFormed(Restore(p, m, skipped)) && n < |QueueOf(p.queues, m)|
    requires forall i :: 0 <= i < n ==> Stale(QueueOf(p.queues, m)[i], clock.now, clock.maxWait)
    requires var q := QueueOf(p.queues, m);
             b == Pool(p.providers, p.queues[m := q[n + 1..]], p.done + IdsOf(q[..n]),
                 SendNil(p.responses, IdsOf(q[..n])))
    ensures var r := Prepared(QueueOf(p.queues, m)[n], m);
            && Progress(clock, Restore(p, m, skipped), Restore(b, m, skipped + [r]))
            && WellFormed(Restore(b, m, skipped + [r]))
            && WellQueued(r, m) && PendingOf(r, m).id == r.id
  {
    hide Progress, WellFormed;
    var q, whole := QueueOf(p.queues, m), Restore(p, m, skipped);
    var r := Prepared(q[n], m);
    var popped := Restore(b, m, skipped + [r]);
    RestoreQueue(p, m, skipped);
    assert popped.queues == whole.queues[m := skipped + [r] + q[n + 1..]];
    PopProgress(clock, whole, m, skipped, q, n, popped);
    PreparedTwice(q[n], m);
    TakenId(popped, m, skipped, r, q[n + 1..]);
  }

  lemma IdleProgress(clock: Clock, p: Pool, id: Id, b: Pool)
    requires WellFormed(p) && id in p.providers
    requires b == p.(providers := p.providers[id := Idled(p.providers[id])])
    ensures Progress(clock, p, b) && WellFormed(b)
  {
    LoadOne(p.providers, id, b.providers[id]);
    RestatusProgress(clock, p, b);
  }

  /** A provider that ends up empty after idling and draining is online, whatever happened in between. */
  lemma EmptyIsOnline(clock: Clock, p: Pool, id: Id, idle: Pool, b: Pool)
    requires id in p.providers && idle.providers == p.providers[id := Idled(p.providers[id])]
    requires Progress(clock, idle, b) && Routable(p.providers[id].status)
    ensures id in b.providers && (b.providers[id].pending == map[] ==> b.providers[id].status == Online)
  {
    assert Loaded(idle.providers, b.providers);
    hide Progress;
    assert LoadedProvider(idle.providers[id], b.providers[id]);
  }

  /** Changing nothing but serving statuses. */
  lemma RestatusProgress(clock: Clock, p: Pool, b: Pool)
    requires WellFormed(p) && b == p.(providers := b.providers) && Loaded(p.providers, b.providers)
    requires forall id :: id in p.providers ==> b.providers[id].pending == p.providers[id].pending
    ensures Progress(clock, p, b) && WellFormed(b)
  {
    assert Progress(clock, p, b) by {
      hide WellFormed, OrderKept, IdsOf, QueueOf;
      ProgressReflexive(clock, p);
    }
    assert WellFormed(b) by {
      hide Progress;
      assert forall id :: id in p.providers ==> LoadedProvider(p.providers[id], b.providers[id]);
    }
  }

  // ----- work conservation -------------------------------------------------------

  /** No request queued for the model could be placed as the fleet now stands. */
  ghost predicate Stuck(policy: Policy, now: int, p: Pool, m: Model) {
    forall r :: r in QueueOf(p.queues, m) ==> !Reservable(policy, p.providers, now, m, PendingOf(r, m), {})
  }

  /** Once a model's queue is stuck, no further draining unsticks it. */
  lemma StuckStable(clock: Clock, policy: Policy, now: int, a: Pool, b: Pool, m: Model)
    requires Progress(clock, a, b) && Stuck(policy, now, a, m)
    ensures Stuck(policy, now, b, m)
  {
    assert OrderKept(a.queues, b.queues, m);
    var qa, qb := QueueOf(a.queues, m), QueueOf(b.queues, m);
    forall r | r in qb ensures !Reservable(policy, b.providers, now, m, PendingOf(r, m), {}) {
      var i :| 0 <= i < |qb| && qb[i] == r;
      assert Canon(qb, m)[i] in Canon(qb, m);
      SubseqMember(Canon(qb, m), Canon(qa, m), Canon(qb, m)[i]);
      var j :| 0 <= j < |Canon(qa, m)| && Canon(qa, m)[j] == Canon(qb, m)[i];
      assert PendingOf(qa[j], m) == PendingOf(r, m);
      assert qa[j] in qa;
      if Reservable(policy, b.providers, now, m, PendingOf(r, m), {}) {
        LoadKeepsUnreservable(policy, a.providers, b.providers, now, m, PendingOf(r, m), {});
      }
    }
  }

  // ----- fairness -----------------------------------------------------------------

  /** The fleet and the queue just before a request was assigned, the request's place in it, and its provider. */
  datatype Assignment = Assignment(
    model: Model, providers: map<Id, Provider>, queue: seq<QueuedRequest>, index: nat, provider: Id)

  /** Everything ahead of the assigned request could not be placed; the request went to a winning provider. */
  ghost predicate Fair(policy: Policy, now: int, e: Assignment) {
    && e.index < |e.queue|
    && (forall i :: 0 <= i < e.index ==>
          !Reservable(policy, e.providers, now, e.model, PendingOf(e.queue[i], e.model), {}))
    && MayServe(policy, e.providers, now, e.model, PendingOf(e.queue[e.index], e.model), {}, e.provider)
  }

  ghost predicate FairWithin(policy: Policy, now: int, a: Pool, b: Pool, e: Assignment) {
    && Fair(policy, now, e)
    && Subseq(Canon(e.queue, e.model), Canon(QueueOf(a.queues, e.model), e.model))
    && Loaded(a.providers, e.providers) && Loaded(e.providers, b.providers)
    && e.queue[e.index].id in b.responses && b.responses[e.queue[e.index].id] == Some(e.provider)
    && DeliveredIn(b, e.queue[e.index].id)
  }

  ghost predicate RecordedIn(trace: seq<Assignment>, id: Id, x: ReqId) {
    exists k :: 0 <= k < |trace| && trace[k].provider == id && trace[k].index < |trace[k].queue|
                && trace[k].queue[trace[k].index].id == x
  }

  /** The trace holds exactly the assignments made between a and b, and all of them are fair. */
  ghost predicate FairTrace(policy: Policy, now: int, a: Pool, b: Pool, trace: seq<Assignment>) {
    && (forall k :: 0 <= k < |trace| ==> FairWithin(policy, now, a, b, trace[k]))
    && (forall id, x :: NewlyPending(a, b, id, x) ==> RecordedIn(trace, id, x))
  }

  lemma FairTraceConcat(clock: Clock, policy: Policy, now: int, a: Pool, b: Pool, c: Pool, s: seq<Assignment>,
                        t: seq<Assignment>)
    requires Progress(clock, a, b) && Progress(clock, b, c)
    requires FairTrace(policy, now, a, b, s) && FairTrace(policy, now, b, c, t)
    ensures FairTrace(policy, now, a, c, s + t)
  {
    var u := s + t;
    forall k | 0 <= k < |u| ensures FairWithin(policy, now, a, c, u[k]) {
      if k < |s| {
        assert FairWithin(policy, now, a, b, s[k]);
        WidenRight(clock, policy, now, a, b, c, s[k]);
      } else {
        assert FairWithin(policy, now, b, c, t[k - |s|]);
        WidenLeft(clock, policy, now, a, b, c, t[k - |s|]);
      }
    }
    forall id, x | NewlyPending(a, c, id, x) ensures RecordedIn(u, id, x) {
      if x in b.providers[id].pending {
        assert NewlyPending(a, b, id, x);
        RecordedLonger(s, t, id, x);
      } else {
        assert NewlyPending(b, c, id, x);
        RecordedLonger(s, t, id, x);
      }
    }
  }

  lemma RecordedLonger(s: seq<Assignment>, t: seq<Assignment>, id: Id, x: ReqId)
    ensures RecordedIn(s, id, x) || RecordedIn(t, id, x) ==> RecordedIn(s + t, id, x)
  {
    var u := s + t;
    if RecordedIn(s, id, x) {
      var k :| 0 <= k < |s| && s[k].provider == id && s[k].index < |s[k].queue| && s[k].queue[s[k].index].id == x;
      assert u[k] == s[k];
    }
    if RecordedIn(t, id, x) {
      var k :| 0 <= k < |t| && t[k].provider == id && t[k].index < |t[k].queue| && t[k].queue[t[k].index].id == x;
      assert u[|s| + k] == t[k];
    }
  }

  lemma WidenRight(clock: Clock, policy: Policy, now: int, a: Pool, b: Pool, c: Pool, e: Assignment)
    requires Progress(clock, b, c) && FairWithin(policy, now, a, b, e)
    ensures FairWithin(policy, now, a, c, e)
  {
    LoadedTransitive(e.providers, b.providers, c.providers);
    assert LoadedProvider(b.providers[e.provider], c.providers[e.provider]);
  }

  lemma WidenLeft(clock: Clock, policy: Policy, now: int, a: Pool, b: Pool, c: Pool, e: Assignment)
    requires Progress(clock, a, b) && FairWithin(policy, now, b, c, e)
    ensures FairWithin(policy, now, a, c, e)
  {
    LoadedTransitive(a.providers, b.providers, e.providers);
    assert OrderKept(a.queues, b.queues, e.model);
    SubseqTransitive(Canon(e.queue, e.model), Canon(QueueOf(b.queues, e.model), e.model),
        Canon(QueueOf(a.queues, e.model), e.model));
  }

  /** Handing one request over is recorded by one fair assignment. */
  lemma HandOverTrace(clock: Clock, policy: Policy, now: int, p: Pool, m: Model, x: seq<QueuedRequest>,
                      r: QueuedRequest, z: seq<QueuedRequest>, id: Id, b: Pool)
    requires WellFormed(p) && QueueOf(p.queues, m) == x + [r] + z
    requires PendingOf(r, m).id == r.id
    requires forall i :: 0 <= i < |x| ==> !Reservable(policy, p.providers, now, m, PendingOf(x[i], m), {})
    requires id in p.providers && MayServe(policy, p.providers, now, m, PendingOf(r, m), {}, id)
    requires b.providers == p.providers[id := Reserved(p.providers[id], PendingOf(r, m))]
    requires b.responses == p.responses[r.id := Some(id)]
    requires Progress(clock, p, b)
    ensures FairTrace(policy, now, p, b, [Assignment(m, p.providers, x + [r] + z, |x|, id)])
  {
    hide Reservable, MayServe, WellFormed, NoneLost, OrderKept, LoadedProvider, PendingOf, Answered, ExpiredIn;
    var e := Assignment(m, p.providers, x + [r] + z, |x|, id);
    assert e.queue[e.index] == r;
    SubseqReflexive(Canon(e.queue, m));
    LoadedReflexive(p.providers);
    forall i | 0 <= i < e.index ensures !Reservable(policy, e.providers, now, m, PendingOf(e.queue[i], m), {}) {
      assert e.queue[i] == x[i];
    }
    assert FairWithin(policy, now, p, b, e);
    forall k, i | NewlyPending(p, b, k, i) ensures RecordedIn([e], k, i) {
      assert k == id && i == r.id;
      assert [e][0].provider == id;
    }
  }

  /** A move that makes no provider more loaded adds nothing to the trace. */
  lemma QuietTrace(policy: Policy, now: int, a: Pool, b: Pool)
    requires a.providers.Keys == b.providers.Keys
    requires forall id :: id in a.providers ==> b.providers[id].pending == a.providers[id].pending
    ensures FairTrace(policy, now, a, b, [])
  {
  }
}
