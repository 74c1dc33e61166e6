/** Per-model FIFO queues of requests waiting for a provider. */
module Queueing {
  import opened Options
  import opened Fleet
  import opened Sums

  /**
   * A waiting request. Its done and response channels are kept by id in the RequestQueue:
   * `done` holds the ids whose waiter is gone, `responses` the content of each one-slot
   * response channel (None is the nil provider sent on expiry).
   */
  datatype QueuedRequest = QueuedRequest(id: ReqId, model: Model, pending: Option<Pending>, enqueuedAt: int)

  type Queues = map<Model, seq<QueuedRequest>>

  function QueueOf(queues: Queues, m: Model): seq<QueuedRequest> {
    if m in queues then queues[m] else []
  }

  predicate Stale(r: QueuedRequest, now: int, maxWait: int) {
    now - r.enqueuedAt > maxWait
  }

  /** The index of the first request that has not expired. */
  function FirstFresh(q: seq<QueuedRequest>, now: int, maxWait: int): (n: nat)
    ensures n <= |q|
    ensures forall i :: 0 <= i < n ==> Stale(q[i], now, maxWait)
    ensures n < |q| ==> !Stale(q[n], now, maxWait)
  {
    if q == [] || !Stale(q[0], now, maxWait) then 0 else 1 + FirstFresh(q[1..], now, maxWait)
  }

  /** The unexpired requests, in order. */
  function Fresh(q: seq<QueuedRequest>, now: int, maxWait: int): (f: seq<QueuedRequest>)
    ensures forall r :: r in f <==> r in q && !Stale(r, now, maxWait)
    ensures |f| <= |q|
  {
    if q == [] then []
    else Fresh(q[..|q| - 1], now, maxWait) + if Stale(q[|q| - 1], now, maxWait) then [] else [q[|q| - 1]]
  }

  /** A request expires when it has waited for more than the limit. */
  lemma WaitsItsTime(r: QueuedRequest, at: int, now: int, maxWait: int)
    ensures Stale(r.(enqueuedAt := at), now, maxWait) <==> now > at + maxWait
  {
  }

  lemma FreshLast(q: seq<QueuedRequest>, now: int, maxWait: int)
    requires q != []
    ensures var f, last := Fresh(q[..|q| - 1], now, maxWait), q[|q| - 1];
      Fresh(q, now, maxWait) == if Stale(last, now, maxWait) then f else f + [last]
  {
    var f := Fresh(q[..|q| - 1], now, maxWait);
    assert f + [] == f;
  }

  /** The unexpired requests stay in order. */
  lemma {:induction false} FreshInOrder(q: seq<QueuedRequest>, now: int, maxWait: int)
    ensures Subseq(Fresh(q, now, maxWait), q)
  {
    if q != [] {
      var n := |q| - 1;
      FreshLast(q, now, maxWait);
      FreshInOrder(q[..n], now, maxWait);
      SubseqSnoc(Fresh(q[..n], now, maxWait), q[..n], q[n]);
      assert q == q[..n] + [q[n]];
      hide Subseq, Fresh;
    }
  }

  /** The expired requests. */
  ghost function Expired(q: seq<QueuedRequest>, now: int, maxWait: int): set<ReqId> {
    set i | 0 <= i < |q| && Stale(q[i], now, maxWait) :: q[i].id
  }

  ghost function IdsOf(q: seq<QueuedRequest>): set<ReqId> {
    set i | 0 <= i < |q| :: q[i].id
  }

  /** Expiry sends nil to every response channel that is still empty. */
  ghost function SendNil(responses: map<ReqId, Option<Id>>, ids: set<ReqId>): map<ReqId, Option<Id>> {
    map r | r in responses.Keys + ids :: if r in responses then responses[r] else None
  }

  lemma SendNilNobody(responses: map<ReqId, Option<Id>>)
    ensures SendNil(responses, {}) == responses
  {
  }

  lemma SendNilStep(responses: map<ReqId, Option<Id>>, ids: set<ReqId>, id: ReqId)
    ensures SendNil(SendNil(responses, ids), {id}) == SendNil(responses, ids + {id})
  {
  }

  lemma DropHead(q: seq<QueuedRequest>, i: nat)
    requires i < |q|
    ensures q[i..][0] == q[i] && q[i..][1..] == q[i + 1..]
  {
  }

  lemma IdsOfStep(q: seq<QueuedRequest>, i: nat)
    requires i < |q|
    ensures IdsOf(q[..i + 1]) == IdsOf(q[..i]) + {q[i].id}
  {
    var a, b := q[..i], q[..i + 1];
    assert b == a + [q[i]];
    forall x | x in IdsOf(a) ensures x in IdsOf(b) {
      var k :| 0 <= k < |a| && a[k].id == x;
      assert b[k] == a[k];
    }
    assert b[i] == q[i];
    forall x | x in IdsOf(b) && x != q[i].id ensures x in IdsOf(a) {
      var k :| 0 <= k < |b| && b[k].id == x;
      assert k < i && a[k] == b[k];
    }
  }

  lemma ExpiredStep(q: seq<QueuedRequest>, i: nat, now: int, maxWait: int)
    requires i < |q|
    ensures Expired(q[..i + 1], now, maxWait)
         == if Stale(q[i], now, maxWait) then Expired(q[..i], now, maxWait) + {q[i].id}
            else Expired(q[..i], now, maxWait)
  {
    var a, b := q[..i], q[..i + 1];
    assert b == a + [q[i]];
    forall x | x in Expired(a, now, maxWait) ensures x in Expired(b, now, maxWait) {
      var k :| 0 <= k < |a| && Stale(a[k], now, maxWait) && a[k].id == x;
      assert b[k] == a[k];
    }
    assert b[i] == q[i];
    forall x | x in Expired(b, now, maxWait) && !(Stale(q[i], now, maxWait) && x == q[i].id)
      ensures x in Expired(a, now, maxWait)
    {
      var k :| 0 <= k < |b| && Stale(b[k], now, maxWait) && b[k].id == x;
      assert k < i && a[k] == b[k];
    }
  }

  lemma ExpiredNone(q: seq<QueuedRequest>, now: int, maxWait: int)
    ensures Expired(q[..0], now, maxWait) == {} && Fresh(q[..0], now, maxWait) == []
    ensures q == [] ==> Expired(q, now, maxWait) == {}
  {
  }

  lemma FreshStep(q: seq<QueuedRequest>, i: nat, now: int, maxWait: int)
    requires i < |q|
    ensures Fresh(q[..i + 1], now, maxWait)
         == if Stale(q[i], now, maxWait) then Fresh(q[..i], now, maxWait) else Fresh(q[..i], now, maxWait) + [q[i]]
  {
    assert q[..i + 1][..i] == q[..i];
  }

  ghost function Waiting(queues: Queues): int {
    SumOver(queues.Keys, (m: Model) => |QueueOf(queues, m)|)
  }

  lemma WaitingNonNegative(queues: Queues)
    ensures 0 <= Waiting(queues)
  {
    SumNonNegative(queues.Keys, (m: Model) => |QueueOf(queues, m)|);
  }

  /** Replacing one model's queue changes the total by the difference in length. */
  lemma WaitingUpdate(queues: Queues, m: Model, q: seq<QueuedRequest>)
    ensures Waiting(queues[m := q]) == Waiting(queues) - |QueueOf(queues, m)| + |q|
  {
    var f := (x: Model) => |QueueOf(queues, x)|;
    var g := (x: Model) => |QueueOf(queues[m := q], x)|;
    if m in queues {
      assert queues[m := q].Keys == queues.Keys;
      SumUpdate(queues.Keys, f, g, m);
    } else {
      assert queues[m := q].Keys == queues.Keys + {m};
      SumInsert(queues.Keys, f, g, m);
    }
  }

  lemma UnionStep(a: set<ReqId>, b: set<ReqId>, x: ReqId)
    ensures a + b + {x} == a + (b + {x})
  {
  }

  lemma Overwritten(queues: Queues, m: Model, x: seq<QueuedRequest>, y: seq<QueuedRequest>)
    ensures queues[m := x][m := y] == queues[m := y]
  {
  }

  class RequestQueue {
    var queues: Queues
    var done: set<ReqId>
    var responses: map<ReqId, Option<Id>>
    const maxSize: int
    const maxWait: int

    constructor (maxSize: int, maxWait: int)
      ensures queues == map[] && done == {} && responses == map[]
      ensures this.maxSize == maxSize && this.maxWait == maxWait
    {
      queues, done, responses := map[], {}, map[];
      this.maxSize, this.maxWait := maxSize, maxWait;
    }

    /** markDone followed by the non-blocking send of nil. */
    method Expire(id: ReqId)
      modifies this`done, this`responses
      ensures done == old(done) + {id}
      ensures responses == SendNil(old(responses), {id})
    {
      done := done + {id};
      if id !in responses {
        responses := responses[id := None];
      }
    }

    /** Removes the expired requests of one model, keeping the rest in order. */
    method CleanStale(model: Model, now: int)
      modifies this
      ensures queues == if QueueOf(old(queues), model) == [] then old(queues)
                        else old(queues)[model := Fresh(QueueOf(old(queues), model), now, maxWait)]
      ensures done == old(done) + Expired(QueueOf(old(queues), model), now, maxWait)
      ensures responses == SendNil(old(responses), Expired(QueueOf(old(queues), model), now, maxWait))
    {
      var queue := QueueOf(queues, model);
      SendNilNobody(responses);
      ExpiredNone(queue, now, maxWait);
      hide Expired, SendNil, Fresh;
      if |queue| == 0 {
        return;
      }
      var kept: seq<QueuedRequest> := [];
      for i := 0 to |queue|
        modifies this`done, this`responses
        invariant queues == old(queues)
        invariant kept == Fresh(queue[..i], now, maxWait)
        invariant done == old(done) + Expired(queue[..i], now, maxWait)
        invariant responses == SendNil(old(responses), Expired(queue[..i], now, maxWait))
      {
        FreshStep(queue, i, now, maxWait);
        ExpiredStep(queue, i, now, maxWait);
        if Stale(queue[i], now, maxWait) {
          SendNilStep(old(responses), Expired(queue[..i], now, maxWait), queue[i].id);
          Expire(queue[i].id);
        } else {
          kept := kept + [queue[i]];
        }
      }
      assert queue[..|queue|] == queue;
      queues := queues[model := kept];
    }

    method Enqueue(req: QueuedRequest, now: int) returns (ok: bool)
      modifies this
      ensures ok <==> |Fresh(QueueOf(old(queues), req.model), now, maxWait)| < maxSize
      ensures QueueOf(queues, req.model)
           == Fresh(QueueOf(old(queues), req.model), now, maxWait) + if ok then [req.(enqueuedAt := now)] else []
      ensures forall m :: m != req.model ==> QueueOf(queues, m) == QueueOf(old(queues), m)
      ensures done == old(done) + Expired(QueueOf(old(queues), req.model), now, maxWait)
      ensures responses == SendNil(old(responses), Expired(QueueOf(old(queues), req.model), now, maxWait))
    {
      CleanStale(req.model, now);
      var queue := QueueOf(queues, req.model);
      if |queue| >= maxSize {
        return false;
      }
      queues := queues[req.model := queue + [req.(enqueuedAt := now)]];
      return true;
    }

    /** Pops the first unexpired request; the expired ones in front of it are signalled and dropped. */
    method PopNextFresh(model: Model, now: int) returns (r: Option<QueuedRequest>)
      modifies this
      ensures var q := QueueOf(old(queues), model);
              var n := FirstFresh(q, now, maxWait);
              && r == (if n < |q| then Some(q[n]) else None)
              && (q == [] ==> queues == old(queues))
              && (q != [] ==> queues == old(queues)[model := if n < |q| then q[n + 1..] else []])
              && done == old(done) + IdsOf(q[..n])
              && responses == SendNil(old(responses), IdsOf(q[..n]))
    {
      ghost var q := QueueOf(queues, model);
      var queue := QueueOf(queues, model);
      SendNilNobody(responses);
      assert IdsOf(q[..0]) == {};
      hide *;
      if |queue| == 0 {
        return None;
      }
      ghost var i := 0;
      while |queue| > 0
        modifies this
        invariant 0 <= i <= |q| && queue == q[i..]
        invariant i <= FirstFresh(q, now, maxWait)
        invariant queues == if i == 0 then old(queues) else old(queues)[model := queue]
        invariant done == old(done) + IdsOf(q[..i])
        invariant responses == SendNil(old(responses), IdsOf(q[..i]))
        decreases |queue|
      {
        var req := queue[0];
        DropHead(q, i);
        Overwritten(old(queues), model, queue, queue[1..]);
        queue := queue[1..];
        queues := queues[model := queue];
        assert queue == q[i + 1..] && queues == old(queues)[model := queue];
        if !Stale(req, now, maxWait) {
          assert i == FirstFresh(q, now, maxWait);
          return Some(req);
        }
        IdsOfStep(q, i);
        SendNilStep(old(responses), IdsOf(q[..i]), req.id);
        UnionStep(old(done), IdsOf(q[..i]), req.id);
        Expire(req.id);
        i := i + 1;
      }
      return None;
    }

    method RequeueFront(req: QueuedRequest)
      modifies this`queues
      ensures queues == old(queues)[req.model := [req] + QueueOf(old(queues), req.model)]
    {
      queues := queues[req.model := [req] + QueueOf(queues, req.model)];
    }

    /** Removes the first request with the given id. */
    method Remove(id: ReqId, model: Model)
      modifies this`queues
      ensures var q := QueueOf(old(queues), model);
              || (queues == old(queues) && forall i :: 0 <= i < |q| ==> q[i].id != id)
              || exists i :: 0 <= i < |q| && q[i].id == id && (forall j :: 0 <= j < i ==> q[j].id != id)
                             && queues == old(queues)[model := q[..i] + q[i + 1..]]
    {
      var queue := QueueOf(queues, model);
      for i := 0 to |queue|
        invariant queues == old(queues)
        invariant forall j :: 0 <= j < i ==> queue[j].id != id
      {
        if queue[i].id == id {
          queues := queues[model := queue[..i] + queue[i + 1..]];
          return;
        }
      }
    }
  }
}
