/**
 * Money across the whole coordinator: any number of requests charge, retry, settle and refund
 * concurrently against the same books, with a settlement's ledger entries posted one by one.
 */
module Conservation {
  import opened Machine
  import opened Sums
  import D = Dispatch
  import L = Ledger
  import P = Pricing
  import S = Settlement

  datatype Ticket = Ticket(consumer: L.Account, model: P.Model, request: D.Request)

  type Key = (string, nat)

  /**
   * `postings` holds the entries that running settlements have yet to post. `external` is what
   * deposits, promotions and withdrawals brought into the books, and `unpaid` the payouts that
   * had nobody to go to; neither influences a step.
   */
  datatype World = World(
    books: L.Books,
    tickets: map<string, Ticket>,
    postings: map<Key, seq<L.Op>>,
    external: int,
    unpaid: int)

  const NEW_WORLD := World(L.EMPTY, map[], map[], 0, 0)

  datatype Event =
    | Open(id: string, consumer: L.Account, model: P.Model, reserved: int)
    | Charge(id: string)
    | Advance(id: string, e: D.Event)
    | Refund(id: string)
    | Settle(id: string, i: nat, job: string, usage: S.Usage, prices: S.Prices, payee: S.Payee, referrals: S.Referrals)
    | Post(key: Key)
    | Outside(op: L.Op)

  // ----- steps ------------------------------------------------------------------------

  function JobOf(t: Ticket, job: string): S.Job {
    S.Job(job, t.consumer, t.model, t.request.reserved)
  }

  function ChargeOp(t: Ticket): L.Op { L.Debit(t.consumer, t.request.reserved, L.Charge, "reserve:" + t.consumer) }

  function RefundOp(t: Ticket): L.Op { L.Credit(t.consumer, t.request.reserved, L.Refund, "reservation_refund") }

  function Bill(t: Ticket, e: Event): int
    requires e.Settle?
  {
    S.Billed(JobOf(t, e.job), e.usage, e.prices)
  }

  /** A reservation is a positive int64. */
  ghost predicate Enabled(w: World, e: Event) {
    match e
    case Open(id, consumer, model, reserved) => id !in w.tickets && 0 < reserved <= INT64_MAX
    case Charge(id) => id in w.tickets && D.Enabled(w.tickets[id].request, D.Charge(true))
    case Advance(id, e) =>
      id in w.tickets && !e.Charge? && !e.Refund? && !e.Settle? && D.Enabled(w.tickets[id].request, e)
    case Refund(id) => id in w.tickets && D.Enabled(w.tickets[id].request, D.Refund)
    case Settle(id, i, job, usage, prices, payee, referrals) =>
      id in w.tickets && D.Enabled(w.tickets[id].request, D.Settle(i, Bill(w.tickets[id], e)))
    case Post(key) => key in w.postings && w.postings[key] != []
    case Outside(op) => L.NonNegative(op)
  }

  function Moved(w: World, id: string, e: D.Event): map<string, Ticket>
    requires id in w.tickets && D.Enabled(w.tickets[id].request, e)
  {
    w.tickets[id := w.tickets[id].(request := D.Step(w.tickets[id].request, e))]
  }

  function Queued(w: World, key: Key): seq<L.Op> {
    if key in w.postings then w.postings[key] else []
  }

  ghost function Step(w: World, e: Event): World
    requires Enabled(w, e)
  {
    match e
    case Open(id, consumer, model, reserved) =>
      w.(tickets := w.tickets[id := Ticket(consumer, model, D.Start(reserved))])
    case Charge(id) =>
      var op := ChargeOp(w.tickets[id]);
      w.(books := L.Apply(w.books, op), tickets := Moved(w, id, D.Charge(L.Accepts(w.books, op))))
    case Advance(id, e) => w.(tickets := Moved(w, id, e))
    case Refund(id) => w.(books := L.Apply(w.books, RefundOp(w.tickets[id])), tickets := Moved(w, id, D.Refund))
    case Settle(id, i, job, usage, prices, payee, referrals) =>
      var t := w.tickets[id];
      var cost := Bill(t, e);
      w.(tickets := Moved(w, id, D.Settle(i, cost)),
         postings := w.postings[(id, i) := Queued(w, (id, i)) + S.Ops(JobOf(t, job), usage, prices, payee, referrals)],
         unpaid := w.unpaid + if S.Recipient(payee) == "" then P.ProviderPayout(cost) else 0)
    case Post(key) =>
      w.(books := L.Apply(w.books, w.postings[key][0]), postings := w.postings[key := w.postings[key][1..]])
    case Outside(op) => w.(books := L.Apply(w.books, op), external := w.external + L.Change(w.books, op))
  }

  ghost predicate Run(ws: seq<World>, es: seq<Event>) {
    && |ws| == |es| + 1 && ws[0] == NEW_WORLD
    && forall i :: 0 <= i < |es| ==> Enabled(ws[i], es[i]) && ws[i + 1] == Step(ws[i], es[i])
  }

  // ----- the law -------------------------------------------------------------------------

  /** What the coordinator holds for one request: the reservation, until it is refunded or settled. */
  function Held(s: D.Request): int {
    var charged := if D.Charged(s) then s.reserved else 0;
    var refunded := if s.phase == D.Refunded then s.reserved else 0;
    charged - refunded - s.reserved * |s.costs|
  }

  ghost function Escrow(tickets: map<string, Ticket>): int {
    SumOver(tickets.Keys, (id: string) => if id in tickets then Held(tickets[id].request) else 0)
  }

  ghost predicate AllCredits(ops: seq<L.Op>) {
    forall op :: op in ops ==> S.IsCredit(op) && L.NonNegative(op)
  }

  ghost function Amount(ops: seq<L.Op>): int {
    if AllCredits(ops) then S.Credited(ops) else 0
  }

  ghost function InFlight(postings: map<Key, seq<L.Op>>): int {
    SumOver(postings.Keys, (k: Key) => if k in postings then Amount(postings[k]) else 0)
  }

  ghost predicate Conserved(w: World) {
    L.Total(w.books) + Escrow(w.tickets) + InFlight(w.postings) + w.unpaid == w.external
  }

  ghost predicate TicketOk(t: Ticket) {
    D.Invariant(t.request) && t.request.reserved <= INT64_MAX
  }

  ghost predicate Invariant(w: World) {
    && (forall id :: id in w.tickets ==> TicketOk(w.tickets[id]))
    && (forall k :: k in w.postings ==> AllCredits(w.postings[k]))
    && L.Solvent(w.books)
    && w.unpaid >= 0
    && Conserved(w)
  }

  // ----- sums ------------------------------------------------------------------------------

  lemma EscrowUpdate(tickets: map<string, Ticket>, id: string, t: Ticket)
    ensures Escrow(tickets[id := t])
         == Escrow(tickets) - (if id in tickets then Held(tickets[id].request) else 0) + Held(t.request)
  {
    var after := tickets[id := t];
    var f := (k: string) => if k in tickets then Held(tickets[k].request) else 0;
    var g := (k: string) => if k in after then Held(after[k].request) else 0;
    if id in tickets {
      assert after.Keys == tickets.Keys;
      SumUpdate(tickets.Keys, f, g, id);
    } else {
      assert after.Keys == tickets.Keys + {id};
      SumInsert(tickets.Keys, f, g, id);
    }
  }

  lemma InFlightUpdate(postings: map<Key, seq<L.Op>>, key: Key, ops: seq<L.Op>)
    ensures InFlight(postings[key := ops])
         == InFlight(postings) - (if key in postings then Amount(postings[key]) else 0) + Amount(ops)
  {
    var after := postings[key := ops];
    var f := (k: Key) => if k in postings then Amount(postings[k]) else 0;
    var g := (k: Key) => if k in after then Amount(after[k]) else 0;
    if key in postings {
      assert after.Keys == postings.Keys;
      SumUpdate(postings.Keys, f, g, key);
    } else {
      assert after.Keys == postings.Keys + {key};
      SumInsert(postings.Keys, f, g, key);
    }
  }

  lemma AmountConcat(s: seq<L.Op>, t: seq<L.Op>)
    requires AllCredits(s) && AllCredits(t)
    ensures AllCredits(s + t) && Amount(s + t) == Amount(s) + Amount(t)
  {
    S.CreditedConcat(s, t);
  }

  lemma AmountHead(ops: seq<L.Op>)
    requires AllCredits(ops) && ops != []
    ensures S.IsCredit(ops[0]) && L.NonNegative(ops[0]) && AllCredits(ops[1..])
    ensures Amount(ops) == ops[0].amount + Amount(ops[1..])
  {
    assert ops[0] in ops;
  }

  lemma {:induction false} AmountNonNegative(ops: seq<L.Op>)
    ensures Amount(ops) >= 0
    decreases |ops|
  {
    if AllCredits(ops) && ops != [] {
      AmountHead(ops);
      AmountNonNegative(ops[1..]);
    }
  }

  // ----- each step ------------------------------------------------------------------------------

  lemma HeldUnchanged(s: D.Request, e: D.Event)
    requires D.Enabled(s, e) && !e.Charge? && !e.Refund? && !e.Settle?
    ensures Held(D.Step(s, e)) == Held(s) && D.Step(s, e).reserved == s.reserved
  {
    hide D.Billing, D.Removed;
  }

  lemma HeldOnCharge(s: D.Request, ok: bool)
    requires D.Invariant(s) && D.Enabled(s, D.Charge(ok))
    ensures var t := D.Step(s, D.Charge(ok));
      Held(t) == Held(s) + (if ok then s.reserved else 0) && t.reserved == s.reserved
  {
    hide D.AttemptOk;
  }

  lemma HeldOnRefund(s: D.Request)
    requires D.Enabled(s, D.Refund)
    ensures var t := D.Step(s, D.Refund); Held(t) == Held(s) - s.reserved && t.reserved == s.reserved
  {
  }

  lemma NewCost(costs: map<nat, int>, i: nat, cost: int)
    requires i !in costs
    ensures |costs[i := cost]| == |costs| + 1
  {
    assert costs[i := cost].Keys == costs.Keys + {i};
    assert |costs[i := cost].Keys| == |costs.Keys| + 1;
  }

  lemma HeldOnSettle(s: D.Request, i: nat, cost: int)
    requires D.Invariant(s) && D.Enabled(s, D.Settle(i, cost))
    ensures var t := D.Step(s, D.Settle(i, cost)); Held(t) == Held(s) - s.reserved && t.reserved == s.reserved
  {
    assert D.AttemptOk(s, i);
    NewCost(s.costs, i, cost);
    hide D.Invariant, D.AttemptOk;
    var t := D.Step(s, D.Settle(i, cost));
    assert t.phase == s.phase && t.reserved == s.reserved && |t.costs| == |s.costs| + 1;
    assert s.reserved * (|s.costs| + 1) == s.reserved * |s.costs| + s.reserved;
  }

  /** One ticket moves, and the change in what is held for it is made up for elsewhere. */
  lemma Rebalanced(w: World, v: World, id: string, r: D.Request)
    requires Invariant(w) && id in w.tickets && v.tickets == w.tickets[id := w.tickets[id].(request := r)]
    requires D.Invariant(r) && r.reserved == w.tickets[id].request.reserved
    requires forall k :: k in v.postings ==> AllCredits(v.postings[k])
    requires L.Solvent(v.books) && v.unpaid >= 0 && v.external == w.external
    requires L.Total(v.books) + Held(r) + InFlight(v.postings) + v.unpaid
          == L.Total(w.books) + Held(w.tickets[id].request) + InFlight(w.postings) + w.unpaid
    ensures Invariant(v)
  {
    hide D.Invariant, L.Total, L.Solvent, Held, InFlight, AllCredits;
    EscrowUpdate(w.tickets, id, w.tickets[id].(request := r));
    hide Escrow;
    assert TicketOk(w.tickets[id]);
  }

  lemma TicketInvariant(w: World, id: string)
    requires Invariant(w) && id in w.tickets
    ensures D.Invariant(w.tickets[id].request) && 0 < w.tickets[id].request.reserved <= INT64_MAX
  {
    hide Conserved, AllCredits, L.Solvent;
    assert TicketOk(w.tickets[id]);
  }

  lemma ChargeKeeps(w: World, id: string)
    requires Invariant(w) && Enabled(w, Charge(id))
    ensures Invariant(Step(w, Charge(id)))
  {
    var t := w.tickets[id];
    var op := ChargeOp(t);
    var ok := L.Accepts(w.books, op);
    TicketInvariant(w, id);
    L.ApplyTotal(w.books, op);
    L.ApplySolvent(w.books, op);
    D.StepKeeps(t.request, D.Charge(ok));
    HeldOnCharge(t.request, ok);
    hide D.Invariant, D.Step, L.Total, L.Solvent, L.Apply, Held, InFlight, AllCredits, Conserved, TicketOk;
    Rebalanced(w, Step(w, Charge(id)), id, D.Step(t.request, D.Charge(ok)));
  }

  lemma RefundKeeps(w: World, id: string)
    requires Invariant(w) && Enabled(w, Refund(id))
    ensures Invariant(Step(w, Refund(id)))
  {
    var t := w.tickets[id];
    TicketInvariant(w, id);
    hide D.Invariant, D.Step, D.Enabled, L.Total, L.Solvent, L.Apply, Held, InFlight, AllCredits, Conserved, TicketOk;
    PostedAmount(w.books, RefundOp(t));
    L.ApplySolvent(w.books, RefundOp(t));
    D.StepKeeps(t.request, D.Refund);
    HeldOnRefund(t.request);
    Rebalanced(w, Step(w, Refund(id)), id, D.Step(t.request, D.Refund));
  }

  lemma AdvanceKeeps(w: World, id: string, e: D.Event)
    requires Invariant(w) && Enabled(w, Advance(id, e))
    ensures Invariant(Step(w, Advance(id, e)))
  {
    var t := w.tickets[id];
    hide D.Invariant, D.Step, D.Enabled, L.Total, L.Solvent, Held, InFlight, AllCredits, Conserved, TicketOk;
    TicketInvariant(w, id);
    D.StepKeeps(t.request, e);
    HeldUnchanged(t.request, e);
    Rebalanced(w, Step(w, Advance(id, e)), id, D.Step(t.request, e));
  }

  /** A settlement's postings, together with an unpaid payout, are the reservation. */
  lemma SettlePosts(t: Ticket, e: Event)
    requires e.Settle? && t.request.reserved > 0
    ensures var ops := S.Ops(JobOf(t, e.job), e.usage, e.prices, e.payee, e.referrals);
      var unpaid := if S.Recipient(e.payee) == "" then P.ProviderPayout(Bill(t, e)) else 0;
      P.ProviderPayout(Bill(t, e)) > 0 && AllCredits(ops) && Amount(ops) + unpaid == t.request.reserved
  {
    var job, cost := JobOf(t, e.job), Bill(t, e);
    S.BilledWithinReservation(job, e.usage, e.prices);
    S.FeeBounds(cost);
    hide S.Billed, S.Ops, P.ProviderPayout, P.PlatformFee, S.Recipient;
    S.OpsCredit(job, e.usage, e.prices, e.payee, e.referrals);
    S.OpsNonNegative(job, e.usage, e.prices, e.payee, e.referrals);
  }

  lemma QueuedCredits(w: World, key: Key)
    requires forall k :: k in w.postings ==> AllCredits(w.postings[k])
    ensures AllCredits(Queued(w, key))
    ensures Amount(Queued(w, key)) == if key in w.postings then Amount(w.postings[key]) else 0
  {
  }

  /** What a settlement queues for posting is in flight from then on. */
  lemma SettleQueues(w: World, e: Event)
    requires Invariant(w) && e.Settle? && e.id in w.tickets && w.tickets[e.id].request.reserved > 0
    ensures var t := w.tickets[e.id]; var key := (e.id, e.i);
      var after := w.postings[key := Queued(w, key) + S.Ops(JobOf(t, e.job), e.usage, e.prices, e.payee, e.referrals)];
      && P.ProviderPayout(Bill(t, e)) > 0
      && (forall k :: k in after ==> AllCredits(after[k]))
      && InFlight(after) + (if S.Recipient(e.payee) == "" then P.ProviderPayout(Bill(t, e)) else 0)
         == InFlight(w.postings) + t.request.reserved
  {
    var t, key := w.tickets[e.id], (e.id, e.i);
    var ops := S.Ops(JobOf(t, e.job), e.usage, e.prices, e.payee, e.referrals);
    hide Conserved, TicketOk, L.Solvent, Bill, S.Ops, P.ProviderPayout, S.Recipient, AllCredits, Amount, InFlight;
    SettlePosts(t, e);
    QueuedCredits(w, key);
    hide Queued;
    AmountConcat(Queued(w, key), ops);
    InFlightUpdate(w.postings, key, Queued(w, key) + ops);
  }

  lemma SettleKeeps(w: World, e: Event)
    requires Invariant(w) && Enabled(w, e) && e.Settle?
    ensures Invariant(Step(w, e))
  {
    var t := w.tickets[e.id];
    var f := D.Settle(e.i, Bill(t, e));
    TicketInvariant(w, e.id);
    hide D.Invariant, D.Step, D.Enabled, L.Total, L.Solvent, Held, InFlight, AllCredits, Conserved, TicketOk,
        S.Billed, S.Ops, P.ProviderPayout, S.Recipient, Queued;
    SettleQueues(w, e);
    D.StepKeeps(t.request, f);
    HeldOnSettle(t.request, e.i, Bill(t, e));
    Rebalanced(w, Step(w, e), e.id, D.Step(t.request, f));
  }

  lemma PostKeeps(w: World, key: Key)
    requires Invariant(w) && Enabled(w, Post(key))
    ensures Invariant(Step(w, Post(key)))
  {
    hide L.Total, L.Solvent, Escrow, InFlight, L.Apply, TicketOk, D.Enabled;
    var ops, v := w.postings[key], Step(w, Post(key));
    AmountHead(ops);
    hide AllCredits, Amount;
    PostedAmount(w.books, ops[0]);
    L.ApplySolvent(w.books, ops[0]);
    InFlightUpdate(w.postings, key, ops[1..]);
  }

  lemma PostedAmount(b: L.Books, op: L.Op)
    requires S.IsCredit(op)
    ensures L.Total(L.Apply(b, op)) == L.Total(b) + op.amount
  {
    L.ApplyTotal(b, op);
  }

  lemma NewTicket(consumer: L.Account, model: P.Model, reserved: int)
    requires 0 < reserved <= INT64_MAX
    ensures var t := Ticket(consumer, model, D.Start(reserved)); TicketOk(t) && Held(t.request) == 0
  {
  }

  lemma OpenKeeps(w: World, id: string, consumer: L.Account, model: P.Model, reserved: int)
    requires Invariant(w) && Enabled(w, Open(id, consumer, model, reserved))
    ensures Invariant(Step(w, Open(id, consumer, model, reserved)))
  {
    var t := Ticket(consumer, model, D.Start(reserved));
    hide L.Total, L.Solvent, InFlight, AllCredits, TicketOk, Held, D.Enabled, D.Start;
    NewTicket(consumer, model, reserved);
    EscrowUpdate(w.tickets, id, t);
    hide Escrow;
  }

  lemma OutsideKeeps(w: World, op: L.Op)
    requires Invariant(w) && Enabled(w, Outside(op))
    ensures Invariant(Step(w, Outside(op)))
  {
    hide L.Total, L.Solvent, Escrow, InFlight, L.Apply, L.Change, AllCredits, TicketOk;
    L.ApplyTotal(w.books, op);
    L.ApplySolvent(w.books, op);
  }

  lemma StepKeeps(w: World, e: Event)
    requires Invariant(w) && Enabled(w, e)
    ensures Invariant(Step(w, e))
  {
    hide Invariant, Step, D.Enabled, L.NonNegative;
    match e
    case Open(id, consumer, model, reserved) => OpenKeeps(w, id, consumer, model, reserved);
    case Charge(id) => ChargeKeeps(w, id);
    case Advance(id, f) => AdvanceKeeps(w, id, f);
    case Refund(id) => RefundKeeps(w, id);
    case Settle(id, i, job, usage, prices, payee, referrals) => SettleKeeps(w, e);
    case Post(key) => PostKeeps(w, key);
    case Outside(op) => OutsideKeeps(w, op);
  }

  /**
   * In every state of every run: balances, escrowed reservations, postings on their way and
   * unpaid payouts add up to what came in from outside, and no balance is negative.
   */
  lemma {:induction false} MoneyConserved(ws: seq<World>, es: seq<Event>, k: nat)
    requires Run(ws, es) && k < |ws|
    ensures Invariant(ws[k])
  {
    hide Invariant, Step, Enabled;
    if k == 0 {
      NewWorld();
    } else {
      MoneyConserved(ws, es, k - 1);
      assert Enabled(ws[k - 1], es[k - 1]);
      StepKeeps(ws[k - 1], es[k - 1]);
    }
  }

  lemma NewWorld()
    ensures Invariant(NEW_WORLD)
  {
  }

  // ----- no money is created -----------------------------------------------------------------------

  lemma HeldNonNegative(s: D.Request)
    requires D.Invariant(s) && s.late == {}
    ensures Held(s) == 0 || Held(s) == s.reserved
  {
    var last := D.SingleBill(s);
    SubsetCardinality(s.costs.Keys, {last});
    assert |s.costs| == |s.costs.Keys|;
    hide D.AttemptOk;
  }

  /** While no request had an attempt removed too late, the books never hold more than came in. */
  lemma NothingCreated(ws: seq<World>, es: seq<Event>, k: nat)
    requires Run(ws, es) && k < |ws|
    requires forall id :: id in ws[k].tickets ==> ws[k].tickets[id].request.late == {}
    ensures L.Total(ws[k].books) <= ws[k].external
  {
    MoneyConserved(ws, es, k);
    var w := ws[k];
    forall id | id in w.tickets ensures Held(w.tickets[id].request) >= 0 {
      assert TicketOk(w.tickets[id]);
      HeldNonNegative(w.tickets[id].request);
    }
    SumNonNegative(w.tickets.Keys, (id: string) => if id in w.tickets then Held(w.tickets[id].request) else 0);
    forall key | key in w.postings ensures Amount(w.postings[key]) >= 0 {
      AmountNonNegative(w.postings[key]);
    }
    SumNonNegative(w.postings.Keys, (key: Key) => if key in w.postings then Amount(w.postings[key]) else 0);
  }
}
