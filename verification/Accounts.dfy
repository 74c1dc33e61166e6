/** Every account's own money, in every run of the whole coordinator. */
module Accounts {
  import opened Options
  import opened Sums
  import opened Conservation
  import D = Dispatch
  import L = Ledger
  import P = Pricing
  import S = Settlement

  /**
   * What a settlement owes an account: the consumer what was not used, the payee the bill less the
   * fee, the referrer its reward and the platform the rest of the fee.
   */
  ghost function Owed(t: Ticket, e: Event, a: L.Account): int
    requires e.Settle?
  {
    var bill := S.Billed(JobOf(t, e.job), e.usage, e.prices);
    var fee := P.PlatformFee(bill);
    var reward := S.Reward(e.referrals, t.consumer, fee);
    S.If(a == t.consumer, t.request.reserved - bill)
    + S.If(a != "" && a == S.Recipient(e.payee), bill - fee)
    + S.If(S.Referrer(e.referrals, t.consumer) == Some(a), reward)
    + S.If(a == S.PLATFORM, fee - reward)
  }

  /** What an event means for an account, whether or not it is in the books yet. */
  ghost function Means(w: World, e: Event, a: L.Account): int
    requires Enabled(w, e)
  {
    match e
    case Open(_, _, _, _) => 0
    case Charge(id) =>
      var t := w.tickets[id];
      S.If(a == t.consumer && t.request.reserved <= L.Balance(w.books, a), -t.request.reserved)
    case Advance(_, _) => 0
    case Refund(id) => S.If(a == w.tickets[id].consumer, w.tickets[id].request.reserved)
    case Settle(id, _, _, _, _, _, _) => Owed(w.tickets[id], e, a)
    case Post(_) => 0
    case Outside(op) => S.If(!op.Prune? && a == op.account, L.Movement(w.books, op))
  }

  /** What the events of a run so far mean for an account. */
  ghost function Entitled(ws: seq<World>, es: seq<Event>, k: nat, a: L.Account): int
    requires Run(ws, es) && k <= |es|
  {
    if k == 0 then 0
    else
      assert Enabled(ws[k - 1], es[k - 1]);
      Entitled(ws, es, k - 1, a) + Means(ws[k - 1], es[k - 1], a)
  }

  // ----- on its way -----------------------------------------------------------------------------

  ghost function Gain(ops: seq<L.Op>, a: L.Account): int {
    if AllCredits(ops) then S.Gain(ops, a, false) else 0
  }

  /** What settlements have yet to post to an account. */
  ghost function Coming(postings: map<Key, seq<L.Op>>, a: L.Account): int {
    SumOver(postings.Keys, (k: Key) => if k in postings then Gain(postings[k], a) else 0)
  }

  lemma ComingUpdate(postings: map<Key, seq<L.Op>>, key: Key, ops: seq<L.Op>, a: L.Account)
    ensures Coming(postings[key := ops], a)
         == Coming(postings, a) - (if key in postings then Gain(postings[key], a) else 0) + Gain(ops, a)
  {
    var after := postings[key := ops];
    var f := (k: Key) => if k in postings then Gain(postings[k], a) else 0;
    var g := (k: Key) => if k in after then Gain(after[k], a) else 0;
    if key in postings {
      assert after.Keys == postings.Keys;
      SumUpdate(postings.Keys, f, g, key);
    } else {
      assert after.Keys == postings.Keys + {key};
      SumInsert(postings.Keys, f, g, key);
    }
  }

  lemma GainHead(ops: seq<L.Op>, a: L.Account)
    requires AllCredits(ops) && ops != []
    ensures S.IsCredit(ops[0]) && Gain(ops, a) == S.If(ops[0].account == a, ops[0].amount) + Gain(ops[1..], a)
  {
    AmountHead(ops);
  }

  lemma GainJoined(s: seq<L.Op>, t: seq<L.Op>, a: L.Account)
    requires AllCredits(s) && AllCredits(t)
    ensures Gain(s + t, a) == Gain(s, a) + Gain(t, a)
  {
    S.GainConcat(s, t, a, false);
  }

  // ----- one step ---------------------------------------------------------------------------------

  lemma PostMeans(w: World, key: Key, a: L.Account)
    requires Invariant(w) && Enabled(w, Post(key))
    ensures var v := Step(w, Post(key));
      L.Balance(v.books, a) + Coming(v.postings, a) == L.Balance(w.books, a) + Coming(w.postings, a)
  {
    var ops := w.postings[key];
    assert AllCredits(ops);
    GainHead(ops, a);
    L.BalanceMoves(w.books, ops[0], a);
    hide AllCredits, Gain, Coming, L.Apply, L.Balance, Conserved, TicketOk, L.Solvent;
    ComingUpdate(w.postings, key, ops[1..], a);
  }

  lemma OpsOwed(t: Ticket, e: Event, a: L.Account)
    requires e.Settle? && t.request.reserved > 0
    ensures var ops := S.Ops(JobOf(t, e.job), e.usage, e.prices, e.payee, e.referrals);
      AllCredits(ops) && Gain(ops, a) == Owed(t, e, a)
  {
    var job := JobOf(t, e.job);
    SettlePosts(t, e);
    S.BilledWithinReservation(job, e.usage, e.prices);
    S.FeeBounds(S.Billed(job, e.usage, e.prices));
    hide S.Billed, S.Ops, P.ProviderPayout, P.PlatformFee, S.Recipient, S.Reward, S.Referrer;
    S.OpsGain(job, e.usage, e.prices, e.payee, e.referrals, a, false);
  }

  lemma SettleMeans(w: World, e: Event, a: L.Account)
    requires Invariant(w) && Enabled(w, e) && e.Settle?
    ensures var v := Step(w, e);
      L.Balance(v.books, a) + Coming(v.postings, a) == L.Balance(w.books, a) + Coming(w.postings, a) + Means(w, e, a)
  {
    var t, key := w.tickets[e.id], (e.id, e.i);
    var ops := S.Ops(JobOf(t, e.job), e.usage, e.prices, e.payee, e.referrals);
    TicketInvariant(w, e.id);
    assert t.request.reserved > 0;
    QueuedCredits(w, key);
    assert Gain(Queued(w, key), a) == if key in w.postings then Gain(w.postings[key], a) else 0;
    hide Invariant, D.Enabled, D.Step, AllCredits, Gain, Coming, Owed, S.Ops, S.Billed, L.Balance, Queued;
    OpsOwed(t, e, a);
    GainJoined(Queued(w, key), ops, a);
    ComingUpdate(w.postings, key, Queued(w, key) + ops, a);
  }

  lemma BooksMean(w: World, e: Event, a: L.Account)
    requires Enabled(w, e) && !e.Post? && !e.Settle?
    ensures var v := Step(w, e);
      L.Balance(v.books, a) == L.Balance(w.books, a) + Means(w, e, a) && v.postings == w.postings
  {
    match e
    case Charge(id) => L.BalanceMoves(w.books, ChargeOp(w.tickets[id]), a); hide L.Apply, D.Step, D.Enabled;
    case Refund(id) => L.BalanceMoves(w.books, RefundOp(w.tickets[id]), a); hide L.Apply, D.Step, D.Enabled;
    case Outside(op) => L.BalanceMoves(w.books, op, a); hide L.Apply;
    case Open(_, _, _, _) =>
    case Advance(_, _) => hide D.Step, D.Enabled;
  }

  /**
   * In every state of every run each account's balance, with what settlements have yet to post to
   * it, is what the run so far entitles it to.
   */
  lemma {:induction false} EveryAccount(ws: seq<World>, es: seq<Event>, k: nat, a: L.Account)
    requires Run(ws, es) && k < |ws|
    ensures L.Balance(ws[k].books, a) + Coming(ws[k].postings, a) == Entitled(ws, es, k, a)
  {
    if k == 0 {
      assert ws[0].postings.Keys == {};
    } else {
      EveryAccount(ws, es, k - 1, a);
      MoneyConserved(ws, es, k - 1);
      var w, e := ws[k - 1], es[k - 1];
      assert Enabled(w, e) && ws[k] == Step(w, e);
      hide Invariant, Enabled, Step, Means, Coming, L.Balance;
      if e.Post? {
        PostMeans(w, e.key, a);
        PostMeansNothing(w, e, a);
      } else if e.Settle? {
        SettleMeans(w, e, a);
      } else {
        BooksMean(w, e, a);
      }
    }
  }

  lemma PostMeansNothing(w: World, e: Event, a: L.Account)
    requires Enabled(w, e) && e.Post?
    ensures Means(w, e, a) == 0
  {
  }
}
