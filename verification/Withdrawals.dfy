/**
 * Stripe withdrawals: the handler that debits, persists, transfers and pays out, and the
 * webhooks that settle a withdrawal afterwards, in any order and any number of times.
 */
module Withdrawals {
  import opened Options
  import opened Machine
  import L = Ledger

  // ----- amounts --------------------------------------------------------------------

  const MIN_WITHDRAW := 1_000_000
  const INSTANT_FEE_BPS := 150
  const INSTANT_FEE_MIN := 500_000
  const MICROS_PER_CENT := 10_000

  function InstantFee(gross: int): int {
    if gross <= 0 then 0
    else
      var pct := TruncDiv(Wrap64(gross * INSTANT_FEE_BPS), 10_000);
      if pct < INSTANT_FEE_MIN then INSTANT_FEE_MIN else pct
  }

  function Fee(instant: bool, gross: int): int {
    if instant then InstantFee(gross) else 0
  }

  function Cents(micros: int): int {
    TruncDiv(micros, MICROS_PER_CENT)
  }

  /** What the handler accepts before it touches any money. */
  predicate Payable(instant: bool, gross: int) {
    && gross >= MIN_WITHDRAW
    && gross - Fee(instant, gross) > 0
    && Cents(gross - Fee(instant, gross)) > 0
  }

  /**
   * Every int64 amount from one dollar up is payable, and the transfer is the gross amount less
   * a fee below it, short of it by less than a cent.
   */
  lemma PayableAmounts(instant: bool, gross: int)
    requires INT64_MIN <= gross <= INT64_MAX
    ensures Payable(instant, gross) <==> gross >= MIN_WITHDRAW
    ensures Payable(instant, gross) ==>
      var net := gross - Fee(instant, gross);
      0 <= Fee(instant, gross) < gross && 0 <= net - Cents(net) * MICROS_PER_CENT < MICROS_PER_CENT
  {
    if gross >= MIN_WITHDRAW && gross * INSTANT_FEE_BPS > INT64_MAX {
      assert Wrap64(gross * INSTANT_FEE_BPS) <= INT64_MAX;
    }
  }

  // ----- rows and their indexes -----------------------------------------------------------

  datatype Status = Pending | Transferred | Paid | Failed

  datatype Row = Row(id: string, account: L.Account, gross: int, fee: int, net: int, instant: bool, status: Status,
                     transferId: string, payoutId: string, refunded: bool)

  datatype Desk = Desk(
    books: L.Books, rows: map<string, Row>, byTransfer: map<string, string>, byPayout: map<string, string>)

  const NEW_DESK := Desk(L.EMPTY, map[], map[], map[])

  function Reference(id: string): string { "stripe_withdraw:" + id }

  predicate Creatable(d: Desk, row: Row) {
    row.id != "" && row.id !in d.rows
  }

  function Indexed(index: map<string, string>, key: string, id: string): map<string, string> {
    if key != "" then index[key := id] else index
  }

  function Reindexed(index: map<string, string>, before: string, after: string, id: string): map<string, string> {
    if before == after then index
    else Indexed(if before != "" then index - {before} else index, after, id)
  }

  function Created(d: Desk, row: Row): Desk {
    d.(rows := d.rows[row.id := row],
       byTransfer := Indexed(d.byTransfer, row.transferId, row.id),
       byPayout := Indexed(d.byPayout, row.payoutId, row.id))
  }

  function Updated(d: Desk, row: Row): Desk {
    if row.id == "" || row.id !in d.rows then d
    else
      d.(rows := d.rows[row.id := row],
         byTransfer := Reindexed(d.byTransfer, d.rows[row.id].transferId, row.transferId, row.id),
         byPayout := Reindexed(d.byPayout, d.rows[row.id].payoutId, row.payoutId, row.id))
  }

  function Applied(d: Desk, op: L.Op): Desk {
    d.(books := L.Apply(d.books, op))
  }

  function TakeOut(row: Row): L.Op {
    L.DebitWithdrawable(row.account, row.gross, L.StripePayout, Reference(row.id))
  }

  function PutBack(row: Row): L.Op {
    L.CreditWithdrawable(row.account, row.gross, L.Refund, Reference(row.id))
  }

  // ----- the withdraw handler -----------------------------------------------------------------

  datatype Request = Request(id: string, account: L.Account, gross: int, instant: bool)

  /** What Stripe answered: the transfer's id, and the payout's. */
  datatype Stripe = Stripe(transfer: Option<string>, payout: Option<string>)

  datatype Reply = Invalid | Insufficient | NotPersisted | TransferFailed | PayoutFailed | Submitted

  function NewRow(r: Request): Row {
    var fee := Fee(r.instant, r.gross);
    Row(r.id, r.account, r.gross, fee, r.gross - fee, r.instant, Pending, "", "", false)
  }

  function Withdrawn(d: Desk, r: Request, stripe: Stripe): (Desk, Reply) {
    if !Payable(r.instant, r.gross) then (d, Invalid)
    else
      var row := NewRow(r);
      if !L.Accepts(d.books, TakeOut(row)) then (d, Insufficient)
      else
        var debited := Applied(d, TakeOut(row));
        if !Creatable(debited, row) then (Applied(debited, PutBack(row)), NotPersisted)
        else Sent(Created(debited, row), row, stripe)
  }

  function Sent(d: Desk, row: Row, stripe: Stripe): (Desk, Reply) {
    if stripe.transfer.None? then
      (Updated(Applied(d, PutBack(row)), row.(refunded := true, status := Failed)), TransferFailed)
    else
      var moved := row.(transferId := stripe.transfer.value, status := Transferred);
      var e := Updated(d, moved);
      if stripe.payout.None? then (Updated(e, moved), PayoutFailed)
      else (Updated(e, moved.(payoutId := stripe.payout.value)), Submitted)
  }

  // ----- webhooks --------------------------------------------------------------------------------

  /** payout.failed, payout.canceled and transfer.reversed: refund unless already refunded. */
  function Reverted(d: Desk, row: Row): Desk {
    if row.refunded then
      if row.status != Failed then Updated(d, row.(status := Failed)) else d
    else
      Updated(Applied(d, PutBack(row)), row.(refunded := true, status := Failed))
  }

  function Confirmed(d: Desk, row: Row): Desk {
    if row.status == Paid then d else Updated(d, row.(status := Paid))
  }

  predicate Known(d: Desk, index: map<string, string>, key: string) {
    key in index && index[key] in d.rows
  }

  // ----- what the rows and indexes mean -----------------------------------------------------------

  ghost predicate Maps(rows: map<string, Row>, index: map<string, string>, field: Row -> string) {
    && (forall k :: k in index ==> k != "" && index[k] in rows && field(rows[index[k]]) == k)
    && (forall id :: id in rows && field(rows[id]) != "" ==> field(rows[id]) in index && index[field(rows[id])] == id)
  }

  /** Both indexes are exactly the rows' Stripe ids. */
  ghost predicate WellIndexed(d: Desk) {
    && (forall id :: id in d.rows ==> id != "" && d.rows[id].id == id)
    && Maps(d.rows, d.byTransfer, (r: Row) => r.transferId)
    && Maps(d.rows, d.byPayout, (r: Row) => r.payoutId)
  }

  /** The sum of an account's ledger entries that carry a reference. */
  ghost function Moved(entries: seq<L.Entry>, reference: string, a: L.Account): int {
    if entries == [] then 0
    else
      var e := entries[|entries| - 1];
      Moved(entries[..|entries| - 1], reference, a) + if e.reference == reference && e.account == a then e.amount else 0
  }

  /** What the ledger must show for a withdrawal: the gross amount taken, or nothing once it is refunded. */
  function Due(rows: map<string, Row>, id: string, a: L.Account): int {
    if id in rows && rows[id].account == a && !rows[id].refunded then -rows[id].gross else 0
  }

  ghost predicate Accounted(d: Desk) {
    forall id, a :: Moved(d.books.entries, Reference(id), a) == Due(d.rows, id, a)
  }

  /** Outside the handler every row is transferred, paid or failed, and a failed one has been refunded. */
  ghost predicate FailedIsRefunded(d: Desk) {
    forall id :: id in d.rows ==> d.rows[id].status != Pending && (d.rows[id].status == Failed ==> d.rows[id].refunded)
  }

  // ----- effects on the ledger -----------------------------------------------------------------------

  lemma PostedMoves(b: L.Books, p: L.Posting, reference: string, a: L.Account)
    ensures Moved(L.Posted(b, p).entries, reference, a)
         == Moved(b.entries, reference, a) + if p.reference == reference && p.account == a then p.amount else 0
  {
    var c := L.Posted(b, p);
    assert c.entries[..|c.entries| - 1] == b.entries;
  }

  lemma ReferenceInjective(i: string, j: string)
    requires Reference(i) == Reference(j)
    ensures i == j
  {
    var n := |Reference("")|;
    assert Reference(i)[n..] == i && Reference(j)[n..] == j;
  }

  /** An accepted movement under a withdrawal's reference shows up there, and nowhere else. */
  lemma AppliedMoves(d: Desk, row: Row, op: L.Op, id: string, a: L.Account)
    requires op == TakeOut(row) || op == PutBack(row)
    requires L.Accepts(d.books, op)
    ensures Moved(Applied(d, op).books.entries, Reference(id), a)
         == Moved(d.books.entries, Reference(id), a)
            + if id == row.id && a == row.account then (if op == TakeOut(row) then -row.gross else row.gross) else 0
  {
    PostedMoves(d.books, L.PostingOf(d.books, op), Reference(id), a);
    if Reference(row.id) == Reference(id) {
      ReferenceInjective(row.id, id);
    }
    hide Reference, Moved;
  }

  // ----- effects on the indexes -----------------------------------------------------------------------

  lemma UpdatedMaps(rows: map<string, Row>, index: map<string, string>, field: Row -> string, row: Row)
    requires Maps(rows, index, field) && row.id in rows
    requires field(row) == field(rows[row.id]) || field(row) !in index
    ensures Maps(rows[row.id := row], Reindexed(index, field(rows[row.id]), field(row), row.id), field)
  {
  }

  lemma UpdatedIndexed(d: Desk, row: Row)
    requires WellIndexed(d) && row.id in d.rows
    requires row.transferId == d.rows[row.id].transferId || row.transferId !in d.byTransfer
    requires row.payoutId == d.rows[row.id].payoutId || row.payoutId !in d.byPayout
    ensures WellIndexed(Updated(d, row))
  {
    UpdatedMaps(d.rows, d.byTransfer, (r: Row) => r.transferId, row);
    UpdatedMaps(d.rows, d.byPayout, (r: Row) => r.payoutId, row);
    hide Maps, Reindexed;
  }

  lemma CreatedIndexed(d: Desk, row: Row)
    requires WellIndexed(d) && Creatable(d, row) && row.transferId == "" && row.payoutId == ""
    ensures WellIndexed(Created(d, row))
  {
  }

  // ----- what every step keeps -------------------------------------------------------------------------

  ghost predicate Invariant(d: Desk) {
    WellIndexed(d) && Accounted(d) && FailedIsRefunded(d)
  }

  lemma UpdateKeepsAccounts(d: Desk, row: Row)
    requires Accounted(d) && row.id in d.rows
    requires row == d.rows[row.id].(status := row.status, transferId := row.transferId, payoutId := row.payoutId)
    ensures Accounted(Updated(d, row))
  {
    hide Moved, Reindexed;
    forall id, a ensures Moved(Updated(d, row).books.entries, Reference(id), a) == Due(Updated(d, row).rows, id, a) {
      assert Moved(d.books.entries, Reference(id), a) == Due(d.rows, id, a);
    }
  }

  lemma RefundKeepsAccounts(d: Desk, row: Row)
    requires Accounted(d) && row.id in d.rows && row.id != "" && row.refunded && !d.rows[row.id].refunded
    requires row.account == d.rows[row.id].account && row.gross == d.rows[row.id].gross
    ensures Accounted(Updated(Applied(d, PutBack(row)), row))
  {
    var e := Updated(Applied(d, PutBack(row)), row);
    hide Reindexed, Moved;
    forall id, a ensures Moved(e.books.entries, Reference(id), a) == Due(e.rows, id, a) {
      assert Moved(d.books.entries, Reference(id), a) == Due(d.rows, id, a);
      AppliedMoves(d, row, PutBack(row), id, a);
    }
  }

  lemma RefundKeeps(d: Desk, row: Row)
    requires WellIndexed(d) && Accounted(d) && row.id in d.rows && !d.rows[row.id].refunded
    requires row == d.rows[row.id].(refunded := true, status := Failed)
    requires OthersSettled(d, row.id)
    ensures Invariant(Updated(Applied(d, PutBack(row)), row))
  {
    RefundKeepsAccounts(d, row);
    var e := Applied(d, PutBack(row));
    assert WellIndexed(e);
    UpdatedIndexed(e, row);
    hide WellIndexed, Accounted, Reindexed;
  }

  lemma RevertedKeeps(d: Desk, id: string)
    requires Invariant(d) && id in d.rows
    ensures Invariant(Reverted(d, d.rows[id]))
  {
    var row := d.rows[id];
    if !row.refunded {
      RefundKeeps(d, row.(refunded := true, status := Failed));
    } else if row.status != Failed {
      UpdateKeepsAccounts(d, row.(status := Failed));
      UpdatedIndexed(d, row.(status := Failed));
    }
    hide WellIndexed, Accounted;
  }

  lemma ConfirmedKeeps(d: Desk, id: string)
    requires Invariant(d) && id in d.rows
    ensures Invariant(Confirmed(d, d.rows[id]))
  {
    UpdateKeepsAccounts(d, d.rows[id].(status := Paid));
    UpdatedIndexed(d, d.rows[id].(status := Paid));
    hide WellIndexed, Accounted;
  }

  ghost predicate FreshIds(d: Desk, stripe: Stripe) {
    && (stripe.transfer.Some? ==> stripe.transfer.value !in d.byTransfer)
    && (stripe.payout.Some? ==> stripe.payout.value !in d.byPayout)
  }

  ghost predicate OthersSettled(d: Desk, id: string) {
    forall k :: k in d.rows && k != id ==>
      d.rows[k].status != Pending && (d.rows[k].status == Failed ==> d.rows[k].refunded)
  }

  lemma IdsKeep(d: Desk, row: Row)
    requires WellIndexed(d) && Accounted(d) && row.id in d.rows && OthersSettled(d, row.id)
    requires row == d.rows[row.id].(status := Transferred, transferId := row.transferId, payoutId := row.payoutId)
    requires row.transferId == d.rows[row.id].transferId || row.transferId !in d.byTransfer
    requires row.payoutId == d.rows[row.id].payoutId || row.payoutId !in d.byPayout
    ensures Invariant(Updated(d, row)) && Updated(d, row).rows == d.rows[row.id := row]
    ensures row.payoutId == d.rows[row.id].payoutId ==> Updated(d, row).byPayout == d.byPayout
  {
    UpdateKeepsAccounts(d, row);
    UpdatedIndexed(d, row);
    assert row.id != "";
    hide WellIndexed, Accounted, Indexed;
  }

  lemma SentKeeps(d: Desk, row: Row, stripe: Stripe)
    requires WellIndexed(d) && Accounted(d) && FreshIds(d, stripe) && OthersSettled(d, row.id)
    requires row.id in d.rows && d.rows[row.id] == row && !row.refunded && row.transferId == "" && row.payoutId == ""
    ensures Invariant(Sent(d, row, stripe).0)
  {
    if stripe.transfer.None? {
      RefundKeeps(d, row.(refunded := true, status := Failed));
    } else {
      var moved := row.(transferId := stripe.transfer.value, status := Transferred);
      hide WellIndexed, Accounted, Updated;
      IdsKeep(d, moved);
      IdsKeep(Updated(d, moved), if stripe.payout.Some? then moved.(payoutId := stripe.payout.value) else moved);
      hide Invariant;
    }
  }

  lemma TakenOut(d: Desk, row: Row)
    requires Accounted(d) && L.Accepts(d.books, TakeOut(row))
    ensures Creatable(d, row) && !row.refunded ==> Accounted(Created(Applied(d, TakeOut(row)), row))
    ensures Accounted(Applied(Applied(d, TakeOut(row)), PutBack(row)))
  {
    var e := Applied(d, TakeOut(row));
    hide Moved, Indexed;
    forall id, a
      ensures Moved(e.books.entries, Reference(id), a) ==
              Due(d.rows, id, a) - if id == row.id && a == row.account then row.gross else 0
    {
      assert Moved(d.books.entries, Reference(id), a) == Due(d.rows, id, a);
      AppliedMoves(d, row, TakeOut(row), id, a);
    }
    forall id, a ensures Moved(Applied(e, PutBack(row)).books.entries, Reference(id), a) == Due(d.rows, id, a) {
      AppliedMoves(e, row, PutBack(row), id, a);
    }
    hide Reference;
  }

  lemma WithdrawnKeeps(d: Desk, r: Request, stripe: Stripe)
    requires Invariant(d) && FreshIds(d, stripe)
    ensures Invariant(Withdrawn(d, r, stripe).0)
  {
    var row := NewRow(r);
    if Payable(r.instant, r.gross) && L.Accepts(d.books, TakeOut(row)) {
      TakenOut(d, row);
      var e := Applied(d, TakeOut(row));
      assert WellIndexed(e);
      if Creatable(e, row) {
        CreatedIndexed(e, row);
        var c := Created(e, row);
        hide WellIndexed, Accounted;
        SentKeeps(c, row, stripe);
        hide Invariant;
      }
    }
    hide Payable, Reference, TakeOut, PutBack;
  }

  // ----- every history ------------------------------------------------------------------------------------

  datatype Event =
    | Withdraw(request: Request, stripe: Stripe)
    | PayoutPaid(payout: string)
    | PayoutFailure(payout: string)
    | TransferReversed(transfer: string)
    | Elsewhere(op: L.Op)

  /**
   * Stripe never reuses an id, and the rest of the system, which may prune, never posts under a
   * withdrawal's reference.
   */
  ghost predicate Enabled(d: Desk, e: Event) {
    match e
    case Withdraw(r, stripe) => FreshIds(d, stripe)
    case Elsewhere(op) => op.Prune? || forall id :: L.PostingOf(d.books, op).reference != Reference(id)
    case _ => true
  }

  function Step(d: Desk, e: Event): Desk {
    match e
    case Withdraw(r, stripe) => Withdrawn(d, r, stripe).0
    case PayoutPaid(payout) => if Known(d, d.byPayout, payout) then Confirmed(d, d.rows[d.byPayout[payout]]) else d
    case PayoutFailure(payout) => if Known(d, d.byPayout, payout) then Reverted(d, d.rows[d.byPayout[payout]]) else d
    case TransferReversed(transfer) =>
      if Known(d, d.byTransfer, transfer) then Reverted(d, d.rows[d.byTransfer[transfer]]) else d
    case Elsewhere(op) => Applied(d, op)
  }

  predicate Prunes(e: Event) { e.Elsewhere? && e.op.Prune? }

  lemma ElsewhereKeeps(d: Desk, op: L.Op)
    requires Invariant(d) && Enabled(d, Elsewhere(op)) && !op.Prune?
    ensures Invariant(Applied(d, op))
  {
    var e := Applied(d, op);
    forall id, a ensures Moved(e.books.entries, Reference(id), a) == Due(e.rows, id, a) {
      assert Moved(d.books.entries, Reference(id), a) == Due(d.rows, id, a);
      if L.Accepts(d.books, op) {
        PostedMoves(d.books, L.PostingOf(d.books, op), Reference(id), a);
      }
    }
  }

  lemma StepKeeps(d: Desk, e: Event)
    requires Invariant(d) && Enabled(d, e) && !Prunes(e)
    ensures Invariant(Step(d, e))
  {
    hide Invariant, Withdrawn, Confirmed, Reverted;
    match e
    case Withdraw(r, stripe) => WithdrawnKeeps(d, r, stripe);
    case PayoutPaid(payout) =>
      if Known(d, d.byPayout, payout) {
        ConfirmedKeeps(d, d.byPayout[payout]);
      }
    case PayoutFailure(payout) =>
      if Known(d, d.byPayout, payout) {
        RevertedKeeps(d, d.byPayout[payout]);
      }
    case TransferReversed(transfer) =>
      if Known(d, d.byTransfer, transfer) {
        RevertedKeeps(d, d.byTransfer[transfer]);
      }
    case Elsewhere(op) => ElsewhereKeeps(d, op);
  }

  ghost predicate History(ds: seq<Desk>, es: seq<Event>) {
    && |ds| == |es| + 1 && ds[0] == NEW_DESK
    && forall i :: 0 <= i < |es| ==> Enabled(ds[i], es[i]) && ds[i + 1] == Step(ds[i], es[i])
  }

  /** The desk with its whole ledger: the same events, but nothing was ever pruned. */
  function Unpruned(es: seq<Event>): Desk {
    if es == [] then NEW_DESK
    else
      var d, e := Unpruned(es[..|es| - 1]), es[|es| - 1];
      if Prunes(e) then d else Step(d, e)
  }

  /** d is f, of whose ledger only the newest entries are kept. */
  ghost predicate Shortens(d: Desk, f: Desk) {
    d == f.(books := d.books) && L.Truncates(d.books, f.books)
  }

  lemma AppliedShortens(d: Desk, f: Desk, op: L.Op)
    requires Shortens(d, f) && !op.Prune?
    ensures Shortens(Applied(d, op), Applied(f, op)) && L.Accepts(d.books, op) == L.Accepts(f.books, op)
  {
    L.ApplyTruncates(d.books, f.books, op);
    assert L.Accepts(d.books, op) == L.Accepts(f.books, op);
    hide L.Truncates, L.Apply;
  }

  lemma UpdatedShortens(d: Desk, f: Desk, row: Row)
    requires Shortens(d, f)
    ensures Shortens(Updated(d, row), Updated(f, row)) && Shortens(Created(d, row), Created(f, row))
  {
    hide L.Truncates, Reindexed, Indexed;
  }

  lemma RevertedShortens(d: Desk, f: Desk, row: Row)
    requires Shortens(d, f)
    ensures Shortens(Reverted(d, row), Reverted(f, row))
  {
    AppliedShortens(d, f, PutBack(row));
    UpdatedShortens(d, f, row.(status := Failed));
    UpdatedShortens(Applied(d, PutBack(row)), Applied(f, PutBack(row)), row.(refunded := true, status := Failed));
    hide Shortens, Updated, Applied;
  }

  lemma SentShortens(d: Desk, f: Desk, row: Row, stripe: Stripe)
    requires Shortens(d, f)
    ensures Shortens(Sent(d, row, stripe).0, Sent(f, row, stripe).0)
  {
    if stripe.transfer.None? {
      AppliedShortens(d, f, PutBack(row));
      UpdatedShortens(Applied(d, PutBack(row)), Applied(f, PutBack(row)), row.(refunded := true, status := Failed));
    } else {
      var moved := row.(transferId := stripe.transfer.value, status := Transferred);
      var last := if stripe.payout.Some? then moved.(payoutId := stripe.payout.value) else moved;
      UpdatedShortens(d, f, moved);
      UpdatedShortens(Updated(d, moved), Updated(f, moved), last);
    }
    hide Shortens, Updated, Applied;
  }

  lemma WithdrawnShortens(d: Desk, f: Desk, r: Request, stripe: Stripe)
    requires Shortens(d, f)
    ensures Shortens(Withdrawn(d, r, stripe).0, Withdrawn(f, r, stripe).0)
  {
    var row := NewRow(r);
    AppliedShortens(d, f, TakeOut(row));
    var a, b := Applied(d, TakeOut(row)), Applied(f, TakeOut(row));
    assert Creatable(a, row) == Creatable(b, row);
    hide L.Accepts, L.Apply, L.Truncates, Created, Sent, Payable, Applied, Creatable;
    AppliedShortens(a, b, PutBack(row));
    UpdatedShortens(a, b, row);
    SentShortens(Created(a, row), Created(b, row), row, stripe);
    hide Shortens;
  }

  lemma StepShortens(d: Desk, f: Desk, e: Event)
    requires Shortens(d, f)
    ensures Shortens(Step(d, e), if Prunes(e) then f else Step(f, e))
  {
    match e
    case Withdraw(r, stripe) =>
      hide Shortens, Withdrawn;
      WithdrawnShortens(d, f, r, stripe);
    case PayoutPaid(payout) =>
      if Known(d, d.byPayout, payout) {
        var row := d.rows[d.byPayout[payout]];
        UpdatedShortens(d, f, row.(status := Paid));
      }
      hide Updated, L.Truncates;
    case PayoutFailure(payout) =>
      if Known(d, d.byPayout, payout) {
        RevertedShortens(d, f, d.rows[d.byPayout[payout]]);
      }
      hide Reverted, L.Truncates;
    case TransferReversed(transfer) =>
      if Known(d, d.byTransfer, transfer) {
        RevertedShortens(d, f, d.rows[d.byTransfer[transfer]]);
      }
      hide Reverted, L.Truncates;
    case Elsewhere(op) =>
      L.ApplyTruncates(d.books, f.books, op);
      hide L.Apply, L.Truncates;
  }

  lemma EnabledShortens(d: Desk, f: Desk, e: Event)
    requires Shortens(d, f) && Enabled(d, e)
    ensures Enabled(f, e)
  {
    hide L.Truncates, Reference;
    if e.Elsewhere? && !e.op.Prune? {
      assert L.PostingOf(d.books, e.op).reference == L.PostingOf(f.books, e.op).reference;
    }
  }

  /**
   * However webhooks are replayed, reordered and mixed, a withdrawal's entries in the whole
   * ledger sum to the gross amount taken while it is not refunded and to nothing once it is, for
   * its own account and every other; both indexes are exactly the rows' Stripe ids; and pruning
   * changes nothing but how much of that ledger is still kept.
   */
  lemma {:induction false} ReplaySafe(ds: seq<Desk>, es: seq<Event>, i: nat)
    requires History(ds, es) && i < |ds|
    ensures Invariant(Unpruned(es[..i])) && Shortens(ds[i], Unpruned(es[..i]))
    ensures WellIndexed(ds[i]) && FailedIsRefunded(ds[i])
  {
    if i == 0 {
      NewDesk();
    } else {
      ReplaySafe(ds, es, i - 1);
      var f, e := Unpruned(es[..i - 1]), es[i - 1];
      assert es[..i][..i - 1] == es[..i - 1];
      assert Enabled(ds[i - 1], e);
      StepShortens(ds[i - 1], f, e);
      EnabledShortens(ds[i - 1], f, e);
      if !Prunes(e) {
        StepKeeps(f, e);
      }
      hide Step, Enabled, Accounted, L.Truncates, WellIndexed, FailedIsRefunded;
      RowsDecide(ds[i], Unpruned(es[..i]));
    }
  }

  lemma RowsDecide(d: Desk, f: Desk)
    requires Shortens(d, f) && Invariant(f)
    ensures WellIndexed(d) && FailedIsRefunded(d)
  {
    hide L.Truncates, Accounted;
  }

  lemma NewDesk()
    ensures Invariant(NEW_DESK) && Shortens(NEW_DESK, NEW_DESK)
  {
  }

  // ----- a refund restores both balances -----------------------------------------------------------------

  /** A withdrawal whose transfer fails leaves every balance and every withdrawable balance as it was. */
  lemma FailedTransferRestores(d: Desk, r: Request, payout: Option<string>, a: L.Account)
    ensures var e := Withdrawn(d, r, Stripe(None, payout)).0;
      L.Balance(e.books, a) == L.Balance(d.books, a) && L.Withdrawable(e.books, a) == L.Withdrawable(d.books, a)
  {
    WithdrawalTakes(d, r, Stripe(None, payout));
    hide Payable, L.Accepts, L.Apply, Updated, Created;
  }

  // ----- refunded and failed --------------------------------------------------------------------------------

  ghost predicate FailedIffRefunded(d: Desk) {
    forall id :: id in d.rows ==> (d.rows[id].status == Failed <==> d.rows[id].refunded)
  }

  /** A payout.paid delivered for a withdrawal that was already refunded. */
  predicate PaysRefunded(d: Desk, e: Event) {
    e.PayoutPaid? && Known(d, d.byPayout, e.payout) && d.rows[d.byPayout[e.payout]].refunded
  }

  lemma WebhookStatus(d: Desk, e: Event)
    requires WellIndexed(d) && FailedIffRefunded(d) && !e.Withdraw?
    ensures FailedIffRefunded(Step(d, e)) <==> !PaysRefunded(d, e)
  {
    hide Reindexed;
    if e.PayoutPaid? && Known(d, d.byPayout, e.payout) {
      var id := d.byPayout[e.payout];
      assert d.rows[id].id == id && id != "";
      assert Step(d, e).rows[id].status == Paid && Step(d, e).rows[id].refunded == d.rows[id].refunded;
    }
  }

  lemma WithdrawStatus(d: Desk, r: Request, stripe: Stripe)
    requires FailedIffRefunded(d)
    ensures FailedIffRefunded(Withdrawn(d, r, stripe).0)
  {
    hide Withdrawn, InstantFee;
    WithdrawalRecords(d, r, stripe);
  }

  /**
   * Throughout a history a withdrawal is failed exactly when it is refunded, iff no payout.paid
   * is ever delivered for a withdrawal that was already refunded.
   */
  lemma StatusFollowsRefund(ds: seq<Desk>, es: seq<Event>)
    requires History(ds, es)
    ensures (forall i :: 0 <= i < |ds| ==> FailedIffRefunded(ds[i]))
       <==> (forall i :: 0 <= i < |es| ==> !PaysRefunded(ds[i], es[i]))
  {
    if forall i :: 0 <= i < |ds| ==> FailedIffRefunded(ds[i]) {
      forall i | 0 <= i < |es| ensures !PaysRefunded(ds[i], es[i]) {
        StatusStep(ds, es, i);
        assert FailedIffRefunded(ds[i + 1]);
      }
    }
    if forall i :: 0 <= i < |es| ==> !PaysRefunded(ds[i], es[i]) {
      forall i | 0 <= i < |ds| ensures FailedIffRefunded(ds[i]) {
        StatusUntil(ds, es, i);
      }
    }
  }

  lemma StatusStep(ds: seq<Desk>, es: seq<Event>, i: nat)
    requires History(ds, es) && i < |es| && FailedIffRefunded(ds[i])
    ensures FailedIffRefunded(ds[i + 1]) <==> !PaysRefunded(ds[i], es[i])
  {
    ReplaySafe(ds, es, i);
    assert ds[i + 1] == Step(ds[i], es[i]);
    if es[i].Withdraw? {
      WithdrawStatus(ds[i], es[i].request, es[i].stripe);
      hide Withdrawn, FailedIffRefunded;
    } else {
      WebhookStatus(ds[i], es[i]);
      hide Step, FailedIffRefunded;
    }
  }

  lemma {:induction false} StatusUntil(ds: seq<Desk>, es: seq<Event>, i: nat)
    requires History(ds, es) && i < |ds|
    requires forall k :: 0 <= k < |es| ==> !PaysRefunded(ds[k], es[k])
    ensures FailedIffRefunded(ds[i])
  {
    if i > 0 {
      StatusUntil(ds, es, i - 1);
      StatusStep(ds, es, i - 1);
      hide Step, Enabled, FailedIffRefunded;
    }
  }

  /** A history that ends with a withdrawal both refunded and marked paid. */
  lemma PaidAfterRefund() returns (ds: seq<Desk>, es: seq<Event>)
    ensures History(ds, es)
    ensures var d := ds[|es|]; "w" in d.rows && d.rows["w"].status == Paid && d.rows["w"].refunded
  {
    var earn := L.CreditWithdrawable("a", 1_000_000, L.ReferralReward, "");
    var r, stripe := Request("w", "a", 1_000_000, false), Stripe(Some("t"), Some("p"));
    es := [Elsewhere(earn), Withdraw(r, stripe), PayoutFailure("p"), PayoutPaid("p")];
    hide Withdrawn, Applied, Reverted, Confirmed, Enabled;
    var d1 := Applied(NEW_DESK, earn);
    var d2 := Withdrawn(d1, r, stripe).0;
    EarnedAndSent();
    FailedThenPaid(d2);
    var d3 := Step(d2, es[2]);
    var d4 := Step(d3, es[3]);
    EventsEnabled(d2, d3);
    assert Step(NEW_DESK, es[0]) == d1 && Step(d1, es[1]) == d2;
    hide Step;
    ds := [NEW_DESK, d1, d2, d3, d4];
  }

  lemma EventsEnabled(d: Desk, e: Desk)
    ensures var earn := L.CreditWithdrawable("a", 1_000_000, L.ReferralReward, "");
      && Enabled(NEW_DESK, Elsewhere(earn))
      && Enabled(Applied(NEW_DESK, earn),
                 Withdraw(Request("w", "a", 1_000_000, false), Stripe(Some("t"), Some("p"))))
    ensures Enabled(d, PayoutFailure("p")) && Enabled(e, PayoutPaid("p"))
  {
  }

  lemma FailedThenPaid(d: Desk)
    requires Invariant(d) && "w" in d.rows && d.rows["w"].payoutId == "p"
    ensures var e := Step(Step(d, PayoutFailure("p")), PayoutPaid("p"));
      "w" in e.rows && e.rows["w"].status == Paid && e.rows["w"].refunded
  {
    Located(d, "w");
    hide Step, WellIndexed, Accounted, FailedIsRefunded;
    StepKeeps(d, PayoutFailure("p"));
    FailureRefunds(d, "w", PayoutFailure("p"));
    PaidConfirms(Step(d, PayoutFailure("p")), "w");
  }

  lemma EarnedAndSent()
    ensures var d := Applied(NEW_DESK, L.CreditWithdrawable("a", 1_000_000, L.ReferralReward, ""));
      var e := Withdrawn(d, Request("w", "a", 1_000_000, false), Stripe(Some("t"), Some("p"))).0;
      Invariant(e) && "w" in e.rows && e.rows["w"].payoutId == "p"
  {
    var earn := L.CreditWithdrawable("a", 1_000_000, L.ReferralReward, "");
    var d := Applied(NEW_DESK, earn);
    var r, stripe := Request("w", "a", 1_000_000, false), Stripe(Some("t"), Some("p"));
    assert Covered(d.books, r) && d.rows == map[];
    EventsEnabled(d, d);
    NewDesk();
    hide Withdrawn, Applied, Invariant, Shortens, L.Apply;
    StepKeeps(NEW_DESK, Elsewhere(earn));
    StepKeeps(d, Withdraw(r, stripe));
    AnswerMeans(d, r, stripe);
    WithdrawalRecords(d, r, stripe);
  }

  // ----- what each notice does ---------------------------------------------------------------------------------

  /** A failed, cancelled or reversed notice for a row: by its payout or by its transfer. */
  predicate Fails(e: Event, row: Row) {
    || (e == PayoutFailure(row.payoutId) && row.payoutId != "")
    || (e == TransferReversed(row.transferId) && row.transferId != "")
  }

  /** Both balances of one account are up by an amount, and nobody else's moved. */
  ghost predicate Gained(b: L.Books, c: L.Books, account: L.Account, amount: int) {
    forall a ::
      && L.Balance(c, a) == L.Balance(b, a) + (if a == account then amount else 0)
      && L.Withdrawable(c, a) == L.Withdrawable(b, a) + (if a == account then amount else 0)
  }

  /** Only the one row changed, and both indexes are as before. */
  ghost predicate OnlyRow(d: Desk, f: Desk, row: Row) {
    f.rows == d.rows[row.id := row] && f.byTransfer == d.byTransfer && f.byPayout == d.byPayout
  }

  lemma PutBackGains(d: Desk, row: Row)
    ensures Gained(d.books, Applied(d, PutBack(row)).books, row.account, row.gross)
    ensures Applied(d, PutBack(row)) == d.(books := Applied(d, PutBack(row)).books)
  {
    hide Reference;
  }

  lemma Located(d: Desk, id: string)
    requires WellIndexed(d) && id in d.rows
    ensures id != "" && d.rows[id].id == id
    ensures d.rows[id].payoutId != "" ==>
      d.rows[id].payoutId in d.byPayout && d.byPayout[d.rows[id].payoutId] == id
    ensures d.rows[id].transferId != "" ==>
      d.rows[id].transferId in d.byTransfer && d.byTransfer[d.rows[id].transferId] == id
  {
  }

  lemma StatusUpdate(d: Desk, row: Row)
    requires row.id in d.rows && row.id != ""
    requires row.transferId == d.rows[row.id].transferId && row.payoutId == d.rows[row.id].payoutId
    ensures OnlyRow(d, Updated(d, row), row) && Updated(d, row).books == d.books
  {
  }

  /**
   * A failure notice leaves its row failed and refunded. If it was not refunded before, the gross
   * amount is back in both balances of its account; otherwise no money moves. No other row, account
   * or index entry changes.
   */
  lemma FailureRefunds(d: Desk, id: string, e: Event)
    requires WellIndexed(d) && id in d.rows && Fails(e, d.rows[id])
    ensures var row := d.rows[id];
      && OnlyRow(d, Step(d, e), row.(refunded := true, status := Failed))
      && (if row.refunded then Step(d, e).books == d.books
          else Gained(d.books, Step(d, e).books, row.account, row.gross))
  {
    var row := d.rows[id];
    Located(d, id);
    assert Step(d, e) == Reverted(d, row) by {
      hide Reverted, WellIndexed;
    }
    hide WellIndexed, Step;
    var failed := row.(refunded := true, status := Failed);
    PutBackGains(d, row);
    if row.refunded {
      StatusUpdate(d, failed);
      assert row.status == Failed ==> failed == row && d.rows[id := row] == d.rows;
    } else {
      StatusUpdate(Applied(d, PutBack(row)), failed);
    }
    hide Updated, PutBack, Gained, L.Apply;
  }

  /** A paid notice marks its row paid, and moves no money. */
  lemma PaidConfirms(d: Desk, id: string)
    requires WellIndexed(d) && id in d.rows && d.rows[id].payoutId != ""
    ensures var f := Step(d, PayoutPaid(d.rows[id].payoutId));
      OnlyRow(d, f, d.rows[id].(status := Paid)) && f.books == d.books
  {
    Located(d, id);
    hide WellIndexed;
    StatusUpdate(d, d.rows[id].(status := Paid));
    assert d.rows[id].status == Paid ==> d.rows[id := d.rows[id]] == d.rows;
    hide Updated;
  }

  /** A notice for an id that no row carries changes nothing. */
  lemma UnknownIgnored(d: Desk, e: Event)
    requires WellIndexed(d) && (e.PayoutPaid? || e.PayoutFailure? || e.TransferReversed?)
    requires forall id :: id in d.rows ==>
      if e.TransferReversed? then d.rows[id].transferId != e.transfer else d.rows[id].payoutId != e.payout
    ensures Step(d, e) == d
  {
    hide Reverted, Confirmed;
  }

  /** In any history, a failure notice gives the money back unless it was given back before. */
  lemma FailureRefundsInHistory(ds: seq<Desk>, es: seq<Event>, i: nat, id: string)
    requires History(ds, es) && i < |es| && id in ds[i].rows && Fails(es[i], ds[i].rows[id])
    ensures var row := ds[i].rows[id];
      && OnlyRow(ds[i], ds[i + 1], row.(refunded := true, status := Failed))
      && Gained(ds[i].books, ds[i + 1].books, row.account, if row.refunded then 0 else row.gross)
  {
    ReplaySafe(ds, es, i);
    assert ds[i + 1] == Step(ds[i], es[i]);
    hide History, WellIndexed, Step, Invariant, Shortens, FailedIsRefunded;
    FailureRefunds(ds[i], id, es[i]);
  }

  // ----- what the withdraw handler does ------------------------------------------------------------------------

  /** The account can cover the amount out of its earnings. */
  predicate Covered(b: L.Books, r: Request) {
    r.gross <= L.Withdrawable(b, r.account) && r.gross <= L.Balance(b, r.account)
  }

  /** What each answer means. */
  ghost predicate Means(d: Desk, r: Request, stripe: Stripe, reply: Reply) {
    var unused := r.id != "" && r.id !in d.rows;
    match reply
    case Invalid => r.gross < 1_000_000
    case Insufficient => r.gross >= 1_000_000 && !Covered(d.books, r)
    case NotPersisted => r.gross >= 1_000_000 && Covered(d.books, r) && !unused
    case TransferFailed => r.gross >= 1_000_000 && Covered(d.books, r) && unused && stripe.transfer.None?
    case PayoutFailed =>
      r.gross >= 1_000_000 && Covered(d.books, r) && unused && stripe.transfer.Some? && stripe.payout.None?
    case Submitted =>
      r.gross >= 1_000_000 && Covered(d.books, r) && unused && stripe.transfer.Some? && stripe.payout.Some?
  }

  lemma AnswerMeans(d: Desk, r: Request, stripe: Stripe)
    requires INT64_MIN <= r.gross <= INT64_MAX
    ensures Means(d, r, stripe, Withdrawn(d, r, stripe).1)
  {
    PayableAmounts(r.instant, r.gross);
    hide Payable, Reference, Updated, Created, L.Apply;
  }

  /**
   * The money is gone from both balances exactly when the transfer was made; in every other case
   * all balances are what they were.
   */
  lemma WithdrawalTakes(d: Desk, r: Request, stripe: Stripe)
    ensures var (f, reply) := Withdrawn(d, r, stripe);
      Gained(d.books, f.books, r.account, if reply == PayoutFailed || reply == Submitted then -r.gross else 0)
  {
    var row := NewRow(r);
    if Payable(r.instant, r.gross) && L.Accepts(d.books, TakeOut(row)) {
      var e := Applied(d, TakeOut(row));
      hide Payable, L.Accepts, Gained, Updated, Created, L.Apply, Reference;
      TakeOutLoses(d, row);
      PutBackGains(e, row);
      GainedBack(d.books, e.books, Applied(e, PutBack(row)).books, row.account, row.gross);
      BooksStay(e, row);
      SentBooks(Created(e, row), row, stripe);
    } else {
      hide Payable, L.Accepts, L.Apply;
    }
  }

  lemma TakeOutLoses(d: Desk, row: Row)
    requires L.Accepts(d.books, TakeOut(row))
    ensures Gained(d.books, Applied(d, TakeOut(row)).books, row.account, -row.gross)
  {
    hide Reference;
  }

  lemma GainedBack(b: L.Books, c: L.Books, e: L.Books, account: L.Account, amount: int)
    requires Gained(b, c, account, -amount) && Gained(c, e, account, amount)
    ensures Gained(b, e, account, 0)
  {
  }

  lemma BooksStay(d: Desk, row: Row)
    ensures Updated(d, row).books == d.books && Created(d, row).books == d.books
  {
  }

  lemma SentBooks(d: Desk, row: Row, stripe: Stripe)
    ensures var (f, reply) := Sent(d, row, stripe);
      && (reply == TransferFailed || reply == PayoutFailed || reply == Submitted)
      && f.books == if reply == TransferFailed then L.Apply(d.books, PutBack(row)) else d.books
  {
    hide Reindexed, Indexed, L.Apply, PutBack;
  }

  /** The row records the request, and splits its amount into the fee and what is sent on. */
  ghost predicate Records(r: Request, row: Row) {
    && row.id == r.id && row.account == r.account && row.gross == r.gross && row.instant == r.instant
    && row.fee + row.net == r.gross
    && (!r.instant ==> row.fee == 0) && (r.instant && r.gross > 0 ==> row.fee == InstantFee(r.gross))
  }

  /** The row a withdrawal leaves behind, if any, and where it stands. */
  lemma WithdrawalRecords(d: Desk, r: Request, stripe: Stripe)
    ensures var (f, reply) := Withdrawn(d, r, stripe);
      if reply == TransferFailed || reply == PayoutFailed || reply == Submitted then
        && r.id in f.rows && f.rows == d.rows[r.id := f.rows[r.id]] && Records(r, f.rows[r.id])
        && var row := f.rows[r.id];
           && row.status == (if reply == TransferFailed then Failed else Transferred)
           && row.refunded == (reply == TransferFailed)
           && row.transferId == (if reply != TransferFailed && stripe.transfer.Some? then stripe.transfer.value else "")
           && row.payoutId == (if reply == Submitted && stripe.payout.Some? then stripe.payout.value else "")
      else f.rows == d.rows
  {
    hide Payable, Reference, Reindexed, Indexed, L.Apply, L.Accepts, InstantFee;
  }

  /** The instant fee is 1.5 per cent rounded down, and at least half a dollar, iff the product fits an int64. */
  lemma InstantFeeExact(gross: int)
    requires 0 < gross <= INT64_MAX
    ensures gross * 150 <= INT64_MAX ==>
      && InstantFee(gross) >= 500_000
      && (InstantFee(gross) > 500_000 ==> 10_000 * InstantFee(gross) <= 150 * gross < 10_000 * (InstantFee(gross) + 1))
      && (InstantFee(gross) == 500_000 ==> 150 * gross < 10_000 * 500_001)
    ensures gross * 150 > INT64_MAX ==> 10_000 * InstantFee(gross) < 150 * gross - 10_000
  {
    if gross * 150 > INT64_MAX {
      WrapDrops(gross * 150);
    }
  }

  // ----- the handlers ------------------------------------------------------------------------------------------

  class StripeDesk {
    const store: L.MemoryStore
    var rows: map<string, Row>
    var byTransfer: map<string, string>
    var byPayout: map<string, string>

    ghost function State(): Desk
      reads this, store
    {
      Desk(store.State(), rows, byTransfer, byPayout)
    }

    constructor (store: L.MemoryStore)
      ensures this.store == store && State() == NEW_DESK.(books := store.State())
    {
      this.store := store;
      rows, byTransfer, byPayout := map[], map[], map[];
    }

    method CreateStripeWithdrawal(w: Row) returns (ok: bool)
      modifies this
      ensures ok == Creatable(old(State()), w)
      ensures State() == if ok then Created(old(State()), w) else old(State())
    {
      if w.id == "" || w.id in rows {
        return false;
      }
      rows := rows[w.id := w];
      if w.transferId != "" {
        byTransfer := byTransfer[w.transferId := w.id];
      }
      if w.payoutId != "" {
        byPayout := byPayout[w.payoutId := w.id];
      }
      ok := true;
    }

    method UpdateStripeWithdrawal(w: Row) returns (ok: bool)
      modifies this
      ensures ok == (w.id != "" && w.id in old(rows))
      ensures State() == Updated(old(State()), w)
    {
      if w.id == "" || w.id !in rows {
        return false;
      }
      var existing := rows[w.id];
      if existing.transferId != w.transferId {
        if existing.transferId != "" {
          byTransfer := byTransfer - {existing.transferId};
        }
        if w.transferId != "" {
          byTransfer := byTransfer[w.transferId := w.id];
        }
      }
      if existing.payoutId != w.payoutId {
        if existing.payoutId != "" {
          byPayout := byPayout - {existing.payoutId};
        }
        if w.payoutId != "" {
          byPayout := byPayout[w.payoutId := w.id];
        }
      }
      rows := rows[w.id := w];
      ok := true;
    }

    method HandleStripeWithdraw(r: Request, stripe: Stripe) returns (reply: Reply)
      modifies this, store
      ensures (State(), reply) == Withdrawn(old(State()), r, stripe)
    {
      hide Reference, Updated, Created, L.Posted;
      if !Payable(r.instant, r.gross) {
        return Invalid;
      }
      var wd := NewRow(r);
      var ok := store.DebitWithdrawable(r.account, r.gross, L.StripePayout, Reference(r.id));
      if !ok {
        return Insufficient;
      }
      ok := CreateStripeWithdrawal(wd);
      if !ok {
        store.CreditWithdrawable(r.account, r.gross, L.Refund, Reference(r.id));
        return NotPersisted;
      }
      if stripe.transfer.None? {
        store.CreditWithdrawable(r.account, r.gross, L.Refund, Reference(r.id));
        wd := wd.(refunded := true, status := Failed);
        var _ := UpdateStripeWithdrawal(wd);
        return TransferFailed;
      }
      wd := wd.(transferId := stripe.transfer.value, status := Transferred);
      var _ := UpdateStripeWithdrawal(wd);
      if stripe.payout.None? {
        var _ := UpdateStripeWithdrawal(wd);
        return PayoutFailed;
      }
      wd := wd.(payoutId := stripe.payout.value);
      var _ := UpdateStripeWithdrawal(wd);
      reply := Submitted;
    }

    method RevertWithdrawal(wd: Row)
      modifies this, store
      ensures State() == Reverted(old(State()), wd)
    {
      hide Reference, Updated, L.Apply;
      if wd.refunded {
        if wd.status != Failed {
          var _ := UpdateStripeWithdrawal(wd.(status := Failed));
        }
        return;
      }
      store.CreditWithdrawable(wd.account, wd.gross, L.Refund, Reference(wd.id));
      var _ := UpdateStripeWithdrawal(wd.(refunded := true, status := Failed));
    }

    method HandlePayoutTerminal(payout: string, success: bool)
      requires WellIndexed(State())
      modifies this, store
      ensures State() == Step(old(State()), if success then PayoutPaid(payout) else PayoutFailure(payout))
    {
      if payout !in byPayout {
        return;
      }
      var wd := rows[byPayout[payout]];
      if success {
        if wd.status == Paid {
          return;
        }
        var _ := UpdateStripeWithdrawal(wd.(status := Paid));
        return;
      }
      hide WellIndexed, Reverted;
      RevertWithdrawal(wd);
    }

    method HandleTransferFailed(transfer: string)
      requires WellIndexed(State())
      modifies this, store
      ensures State() == Step(old(State()), TransferReversed(transfer))
    {
      if transfer !in byTransfer {
        return;
      }
      var wd := rows[byTransfer[transfer]];
      hide WellIndexed, Reverted;
      RevertWithdrawal(wd);
    }
  }
}
