/** Balances, withdrawable balances and the append-only ledger of the in-memory store. */
module Ledger {
  import opened Sums

  type Account = string

  datatype Kind = Deposit | Charge | Payout | PlatformFee | ReferralReward | StripePayout | Refund | OtherKind

  /** A positive amount is a credit, a negative one a debit. */
  datatype Entry = Entry(id: int, account: Account, kind: Kind, amount: int, balanceAfter: int, reference: string)

  datatype Books = Books(balances: map<Account, int>, withdrawable: map<Account, int>, entries: seq<Entry>, lastId: int)

  const EMPTY := Books(map[], map[], [], 0)

  function Get(m: map<Account, int>, a: Account): int {
    if a in m then m[a] else 0
  }

  function Balance(b: Books, a: Account): int { Get(b.balances, a) }

  function Withdrawable(b: Books, a: Account): int { Get(b.withdrawable, a) }

  // ----- operations --------------------------------------------------------------

  datatype Op =
    | Credit(account: Account, amount: int, kind: Kind, reference: string)
    | CreditWithdrawable(account: Account, amount: int, kind: Kind, reference: string)
    | CreditProvider(account: Account, amount: int, job: string)
    | Debit(account: Account, amount: int, kind: Kind, reference: string)
    | DebitWithdrawable(account: Account, amount: int, kind: Kind, reference: string)
    | Prune(maxEntries: int)

  /** One movement: the signed amount, what the entry says, and the withdrawable balances afterwards. */
  datatype Posting = Posting(
    account: Account, amount: int, kind: Kind, reference: string, withdrawable: map<Account, int>)

  function Posted(b: Books, p: Posting): Books {
    var balance := Balance(b, p.account) + p.amount;
    Books(b.balances[p.account := balance],
          p.withdrawable,
          b.entries + [Entry(b.lastId + 1, p.account, p.kind, p.amount, balance, p.reference)],
          b.lastId + 1)
  }

  function Raised(b: Books, a: Account, amount: int): map<Account, int> {
    b.withdrawable[a := Withdrawable(b, a) + amount]
  }

  /** Spending reaches earnings only once everything else is gone. */
  function Capped(b: Books, a: Account, balance: int): map<Account, int> {
    if Withdrawable(b, a) > balance then b.withdrawable[a := balance] else b.withdrawable
  }

  predicate Accepts(b: Books, op: Op) {
    match op
    case Credit(a, amount, _, _) => true
    case CreditWithdrawable(a, amount, _, _) => true
    case CreditProvider(a, amount, _) => a != ""
    case Debit(a, amount, _, _) => amount <= Balance(b, a)
    case DebitWithdrawable(a, amount, _, _) => amount <= Withdrawable(b, a) && amount <= Balance(b, a)
    case Prune(_) => true
  }

  const DEFAULT_MAX_ENTRIES := 100_000

  function Kept(entries: seq<Entry>, maxEntries: int): seq<Entry> {
    var max := if maxEntries <= 0 then DEFAULT_MAX_ENTRIES else maxEntries;
    if |entries| > max then entries[|entries| - max..] else entries
  }

  function PostingOf(b: Books, op: Op): Posting
    requires !op.Prune?
  {
    match op
    case Credit(a, amount, kind, reference) => Posting(a, amount, kind, reference, b.withdrawable)
    case CreditWithdrawable(a, amount, kind, reference) => Posting(a, amount, kind, reference, Raised(b, a, amount))
    case CreditProvider(a, amount, job) => Posting(a, amount, Payout, job, Raised(b, a, amount))
    case Debit(a, amount, kind, reference) => Posting(a, -amount, kind, reference, Capped(b, a, Balance(b, a) - amount))
    case DebitWithdrawable(a, amount, kind, reference) => Posting(a, -amount, kind, reference, Raised(b, a, -amount))
  }

  /** A rejected operation changes nothing. */
  function Apply(b: Books, op: Op): Books {
    if !Accepts(b, op) then b
    else if op.Prune? then b.(entries := Kept(b.entries, op.maxEntries))
    else Posted(b, PostingOf(b, op))
  }

  /** The books after a history of operations, oldest first. */
  function Run(ops: seq<Op>): Books {
    if ops == [] then EMPTY else Apply(Run(ops[..|ops| - 1]), ops[|ops| - 1])
  }

  // ----- what each operation does --------------------------------------------------------------

  /** What an operation moves: credits always, debits when the balances cover them, nothing without an account. */
  function Movement(b: Books, op: Op): int {
    match op
    case Credit(_, x, _, _) => x
    case CreditWithdrawable(_, x, _, _) => x
    case CreditProvider(a, x, _) => if a == "" then 0 else x
    case Debit(a, x, _, _) => if Balance(b, a) >= x then -x else 0
    case DebitWithdrawable(a, x, _, _) => if Balance(b, a) >= x && Withdrawable(b, a) >= x then -x else 0
    case Prune(_) => 0
  }

  /** Exactly the named account's balance moves. */
  lemma BalanceMoves(b: Books, op: Op, a: Account)
    ensures Balance(Apply(b, op), a) == Balance(b, a) + if !op.Prune? && a == op.account then Movement(b, op) else 0
  {
  }

  /**
   * Earnings rise with earning credits and fall with withdrawals; plain credits leave them alone,
   * and spending takes from them only what the rest of the balance does not cover.
   */
  lemma WithdrawableMoves(b: Books, op: Op, a: Account)
    ensures var before, after := Withdrawable(b, a), Withdrawable(Apply(b, op), a);
      match op
      case Prune(_) => after == before
      case Credit(_, _, _, _) => after == before
      case Debit(k, x, _, _) =>
        if a == k && Balance(b, a) >= x && before > Balance(b, a) - x then after == Balance(b, a) - x
        else after == before
      case _ => after == before + if a == op.account then Movement(b, op) else 0
  {
  }

  /** An accepted operation leaves one entry, with its account, reason and reference and the new balance. */
  lemma OneEntry(b: Books, op: Op)
    requires !op.Prune?
    ensures if Accepts(b, op) then
        var e := Apply(b, op).entries;
        && |e| == |b.entries| + 1 && e[..|b.entries|] == b.entries
        && var last := e[|b.entries|];
           && last.account == op.account && last.amount == Movement(b, op)
           && last.balanceAfter == Balance(Apply(b, op), op.account)
           && last.kind == (if op.CreditProvider? then Payout else op.kind)
           && last.reference == (if op.CreditProvider? then op.job else op.reference)
           && last.id == Apply(b, op).lastId == b.lastId + 1
      else Apply(b, op) == b
  {
  }

  /** Pruning keeps the newest entries, as many as asked for, or 100 000. */
  lemma PruneKeepsNewest(b: Books, maxEntries: int)
    ensures var kept := Apply(b, Prune(maxEntries)).entries;
      var wanted := if maxEntries > 0 then maxEntries else 100_000;
      && |kept| == (if |b.entries| <= wanted then |b.entries| else wanted)
      && kept == b.entries[|b.entries| - |kept|..]
  {
    hide Posted, PostingOf;
  }

  // ----- the ledger explains every balance --------------------------------------------

  /** Read backwards, the account's entries lead from the given balance through every earlier one. */
  ghost predicate Explains(entries: seq<Entry>, a: Account, balance: int) {
    if entries == [] then true
    else
      var e := entries[|entries| - 1];
      if e.account == a then e.balanceAfter == balance && Explains(entries[..|entries| - 1], a, balance - e.amount)
      else Explains(entries[..|entries| - 1], a, balance)
  }

  /** Ids are consecutive, ending at the last one issued. */
  ghost predicate Numbered(b: Books) {
    forall i :: 0 <= i < |b.entries| ==> b.entries[i].id == b.lastId - |b.entries| + 1 + i
  }

  lemma {:induction false} ExplainsSuffix(entries: seq<Entry>, k: nat, a: Account, balance: int)
    requires k <= |entries| && Explains(entries, a, balance)
    ensures Explains(entries[k..], a, balance)
    decreases |entries|
  {
    if k < |entries| {
      var n := |entries| - 1;
      var e := entries[n];
      assert entries[k..][..n - k] == entries[..n][k..];
      ExplainsSuffix(entries[..n], k, a, if e.account == a then balance - e.amount else balance);
    }
  }

  lemma PostedExplains(b: Books, p: Posting, k: Account)
    requires Explains(b.entries, k, Balance(b, k))
    ensures var c := Posted(b, p); Explains(c.entries, k, Balance(c, k))
  {
    var c := Posted(b, p);
    assert c.entries[..|c.entries| - 1] == b.entries;
  }

  lemma ApplyExplains(b: Books, op: Op, k: Account)
    requires Explains(b.entries, k, Balance(b, k)) && Numbered(b)
    ensures Explains(Apply(b, op).entries, k, Balance(Apply(b, op), k)) && Numbered(Apply(b, op))
  {
    hide Explains, PostingOf, Accepts;
    if Accepts(b, op) {
      if op.Prune? {
        var n := |b.entries| - |Kept(b.entries, op.maxEntries)|;
        assert Kept(b.entries, op.maxEntries) == b.entries[n..];
        ExplainsSuffix(b.entries, n, k, Balance(b, k));
      } else {
        PostedExplains(b, PostingOf(b, op), k);
      }
    }
  }

  /**
   * After any history, with any pruning in between, the retained ledger explains every balance and
   * numbers its entries.
   */
  lemma {:induction false} RunExplains(ops: seq<Op>, a: Account)
    ensures Explains(Run(ops).entries, a, Balance(Run(ops), a))
    ensures Numbered(Run(ops))
  {
    if ops != [] {
      var n := |ops| - 1;
      RunExplains(ops[..n], a);
      ApplyExplains(Run(ops[..n]), ops[n], a);
      hide Explains, Numbered, Apply;
    }
  }

  // ----- LedgerHistory ---------------------------------------------------------------------

  /** The account's entries, newest first. */
  function History(entries: seq<Entry>, a: Account): seq<Entry> {
    if entries == [] then []
    else
      var e := entries[|entries| - 1];
      (if e.account == a then [e] else []) + History(entries[..|entries| - 1], a)
  }

  lemma {:induction false} HistoryMembers(entries: seq<Entry>, a: Account)
    ensures forall e :: e in History(entries, a) <==> e in entries && e.account == a
  {
    if entries != [] {
      var n := |entries| - 1;
      HistoryMembers(entries[..n], a);
      assert entries == entries[..n] + [entries[n]];
    }
  }

  /**
   * What a statement of account should show: newest first, each line's balance following from the line
   * before it in time.
   */
  ghost predicate Statement(h: seq<Entry>, a: Account, balance: int) {
    && (forall i :: 0 <= i < |h| ==> h[i].account == a)
    && (h != [] ==> h[0].balanceAfter == balance)
    && (forall i :: 0 <= i < |h| - 1 ==>
          h[i].balanceAfter == h[i + 1].balanceAfter + h[i].amount && h[i + 1].id < h[i].id)
  }

  lemma StatementCons(e: Entry, rest: seq<Entry>, a: Account, balance: int)
    requires e.account == a && e.balanceAfter == balance && Statement(rest, a, balance - e.amount)
    requires rest != [] ==> rest[0].id < e.id
    ensures Statement([e] + rest, a, balance)
  {
    var h := [e] + rest;
    assert forall i :: 1 <= i < |h| ==> h[i] == rest[i - 1];
  }

  lemma {:induction false} HistoryStatement(entries: seq<Entry>, first: int, a: Account, balance: int)
    requires Explains(entries, a, balance)
    requires forall i :: 0 <= i < |entries| ==> entries[i].id == first + i
    ensures Statement(History(entries, a), a, balance)
    decreases |entries|
  {
    if entries != [] {
      var n := |entries| - 1;
      var e := entries[n];
      HistoryStatement(entries[..n], first, a, if e.account == a then balance - e.amount else balance);
      hide Statement;
      var rest := History(entries[..n], a);
      if e.account == a {
        if rest != [] {
          HistoryMembers(entries[..n], a);
          assert rest[0] in rest;
        }
        StatementCons(e, rest, a, balance);
      } else {
        assert [] + rest == rest;
      }
    }
  }

  lemma RunStatement(ops: seq<Op>, a: Account)
    ensures Statement(History(Run(ops).entries, a), a, Balance(Run(ops), a))
  {
    RunExplains(ops, a);
    var b := Run(ops);
    HistoryStatement(b.entries, b.lastId - |b.entries| + 1, a, Balance(b, a));
  }

  // ----- pruning is invisible to the money ---------------------------------------------------

  function WithoutPrunes(ops: seq<Op>): seq<Op> {
    if ops == [] then []
    else WithoutPrunes(ops[..|ops| - 1]) + if ops[|ops| - 1].Prune? then [] else [ops[|ops| - 1]]
  }

  /** b is c with only the newest entries kept. */
  ghost predicate Truncates(b: Books, c: Books) {
    && b == c.(entries := b.entries)
    && |b.entries| <= |c.entries|
    && b.entries == c.entries[|c.entries| - |b.entries|..]
  }

  lemma PostedTruncates(b: Books, c: Books, p: Posting)
    requires Truncates(b, c)
    ensures Truncates(Posted(b, p), Posted(c, p))
  {
    var k := |c.entries| - |b.entries|;
    assert forall e: Entry :: (c.entries + [e])[k..] == c.entries[k..] + [e];
  }

  lemma ApplyTruncates(b: Books, c: Books, op: Op)
    requires Truncates(b, c)
    ensures Truncates(Apply(b, op), if op.Prune? then c else Apply(c, op))
  {
    if op.Prune? {
      var n := |Kept(b.entries, op.maxEntries)|;
      assert Kept(b.entries, op.maxEntries) == b.entries[|b.entries| - n..];
      assert c.entries[|c.entries| - |b.entries|..][|b.entries| - n..] == c.entries[|c.entries| - n..];
    } else {
      assert Accepts(b, op) == Accepts(c, op) && PostingOf(b, op) == PostingOf(c, op);
      hide Truncates, Posted, PostingOf, Accepts;
      PostedTruncates(b, c, PostingOf(b, op));
    }
  }

  /** Pruning changes no balance, and keeps a tail of the ledger that was never pruned. */
  lemma {:induction false} PruningIsInvisible(ops: seq<Op>)
    ensures Truncates(Run(ops), Run(WithoutPrunes(ops)))
  {
    if ops != [] {
      var n := |ops| - 1;
      PruningIsInvisible(ops[..n]);
      ApplyTruncates(Run(ops[..n]), Run(WithoutPrunes(ops[..n])), ops[n]);
      hide Truncates, Apply;
      if ops[n].Prune? {
        assert WithoutPrunes(ops) == WithoutPrunes(ops[..n]);
      } else {
        assert WithoutPrunes(ops)[..|WithoutPrunes(ops)| - 1] == WithoutPrunes(ops[..n]);
      }
    }
  }

  // ----- earnings ---------------------------------------------------------------------------------

  ghost predicate NonNegative(op: Op) {
    !op.Prune? ==> op.amount >= 0
  }

  ghost predicate Solvent(b: Books) {
    forall a :: 0 <= Withdrawable(b, a) <= Balance(b, a)
  }

  lemma ApplySolvent(b: Books, op: Op)
    requires Solvent(b) && NonNegative(op)
    ensures Solvent(Apply(b, op))
  {
    forall a ensures 0 <= Withdrawable(Apply(b, op), a) <= Balance(Apply(b, op), a) {
      assert 0 <= Withdrawable(b, a) <= Balance(b, a);
    }
  }

  lemma {:induction false} RunSolvent(ops: seq<Op>)
    requires forall op :: op in ops ==> NonNegative(op)
    ensures Solvent(Run(ops))
  {
    if ops != [] {
      var n := |ops| - 1;
      assert ops == ops[..n] + [ops[n]];
      RunSolvent(ops[..n]);
      assert NonNegative(ops[n]);
      ApplySolvent(Run(ops[..n]), ops[n]);
    }
  }

  /** What an operation earns for an account. */
  function Earns(op: Op, a: Account): int {
    match op
    case CreditWithdrawable(k, amount, _, _) => if k == a then amount else 0
    case CreditProvider(k, amount, _) => if k == a && a != "" then amount else 0
    case _ => 0
  }

  function Earned(ops: seq<Op>, a: Account): int {
    if ops == [] then 0 else Earned(ops[..|ops| - 1], a) + Earns(ops[|ops| - 1], a)
  }

  /** What accepted withdrawals took out of an account. */
  function Withdrawn(ops: seq<Op>, a: Account): int {
    if ops == [] then 0
    else
      var op := ops[|ops| - 1];
      Withdrawn(ops[..|ops| - 1], a) +
      if op.DebitWithdrawable? && op.account == a && Accepts(Run(ops[..|ops| - 1]), op) then op.amount else 0
  }

  lemma EarningStep(b: Books, op: Op, a: Account)
    requires Solvent(b) && NonNegative(op)
    ensures var taken := if op.DebitWithdrawable? && op.account == a && Accepts(b, op) then op.amount else 0;
      Withdrawable(Apply(b, op), a) <= Withdrawable(b, a) + Earns(op, a) - taken
  {
  }

  /** Deposits and promotional credit can never be withdrawn: withdrawals are covered by what the account earned. */
  lemma {:induction false} OnlyEarningsLeave(ops: seq<Op>, a: Account)
    requires forall op :: op in ops ==> NonNegative(op)
    ensures Withdrawn(ops, a) + Withdrawable(Run(ops), a) <= Earned(ops, a)
    ensures Withdrawn(ops, a) <= Earned(ops, a)
  {
    RunSolvent(ops);
    if ops != [] {
      var n := |ops| - 1;
      assert ops == ops[..n] + [ops[n]];
      OnlyEarningsLeave(ops[..n], a);
      RunSolvent(ops[..n]);
      assert NonNegative(ops[n]);
      EarningStep(Run(ops[..n]), ops[n], a);
      assert Run(ops) == Apply(Run(ops[..n]), ops[n]);
      assert 0 <= Withdrawable(Run(ops), a);
      hide Apply, Solvent, NonNegative, Earns;
    }
  }

  // ----- reserve, then refund ----------------------------------------------------------------------

  /**
   * A reservation that is refunded in full restores the balance. It restores the withdrawable
   * part exactly when the reservation did not have to reach into it.
   */
  lemma RefundRestores(b: Books, a: Account, amount: int, kind: Kind, reference: string, kind': Kind,
                       reference': string)
    requires Solvent(b) && amount >= 0 && Accepts(b, Debit(a, amount, kind, reference))
    ensures var c := Apply(Apply(b, Debit(a, amount, kind, reference)), Credit(a, amount, kind', reference'));
      && (forall k :: Balance(c, k) == Balance(b, k))
      && (forall k :: k != a ==> Withdrawable(c, k) == Withdrawable(b, k))
      && (Withdrawable(c, a) == Withdrawable(b, a) <==> Withdrawable(b, a) + amount <= Balance(b, a))
      && (Withdrawable(b, a) + amount >= Balance(b, a) ==> Withdrawable(c, a) == Balance(b, a) - amount)
  {
  }

  lemma RefundCanLock()
    ensures var b := Apply(EMPTY, CreditWithdrawable("a", 100, ReferralReward, ""));
      var c := Apply(Apply(b, Debit("a", 60, Charge, "")), Credit("a", 60, Refund, ""));
      Withdrawable(b, "a") == 100 && Balance(c, "a") == 100 && Withdrawable(c, "a") == 40
  {
  }

  // ----- totals ----------------------------------------------------------------------------------------

  /** All the money the books hold. */
  ghost function Total(b: Books): int {
    SumOver(b.balances.Keys, (a: Account) => Balance(b, a))
  }

  /** What an operation adds to the books. */
  function Change(b: Books, op: Op): int {
    if !Accepts(b, op) || op.Prune? then 0
    else if op.Debit? || op.DebitWithdrawable? then -op.amount
    else op.amount
  }

  lemma PostedTotal(b: Books, p: Posting)
    ensures Total(Posted(b, p)) == Total(b) + p.amount
  {
    var c, a := Posted(b, p), p.account;
    var f, g := (k: Account) => Balance(b, k), (k: Account) => Balance(c, k);
    if a in b.balances {
      assert c.balances.Keys == b.balances.Keys;
      SumUpdate(b.balances.Keys, f, g, a);
    } else {
      assert c.balances.Keys == b.balances.Keys + {a};
      SumInsert(b.balances.Keys, f, g, a);
    }
  }

  lemma ApplyTotal(b: Books, op: Op)
    ensures Total(Apply(b, op)) == Total(b) + Change(b, op)
  {
    if Accepts(b, op) {
      if op.Prune? {
        SumCongruent(b.balances.Keys, (k: Account) => Balance(b, k), (k: Account) => Balance(Apply(b, op), k));
      } else {
        PostedTotal(b, PostingOf(b, op));
        hide Total, Posted;
      }
    }
  }

  // ----- the store ---------------------------------------------------------------------------------------

  class MemoryStore {
    var balances: map<Account, int>
    var withdrawable: map<Account, int>
    var ledgerEntries: seq<Entry>
    var ledgerSeq: int

    ghost function State(): Books
      reads this
    {
      Books(balances, withdrawable, ledgerEntries, ledgerSeq)
    }

    constructor ()
      ensures State() == EMPTY
    {
      balances, withdrawable, ledgerEntries, ledgerSeq := map[], map[], [], 0;
    }

    method GetBalance(account: Account) returns (micros: int)
      ensures micros == Balance(State(), account)
    {
      micros := Get(balances, account);
    }

    method GetWithdrawableBalance(account: Account) returns (micros: int)
      ensures micros == Withdrawable(State(), account)
    {
      micros := Get(withdrawable, account);
    }

    method Append(account: Account, kind: Kind, amount: int, reference: string)
      modifies this`ledgerSeq, this`ledgerEntries
      ensures ledgerSeq == old(ledgerSeq) + 1
      ensures ledgerEntries == old(ledgerEntries)
          + [Entry(ledgerSeq, account, kind, amount, Get(balances, account), reference)]
    {
      ledgerSeq := ledgerSeq + 1;
      ledgerEntries := ledgerEntries + [Entry(ledgerSeq, account, kind, amount, Get(balances, account), reference)];
    }

    method CreditLocked(account: Account, amount: int, kind: Kind, reference: string)
      modifies this
      ensures State() == Apply(old(State()), Op.Credit(account, amount, kind, reference))
    {
      balances := balances[account := Get(balances, account) + amount];
      Append(account, kind, amount, reference);
    }

    method Credit(account: Account, amount: int, kind: Kind, reference: string)
      modifies this
      ensures State() == Apply(old(State()), Op.Credit(account, amount, kind, reference))
    {
      CreditLocked(account, amount, kind, reference);
    }

    method CreditWithdrawable(account: Account, amount: int, kind: Kind, reference: string)
      modifies this
      ensures State() == Apply(old(State()), Op.CreditWithdrawable(account, amount, kind, reference))
    {
      CreditLocked(account, amount, kind, reference);
      withdrawable := withdrawable[account := Get(withdrawable, account) + amount];
    }

    /** A linked provider account is credited as a withdrawable payout. */
    method CreditProviderAccount(account: Account, amount: int, job: string) returns (ok: bool)
      modifies this
      ensures ok == Accepts(old(State()), Op.CreditProvider(account, amount, job))
      ensures State() == Apply(old(State()), Op.CreditProvider(account, amount, job))
    {
      if account == "" {
        return false;
      }
      CreditLocked(account, amount, Payout, job);
      withdrawable := withdrawable[account := Get(withdrawable, account) + amount];
      ok := true;
    }

    /** An unlinked wallet is credited in the same way. */
    method CreditProviderWallet(address: Account, amount: int, job: string) returns (ok: bool)
      modifies this
      ensures ok == Accepts(old(State()), Op.CreditProvider(address, amount, job))
      ensures State() == Apply(old(State()), Op.CreditProvider(address, amount, job))
    {
      if address == "" {
        return false;
      }
      CreditLocked(address, amount, Payout, job);
      withdrawable := withdrawable[address := Get(withdrawable, address) + amount];
      ok := true;
    }

    method Debit(account: Account, amount: int, kind: Kind, reference: string) returns (ok: bool)
      modifies this
      ensures ok == Accepts(old(State()), Op.Debit(account, amount, kind, reference))
      ensures State() == Apply(old(State()), Op.Debit(account, amount, kind, reference))
    {
      if Get(balances, account) < amount {
        return false;
      }
      balances := balances[account := Get(balances, account) - amount];
      if Get(withdrawable, account) > Get(balances, account) {
        withdrawable := withdrawable[account := Get(balances, account)];
      }
      Append(account, kind, -amount, reference);
      ok := true;
    }

    method DebitWithdrawable(account: Account, amount: int, kind: Kind, reference: string) returns (ok: bool)
      modifies this
      ensures ok == Accepts(old(State()), Op.DebitWithdrawable(account, amount, kind, reference))
      ensures State() == Apply(old(State()), Op.DebitWithdrawable(account, amount, kind, reference))
    {
      if Get(withdrawable, account) < amount {
        return false;
      }
      if Get(balances, account) < amount {
        return false;
      }
      balances := balances[account := Get(balances, account) - amount];
      withdrawable := withdrawable[account := Get(withdrawable, account) - amount];
      Append(account, kind, -amount, reference);
      ok := true;
    }

    method Prune(maxEntries: int)
      modifies this`ledgerEntries
      ensures State() == Apply(old(State()), Op.Prune(maxEntries))
    {
      var max := maxEntries;
      if max <= 0 {
        max := DEFAULT_MAX_ENTRIES;
      }
      var n := |ledgerEntries|;
      if n > max {
        ledgerEntries := ledgerEntries[n - max..];
      }
    }

    /** On any store a history of operations can produce, the result is a correct statement of account. */
    method LedgerHistory(account: Account) returns (entries: seq<Entry>)
      ensures entries == History(ledgerEntries, account)
      ensures forall ops :: State() == Run(ops) ==> Statement(entries, account, Balance(State(), account))
    {
      hide Run, Statement;
      entries := [];
      var i := |ledgerEntries| - 1;
      assert ledgerEntries[..i + 1] == ledgerEntries;
      while i >= 0
        invariant -1 <= i < |ledgerEntries|
        invariant History(ledgerEntries, account) == entries + History(ledgerEntries[..i + 1], account)
      {
        assert ledgerEntries[..i + 1][..i] == ledgerEntries[..i];
        if ledgerEntries[i].account == account {
          entries := entries + [ledgerEntries[i]];
        }
        i := i - 1;
      }
      assert entries == History(ledgerEntries, account);
      hide History;
      forall ops | State() == Run(ops) ensures Statement(entries, account, Balance(State(), account)) {
        RunStatement(ops, account);
      }
    }
  }
}
