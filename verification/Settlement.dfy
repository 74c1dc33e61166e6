/** The money side of a completed inference: what is billed, and where every micro-USD of the reservation goes. */
module Settlement {
  import opened Options
  import opened Machine
  import opened Pricing
  import L = Ledger

  const PLATFORM: L.Account := "platform"

  datatype Job = Job(id: string, consumer: L.Account, model: Model, reserved: int)

  datatype Usage = Usage(prompt: int, completion: int)

  /** The provider's own price and the platform's, where set. */
  datatype Prices = Prices(provider: Option<Price>, platform: Option<Price>)

  /** What the registry knows about the provider when the job completes. */
  datatype Payee = Gone | Known(account: L.Account, wallet: L.Account)

  /** Who referred whom, and the referral service's share of the fee; None when it is switched off. */
  datatype Referrals = Referrals(share: Option<int>, codes: map<L.Account, string>, owners: map<string, L.Account>)

  function Share(configured: int): (percent: int)
    ensures 1 <= percent <= 50
    ensures 1 <= configured <= 50 ==> percent == configured
  {
    if configured <= 0 || configured > 50 then 20 else configured
  }

  // ----- the amounts -----------------------------------------------------------------

  /** The reported usage is billed at the provider's price, else the platform's, and never above the reservation. */
  function Billed(job: Job, usage: Usage, prices: Prices): int {
    var custom := if prices.provider.Some? then prices.provider else prices.platform;
    var cost := CalculateCost(job.model, usage.prompt, usage.completion, custom);
    if job.reserved > 0 && cost > job.reserved then job.reserved else cost
  }

  function Recipient(payee: Payee): L.Account {
    if payee.Gone? then "" else if payee.account != "" then payee.account else payee.wallet
  }

  function Referrer(r: Referrals, consumer: L.Account): Option<L.Account> {
    if r.share.None? || consumer !in r.codes || r.codes[consumer] == "" || r.codes[consumer] !in r.owners then None
    else Some(r.owners[r.codes[consumer]])
  }

  function Reward(r: Referrals, consumer: L.Account, fee: int): int {
    if Referrer(r, consumer).None? then 0
    else
      var reward := TruncDiv(Wrap64(fee * Share(r.share.value)), 100);
      if reward <= 0 then 0 else reward
  }

  // ----- the ledger operations, in order ------------------------------------------------

  function ConsumerOps(job: Job, cost: int): seq<L.Op> {
    if job.reserved <= 0 then [L.Debit(job.consumer, cost, L.Charge, job.id)]
    else if cost < job.reserved then [L.Credit(job.consumer, job.reserved - cost, L.Refund, job.id)]
    else []
  }

  function PayeeOps(job: Job, cost: int, payee: Payee): seq<L.Op> {
    if Recipient(payee) == "" then [] else [L.CreditProvider(Recipient(payee), ProviderPayout(cost), job.id)]
  }

  function FeeOps(job: Job, cost: int, r: Referrals): seq<L.Op> {
    var fee := PlatformFee(cost);
    if fee <= 0 then []
    else
      var reward := Reward(r, job.consumer, fee);
      (if reward <= 0 then []
       else [L.CreditWithdrawable(Referrer(r, job.consumer).value, reward, L.ReferralReward, job.id)])
      + [L.Credit(PLATFORM, fee - reward, L.PlatformFee, job.id)]
  }

  function Ops(job: Job, usage: Usage, prices: Prices, payee: Payee, r: Referrals): seq<L.Op> {
    var cost := Billed(job, usage, prices);
    ConsumerOps(job, cost) + PayeeOps(job, cost, payee) + FeeOps(job, cost, r)
  }

  function ApplyAll(b: L.Books, ops: seq<L.Op>): L.Books
    decreases |ops|
  {
    if ops == [] then b else ApplyAll(L.Apply(b, ops[0]), ops[1..])
  }

  lemma {:induction false} ApplyAllConcat(b: L.Books, s: seq<L.Op>, t: seq<L.Op>)
    ensures ApplyAll(b, s + t) == ApplyAll(ApplyAll(b, s), t)
    decreases |s|
  {
    if s == [] {
      assert s + t == t;
    } else {
      assert (s + t)[1..] == s[1..] + t;
      ApplyAllConcat(L.Apply(b, s[0]), s[1..], t);
    }
  }

  // ----- the books after a settlement -------------------------------------------------------

  ghost predicate IsCredit(op: L.Op) {
    op.Credit? || op.CreditWithdrawable? || (op.CreditProvider? && op.account != "")
  }

  ghost function Credited(ops: seq<L.Op>): int
    requires forall op :: op in ops ==> IsCredit(op)
  {
    if ops == [] then 0 else assert IsCredit(ops[0]); ops[0].amount + Credited(ops[1..])
  }

  lemma {:induction false} CreditsAddUp(b: L.Books, ops: seq<L.Op>)
    requires forall op :: op in ops ==> IsCredit(op)
    ensures L.Total(ApplyAll(b, ops)) == L.Total(b) + Credited(ops)
    decreases |ops|
  {
    if ops != [] {
      assert IsCredit(ops[0]);
      L.ApplyTotal(b, ops[0]);
      hide L.Total, L.Apply;
      CreditsAddUp(L.Apply(b, ops[0]), ops[1..]);
    }
  }

  lemma {:induction false} CreditedConcat(s: seq<L.Op>, t: seq<L.Op>)
    requires forall op :: op in s + t ==> IsCredit(op)
    ensures (forall op :: op in s ==> IsCredit(op)) && (forall op :: op in t ==> IsCredit(op))
    ensures Credited(s + t) == Credited(s) + Credited(t)
    decreases |s|
  {
    assert forall op :: op in s ==> op in s + t;
    assert forall op :: op in t ==> op in s + t;
    if s == [] {
      assert s + t == t;
    } else {
      assert (s + t)[1..] == s[1..] + t;
      CreditedConcat(s[1..], t);
    }
  }

  /** The bill of a reserved job is positive and within the reservation, and no bill is out of the fee's range. */
  lemma BilledWithinReservation(job: Job, usage: Usage, prices: Prices)
    ensures 0 < Billed(job, usage, prices) <= MAX_COST
    ensures job.reserved > 0 ==> Billed(job, usage, prices) <= job.reserved
  {
  }

  lemma FeeBounds(cost: int)
    requires 0 < cost <= MAX_COST
    ensures 0 <= PlatformFee(cost) < cost && PlatformFee(cost) <= INT64_MAX / 100
    ensures ProviderPayout(cost) == cost - PlatformFee(cost) && ProviderPayout(cost) > 0
  {
    FeeSplit(cost);
  }

  /** Whatever is reported, the fee is a twentieth of the bill rounded down, and the provider gets the rest. */
  lemma BilledFee(job: Job, usage: Usage, prices: Prices)
    ensures var cost := Billed(job, usage, prices);
      && 20 * PlatformFee(cost) <= cost < 20 * (PlatformFee(cost) + 1)
      && 0 <= PlatformFee(cost) && ProviderPayout(cost) == cost - PlatformFee(cost)
  {
    BilledWithinReservation(job, usage, prices);
    FeeBounds(Billed(job, usage, prices));
    FeeSplit(Billed(job, usage, prices));
  }

  lemma HalfOfFee(fee: int, x: int)
    requires 0 <= x <= fee * 50 && fee <= INT64_MAX / 100
    ensures 0 <= 2 * TruncDiv(Wrap64(x), 100) <= fee
  {
    assert x <= INT64_MAX;
  }

  /** The referrer's reward is at most half of the fee; the platform keeps the rest. */
  lemma RewardBounds(r: Referrals, consumer: L.Account, fee: int)
    requires 0 <= fee <= INT64_MAX / 100
    ensures 0 <= 2 * Reward(r, consumer, fee) <= fee
  {
    if Referrer(r, consumer).Some? {
      var s := Share(r.share.value);
      hide Share, TruncDiv, Wrap64;
      Product(fee, s, fee, 50);
      HalfOfFee(fee, fee * s);
    }
  }

  /** What a settlement puts into the books, over and above the reservation it releases. */
  lemma OpsCredit(job: Job, usage: Usage, prices: Prices, payee: Payee, r: Referrals)
    requires 0 < job.reserved
    ensures forall op :: op in Ops(job, usage, prices, payee, r) ==> IsCredit(op)
    ensures var cost := Billed(job, usage, prices);
      Credited(Ops(job, usage, prices, payee, r))
      == job.reserved - cost + (if Recipient(payee) == "" then 0 else ProviderPayout(cost))
          + (if PlatformFee(cost) > 0 then PlatformFee(cost) else 0)
  {
    var cost := Billed(job, usage, prices);
    var a, b, c := ConsumerOps(job, cost), PayeeOps(job, cost, payee), FeeOps(job, cost, r);
    BilledWithinReservation(job, usage, prices);
    hide Billed, ProviderPayout, PlatformFee, Recipient;
    FeeCredit(job, cost, r);
    assert (forall op :: op in a + b ==> IsCredit(op)) && Credited(a) == job.reserved - cost;
    assert Credited(b) == if Recipient(payee) == "" then 0 else ProviderPayout(cost);
    hide ConsumerOps, PayeeOps, FeeOps;
    CreditedConcat(a + b, c);
    CreditedConcat(a, b);
  }

  lemma FeeCredit(job: Job, cost: int, r: Referrals)
    ensures forall op :: op in FeeOps(job, cost, r) ==> IsCredit(op)
    ensures Credited(FeeOps(job, cost, r)) == if PlatformFee(cost) > 0 then PlatformFee(cost) else 0
  {
    hide PlatformFee, Referrer;
    var fee := PlatformFee(cost);
    var reward := Reward(r, job.consumer, fee);
    var last := L.Credit(PLATFORM, fee - reward, L.PlatformFee, job.id);
    if fee > 0 && reward > 0 {
      CreditedConcat([L.CreditWithdrawable(Referrer(r, job.consumer).value, reward, L.ReferralReward, job.id)], [last]);
    } else if fee > 0 {
      assert FeeOps(job, cost, r) == [last];
    }
  }

  /**
   * Refund, payout, referral reward and platform fee together are the reservation, for every
   * usage report, every price and every referral state, iff there is somebody to pay out to.
   */
  lemma Conserves(b: L.Books, job: Job, usage: Usage, prices: Prices, payee: Payee, r: Referrals)
    requires 0 < job.reserved
    ensures L.Total(ApplyAll(b, Ops(job, usage, prices, payee, r))) == L.Total(b) + job.reserved
        <==> Recipient(payee) != ""
  {
    UnpaidPayout(b, job, usage, prices, payee, r);
    BilledWithinReservation(job, usage, prices);
    FeeBounds(Billed(job, usage, prices));
    hide Billed, Ops, ApplyAll, Recipient, PlatformFee, ProviderPayout, L.Total;
  }

  /** Without a payee the payout, and nothing else, is missing from the books. */
  lemma UnpaidPayout(b: L.Books, job: Job, usage: Usage, prices: Prices, payee: Payee, r: Referrals)
    requires 0 < job.reserved
    ensures L.Total(ApplyAll(b, Ops(job, usage, prices, payee, r)))
         == L.Total(b) + job.reserved - if Recipient(payee) == "" then ProviderPayout(Billed(job, usage, prices)) else 0
  {
    BilledWithinReservation(job, usage, prices);
    FeeBounds(Billed(job, usage, prices));
    OpsCredit(job, usage, prices, payee, r);
    CreditsAddUp(b, Ops(job, usage, prices, payee, r));
    hide Billed, Ops, ApplyAll, Recipient, ProviderPayout, PlatformFee;
  }

  /** No settlement operation moves money the wrong way. */
  lemma OpsNonNegative(job: Job, usage: Usage, prices: Prices, payee: Payee, r: Referrals)
    requires 0 < job.reserved
    ensures forall op :: op in Ops(job, usage, prices, payee, r) ==> L.NonNegative(op)
  {
    var cost := Billed(job, usage, prices);
    BilledWithinReservation(job, usage, prices);
    FeeBounds(cost);
    RewardBounds(r, job.consumer, PlatformFee(cost));
    hide Billed, ProviderPayout, PlatformFee, Recipient, Reward, Referrer;
  }

  // ----- who gets what ----------------------------------------------------------------------------

  /** What a list of credits gives one account: in all, and as withdrawable earnings. */
  ghost function Gain(ops: seq<L.Op>, a: L.Account, earned: bool): int
    requires forall op :: op in ops ==> IsCredit(op)
  {
    if ops == [] then 0
    else
      assert IsCredit(ops[0]);
      (if ops[0].account == a && (earned ==> !ops[0].Credit?) then ops[0].amount else 0) + Gain(ops[1..], a, earned)
  }

  lemma {:induction false} GainsAddUp(b: L.Books, ops: seq<L.Op>, a: L.Account)
    requires forall op :: op in ops ==> IsCredit(op)
    ensures L.Balance(ApplyAll(b, ops), a) == L.Balance(b, a) + Gain(ops, a, false)
    ensures L.Withdrawable(ApplyAll(b, ops), a) == L.Withdrawable(b, a) + Gain(ops, a, true)
    decreases |ops|
  {
    if ops != [] {
      assert IsCredit(ops[0]);
      GainsAddUp(L.Apply(b, ops[0]), ops[1..], a);
    }
  }

  lemma {:induction false} GainConcat(s: seq<L.Op>, t: seq<L.Op>, a: L.Account, earned: bool)
    requires (forall op :: op in s ==> IsCredit(op)) && (forall op :: op in t ==> IsCredit(op))
    ensures forall op :: op in s + t ==> IsCredit(op)
    ensures Gain(s + t, a, earned) == Gain(s, a, earned) + Gain(t, a, earned)
    decreases |s|
  {
    if s == [] {
      assert s + t == t;
    } else {
      assert (s + t)[1..] == s[1..] + t;
      GainConcat(s[1..], t, a, earned);
    }
  }

  function If(c: bool, amount: int): int { if c then amount else 0 }

  lemma FeeGain(job: Job, cost: int, r: Referrals, a: L.Account, earned: bool)
    requires PlatformFee(cost) >= 0
    ensures forall op :: op in FeeOps(job, cost, r) ==> IsCredit(op)
    ensures var fee := PlatformFee(cost); var reward := Reward(r, job.consumer, fee);
      Gain(FeeOps(job, cost, r), a, earned)
      == If(Referrer(r, job.consumer) == Some(a), reward) + If(a == PLATFORM && !earned, fee - reward)
  {
    hide PlatformFee, Referrer;
    var fee := PlatformFee(cost);
    var reward := Reward(r, job.consumer, fee);
    var last := L.Credit(PLATFORM, fee - reward, L.PlatformFee, job.id);
    assert Gain([last], a, earned) == If(a == PLATFORM && !earned, fee - reward);
    if fee > 0 && reward > 0 {
      GainConcat([L.CreditWithdrawable(Referrer(r, job.consumer).value, reward, L.ReferralReward, job.id)], [last],
          a, earned);
    } else if fee > 0 {
      assert FeeOps(job, cost, r) == [last];
    } else {
      ZeroReward(r, job.consumer);
    }
  }

  lemma ZeroReward(r: Referrals, consumer: L.Account)
    ensures Reward(r, consumer, 0) == 0
  {
  }

  lemma ConsumerGain(job: Job, cost: int, a: L.Account, earned: bool)
    requires 0 < job.reserved && cost <= job.reserved
    ensures forall op :: op in ConsumerOps(job, cost) ==> IsCredit(op)
    ensures Gain(ConsumerOps(job, cost), a, earned) == If(a == job.consumer && !earned, job.reserved - cost)
  {
  }

  lemma PayeeGain(job: Job, cost: int, payee: Payee, a: L.Account, earned: bool)
    ensures forall op :: op in PayeeOps(job, cost, payee) ==> IsCredit(op)
    ensures Gain(PayeeOps(job, cost, payee), a, earned) == If(a != "" && a == Recipient(payee), ProviderPayout(cost))
  {
    hide Recipient, ProviderPayout;
  }

  lemma OpsGain(job: Job, usage: Usage, prices: Prices, payee: Payee, r: Referrals, a: L.Account, earned: bool)
    requires 0 < job.reserved
    ensures forall op :: op in Ops(job, usage, prices, payee, r) ==> IsCredit(op)
    ensures var cost := Billed(job, usage, prices);
      var fee := PlatformFee(cost);
      var reward := Reward(r, job.consumer, fee);
      Gain(Ops(job, usage, prices, payee, r), a, earned)
      == If(a == job.consumer && !earned, job.reserved - cost)
         + If(a != "" && a == Recipient(payee), ProviderPayout(cost))
         + If(Referrer(r, job.consumer) == Some(a), reward) + If(a == PLATFORM && !earned, fee - reward)
  {
    var cost := Billed(job, usage, prices);
    BilledWithinReservation(job, usage, prices);
    FeeBounds(cost);
    var x, y, z := ConsumerOps(job, cost), PayeeOps(job, cost, payee), FeeOps(job, cost, r);
    hide Billed, ProviderPayout, PlatformFee, Recipient, Reward, Referrer, ConsumerOps, PayeeOps, FeeOps, Gain;
    ConsumerGain(job, cost, a, earned);
    PayeeGain(job, cost, payee, a, earned);
    FeeGain(job, cost, r, a, earned);
    GainConcat(x, y, a, earned);
    GainConcat(x + y, z, a, earned);
  }

  /**
   * Every account's share: the consumer gets back what was not used, the provider its 95 per
   * cent and the referrer its share of the fee as withdrawable earnings, the platform the rest;
   * nobody else is touched.
   */
  lemma Shares(b: L.Books, job: Job, usage: Usage, prices: Prices, payee: Payee, r: Referrals, a: L.Account)
    requires 0 < job.reserved
    ensures var after := ApplyAll(b, Ops(job, usage, prices, payee, r));
      var cost := Billed(job, usage, prices);
      var fee := PlatformFee(cost);
      var reward := Reward(r, job.consumer, fee);
      var earned := If(a != "" && a == Recipient(payee), cost - fee) + If(Referrer(r, job.consumer) == Some(a), reward);
      var other := If(a == job.consumer, job.reserved - cost) + If(a == PLATFORM, fee - reward);
      && L.Balance(after, a) == L.Balance(b, a) + earned + other
      && L.Withdrawable(after, a) == L.Withdrawable(b, a) + earned
  {
    BilledWithinReservation(job, usage, prices);
    FeeBounds(Billed(job, usage, prices));
    hide Billed, ProviderPayout, PlatformFee, Recipient, Reward, Referrer, ApplyAll, Gain, Ops;
    OpsGain(job, usage, prices, payee, r, a, false);
    OpsGain(job, usage, prices, payee, r, a, true);
    GainsAddUp(b, Ops(job, usage, prices, payee, r), a);
  }

  // ----- the bill ------------------------------------------------------------------------------------

  /** The provider's price when it has one, else the platform's, else the model's list price. */
  ghost predicate Applies(job: Job, prices: Prices, price: Price) {
    match prices
    case Prices(Some(own), _) => price == own
    case Prices(None, Some(platform)) => price == platform
    case Prices(None, None) => price == if job.model in MODEL_PRICES then MODEL_PRICES[job.model] else DEFAULT_PRICE
  }

  /** What a job comes to: prompt and completion tokens, each at its rate, within the reservation if there is one. */
  ghost predicate ComesTo(job: Job, usage: Usage, price: Price, amount: int) {
    var cost := TrueCost(usage.prompt, usage.completion, price);
    && amount <= cost && (amount == cost || amount == job.reserved)
    && (job.reserved > 0 ==> amount <= job.reserved)
    && (job.reserved <= 0 ==> amount == cost)
  }

  /** The bill is what the job comes to, for every report whose token products fit an int64. */
  lemma BillIs(job: Job, usage: Usage, prices: Prices, price: Price)
    requires Applies(job, prices, price) && InRange(usage.prompt, usage.completion, price)
    ensures ComesTo(job, usage, price, Billed(job, usage, prices))
  {
    var custom := if prices.provider.Some? then prices.provider else prices.platform;
    assert PriceOf(job.model, custom) == price;
    hide PriceOf;
    CostExact(job.model, usage.prompt, usage.completion, custom);
    hide CalculateCost, TrueCost, InRange;
  }

  /** A million prompt tokens at list price cost 50 000 micro-USD, a million completion tokens 200 000. */
  lemma ListPrice(reserved: int)
    requires reserved >= 200_000
    ensures Billed(Job("j", "c", "m", reserved), Usage(1_000_000, 0), Prices(None, None)) == 50_000
    ensures Billed(Job("j", "c", "m", reserved), Usage(0, 1_000_000), Prices(None, None)) == 200_000
    ensures Billed(Job("j", "c", "m", reserved), Usage(0, 0), Prices(None, None)) == 100
  {
    BillIs(Job("j", "c", "m", reserved), Usage(0, 0), Prices(None, None), DEFAULT_PRICE);
    BillIs(Job("j", "c", "m", reserved), Usage(1_000_000, 0), Prices(None, None), DEFAULT_PRICE);
    BillIs(Job("j", "c", "m", reserved), Usage(0, 1_000_000), Prices(None, None), DEFAULT_PRICE);
    hide Billed;
  }

  /** Neither the payee, nor the referrer, nor the platform. */
  ghost predicate Bystander(job: Job, payee: Payee, r: Referrals, a: L.Account) {
    && a != PLATFORM
    && (payee.Known? ==> a != payee.account && a != payee.wallet)
    && forall code :: code in r.owners ==> r.owners[code] != a
  }

  /** From reservation to settlement a consumer pays exactly what the job comes to. */
  lemma ConsumerPays(b: L.Books, job: Job, usage: Usage, prices: Prices, price: Price, payee: Payee, r: Referrals,
                     kind: L.Kind, reference: string)
    requires 0 < job.reserved <= L.Balance(b, job.consumer) && Bystander(job, payee, r, job.consumer)
    requires Applies(job, prices, price) && InRange(usage.prompt, usage.completion, price)
    ensures var held := L.Apply(b, L.Debit(job.consumer, job.reserved, kind, reference));
      var after := ApplyAll(held, Ops(job, usage, prices, payee, r));
      ComesTo(job, usage, price, L.Balance(b, job.consumer) - L.Balance(after, job.consumer))
  {
    var held := L.Apply(b, L.Debit(job.consumer, job.reserved, kind, reference));
    assert L.Balance(held, job.consumer) == L.Balance(b, job.consumer) - job.reserved;
    assert Recipient(payee) != job.consumer || job.consumer == "";
    assert Referrer(r, job.consumer) != Some(job.consumer);
    BillIs(job, usage, prices, price);
    hide L.Apply, Billed, ComesTo, Applies, InRange, Recipient, Referrer, ApplyAll, Ops;
    Shares(held, job, usage, prices, payee, r, job.consumer);
  }

  lemma RestGain(job: Job, cost: int, payee: Payee, r: Referrals, a: L.Account, earned: bool)
    requires PlatformFee(cost) >= 0
    ensures forall op :: op in PayeeOps(job, cost, payee) + FeeOps(job, cost, r) ==> IsCredit(op)
    ensures var fee := PlatformFee(cost);
      var reward := Reward(r, job.consumer, fee);
      Gain(PayeeOps(job, cost, payee) + FeeOps(job, cost, r), a, earned)
      == If(a != "" && a == Recipient(payee), ProviderPayout(cost))
         + If(Referrer(r, job.consumer) == Some(a), reward) + If(a == PLATFORM && !earned, fee - reward)
  {
    hide ProviderPayout, PlatformFee, Recipient, Reward, Referrer, PayeeOps, FeeOps, Gain;
    PayeeGain(job, cost, payee, a, earned);
    FeeGain(job, cost, r, a, earned);
    GainConcat(PayeeOps(job, cost, payee), FeeOps(job, cost, r), a, earned);
  }

  /**
   * Without a reservation the bill is charged directly, if the consumer's balance covers it; the
   * others are paid all the same.
   */
  lemma ChargedDirectly(b: L.Books, job: Job, usage: Usage, prices: Prices, payee: Payee, r: Referrals, a: L.Account)
    requires job.reserved <= 0
    ensures var after := ApplyAll(b, Ops(job, usage, prices, payee, r));
      var cost := Billed(job, usage, prices);
      var fee := PlatformFee(cost);
      var reward := Reward(r, job.consumer, fee);
      L.Balance(after, a) == L.Balance(b, a) - If(a == job.consumer && cost <= L.Balance(b, a), cost)
        + If(a != "" && a == Recipient(payee), cost - fee) + If(Referrer(r, job.consumer) == Some(a), reward)
        + If(a == PLATFORM, fee - reward)
  {
    var cost := Billed(job, usage, prices);
    var charge := L.Debit(job.consumer, cost, L.Charge, job.id);
    var rest := PayeeOps(job, cost, payee) + FeeOps(job, cost, r);
    hide Billed, ProviderPayout, PlatformFee, Recipient, Reward, Referrer, PayeeOps, FeeOps, L.Apply, L.Balance, Gain,
      ApplyAll;
    BilledWithinReservation(job, usage, prices);
    FeeBounds(cost);
    DirectDebit(b, charge, a);
    assert Ops(job, usage, prices, payee, r) == [charge] + rest;
    hide Ops, ConsumerOps;
    FirstApplied(b, charge, rest);
    RestGain(job, cost, payee, r, a, false);
    GainsAddUp(L.Apply(b, charge), rest, a);
  }

  lemma DirectDebit(b: L.Books, charge: L.Op, a: L.Account)
    requires charge.Debit?
    ensures L.Balance(L.Apply(b, charge), a)
         == L.Balance(b, a) - If(a == charge.account && charge.amount <= L.Balance(b, a), charge.amount)
  {
  }

  lemma FirstApplied(b: L.Books, op: L.Op, rest: seq<L.Op>)
    ensures ApplyAll(b, [op] + rest) == ApplyAll(L.Apply(b, op), rest)
  {
    hide L.Apply;
    assert ([op] + rest)[1..] == rest;
  }

  /** The payout goes to the linked account, else to the wallet, else to nobody. */
  lemma PayeeIs(account: L.Account, wallet: L.Account)
    ensures account != "" ==> Recipient(Known(account, wallet)) == account
    ensures account == "" ==> Recipient(Known(account, wallet)) == wallet
    ensures Recipient(Gone) == ""
  {
  }

  /**
   * The referrer of a consumer is the owner of the code it signed up with, while referrals are on;
   * the reward is its percentage of the fee rounded down, 20 per cent where none is set properly.
   */
  lemma RewardIs(r: Referrals, consumer: L.Account, code: string, owner: L.Account, fee: int)
    requires consumer in r.codes && r.codes[consumer] == code && code in r.owners && r.owners[code] == owner
    requires r.share.Some? && code != "" && 0 <= fee <= INT64_MAX / 100
    ensures Referrer(r, consumer) == Some(owner)
    ensures var percent := if 1 <= r.share.value <= 50 then r.share.value else 20;
      100 * Reward(r, consumer, fee) <= fee * percent < 100 * (Reward(r, consumer, fee) + 1)
  {
    var s := Share(r.share.value);
    Product(fee, s, fee, 50);
    Percent(fee * s);
  }

  lemma Percent(x: int)
    requires 0 <= x <= INT64_MAX
    ensures 100 * TruncDiv(Wrap64(x), 100) <= x < 100 * (TruncDiv(Wrap64(x), 100) + 1)
  {
  }

  /** No code, an unknown one, or the service switched off: nobody is rewarded. */
  lemma NoReward(r: Referrals, consumer: L.Account, fee: int)
    requires r.share.None? || consumer !in r.codes || r.codes[consumer] == "" || r.codes[consumer] !in r.owners
    ensures Referrer(r, consumer) == None && Reward(r, consumer, fee) == 0
  {
  }

  // ----- the handler ----------------------------------------------------------------------------

  class Billing {
    const store: L.MemoryStore
    const referrals: Referrals

    constructor (store: L.MemoryStore, referrals: Referrals)
      ensures this.store == store && this.referrals == referrals
    {
      this.store := store;
      this.referrals := referrals;
    }

    /** Pays the referrer's share out of the fee; the result is what is left for the platform. */
    method DistributeReferralReward(consumer: L.Account, fee: int, job: string) returns (left: int)
      requires referrals.share.Some?
      modifies store
      ensures left == fee - Reward(referrals, consumer, fee)
      ensures var reward := Reward(referrals, consumer, fee);
        var referrer := Referrer(referrals, consumer);
        store.State() ==
        if reward <= 0 then old(store.State())
        else L.Apply(old(store.State()), L.CreditWithdrawable(referrer.value, reward, L.ReferralReward, job))
    {
      if consumer !in referrals.codes || referrals.codes[consumer] == "" {
        return fee;
      }
      var code := referrals.codes[consumer];
      if code !in referrals.owners {
        return fee;
      }
      var reward := TruncDiv(Wrap64(fee * Share(referrals.share.value)), 100);
      if reward <= 0 {
        return fee;
      }
      store.CreditWithdrawable(referrals.owners[code], reward, L.ReferralReward, job);
      left := fee - reward;
    }

    method PayPlatform(job: Job, cost: int)
      modifies store
      ensures store.State() == ApplyAll(old(store.State()), FeeOps(job, cost, referrals))
    {
      hide L.Apply;
      var fee := PlatformFee(cost);
      if fee > 0 {
        if referrals.share.Some? {
          fee := DistributeReferralReward(job.consumer, fee, job.id);
        }
        store.Credit(PLATFORM, fee, L.PlatformFee, job.id);
        ghost var before := old(store.State());
        ghost var reward := Reward(referrals, job.consumer, PlatformFee(cost));
        if reward > 0 {
          ghost var referrer := Referrer(referrals, job.consumer).value;
          ghost var op := L.CreditWithdrawable(referrer, reward, L.ReferralReward, job.id);
          ApplyAllConcat(before, [op], [L.Credit(PLATFORM, fee, L.PlatformFee, job.id)]);
          assert ApplyAll(before, [op]) == L.Apply(before, op);
        } else {
          ghost var last := [L.Credit(PLATFORM, fee, L.PlatformFee, job.id)];
          assert [] + last == last;
        }
      }
    }

    method SettleConsumer(job: Job, cost: int)
      modifies store
      ensures store.State() == ApplyAll(old(store.State()), ConsumerOps(job, cost))
    {
      hide L.Apply;
      if job.reserved > 0 {
        if cost < job.reserved {
          store.Credit(job.consumer, job.reserved - cost, L.Refund, job.id);
        }
      } else {
        var _ := store.Debit(job.consumer, cost, L.Charge, job.id);
      }
    }

    method PayProvider(job: Job, cost: int, payee: Payee)
      modifies store
      ensures store.State() == ApplyAll(old(store.State()), PayeeOps(job, cost, payee))
    {
      hide L.Apply;
      if payee.Known? {
        if payee.account != "" {
          var _ := store.CreditProviderAccount(payee.account, ProviderPayout(cost), job.id);
        } else if payee.wallet != "" {
          var _ := store.CreditProviderWallet(payee.wallet, ProviderPayout(cost), job.id);
        }
      }
    }

    /** handleComplete, from the cost calculation to the platform credit. */
    method HandleComplete(job: Job, usage: Usage, prices: Prices, payee: Payee) returns (cost: int)
      modifies store
      ensures cost == Billed(job, usage, prices)
      ensures store.State() == ApplyAll(old(store.State()), Ops(job, usage, prices, payee, referrals))
    {
      var custom := prices.provider;
      if custom.None? {
        custom := prices.platform;
      }
      cost := CalculateCost(job.model, usage.prompt, usage.completion, custom);
      if job.reserved > 0 && cost > job.reserved {
        cost := job.reserved;
      }
      hide Billed, ApplyAll, ConsumerOps, PayeeOps, FeeOps;
      ghost var before := old(store.State());
      SettleConsumer(job, cost);
      PayProvider(job, cost, payee);
      PayPlatform(job, cost);
      ApplyAllConcat(before, ConsumerOps(job, cost), PayeeOps(job, cost, payee));
      ApplyAllConcat(before, ConsumerOps(job, cost) + PayeeOps(job, cost, payee), FeeOps(job, cost, referrals));
      assert cost == Billed(job, usage, prices);
    }
  }
}
