/**
 * The billing lifecycle of one request: the reservation, up to three dispatch attempts, and
 * the provider handlers that complete or fail an attempt, interleaved in every possible way.
 */
module Dispatch {
  import opened Sums

  const MAX_ATTEMPTS := 3

  /**
   * Where an attempt's pending entry is. Completing, Settled and Done are the stages of
   * handleComplete after it has taken the entry: before the ledger is adjusted, before the
   * channels are closed, and after. Failing and Failed are the same for an error or a
   * disconnect. Dropped means that the dispatcher removed it.
   */
  datatype Entry = Present | Completing | Settled | Done | Failing | Failed | Dropped

  /** `accepted` and `chunk` say that the attempt's channels hold such a message. */
  datatype Attempt = Attempt(entry: Entry, sent: bool, accepted: bool, chunk: bool)

  /** Where the dispatcher is. */
  datatype Phase =
    | Arriving | Rejected
    | Routing                       // at the head of the retry loop
    | Prepared                      // a provider is reserved, nothing sent yet
    | Waiting | Accepted            // the first and the second wait
    | Leaving(cancelled: bool)      // about to remove the entry and retry, or refund and stop
    | Committed | Ended
    | Refunding | Refunded

  /**
   * `costs` is what each settled attempt was billed; `late` are the attempts that had already been
   * completed when the dispatcher removed them.
   */
  datatype Request = Request(reserved: int, phase: Phase, attempts: seq<Attempt>, costs: map<nat, int>, late: set<nat>)

  datatype Event =
    // the dispatcher
    | Charge(ok: bool)
    | Unlisted
    | Route
    | GiveUp(placed: bool)          // no provider; placed: a drain reserved one just as the queue wait ended
    | Exhaust
    | Unusable                      // the provider's key is missing or bad: the entry is left behind
    | Send
    | SendFails(delivered: bool)
    | GetAccepted
    | GetChunk
    | GetClosed
    | GetError
    | Expire
    | Cancel
    | Remove
    | Finish
    | Refund
    // the provider's connection
    | Accept(i: nat)
    | Chunk(i: nat)
    | Complete(i: nat)
    | Settle(i: nat, cost: int)
    | CloseDone(i: nat)
    | Fail(i: nat)
    | CloseFailed(i: nat)

  // ----- transitions ---------------------------------------------------------------------

  predicate Billing(a: Attempt) {
    a.entry == Completing || a.entry == Settled || a.entry == Done
  }

  predicate InFlight(phase: Phase) {
    phase == Waiting || phase == Accepted
  }

  predicate Enabled(s: Request, e: Event) {
    match e
    case Charge(ok) => s.phase == Arriving
    case Unlisted => s.phase == Routing && s.attempts == []
    case Route => s.phase == Routing && |s.attempts| < MAX_ATTEMPTS
    case GiveUp(placed) => s.phase == Routing && |s.attempts| < MAX_ATTEMPTS && (placed ==> s.attempts == [])
    case Exhaust => s.phase == Routing && |s.attempts| == MAX_ATTEMPTS
    case Unusable => s.phase == Prepared
    case Send => s.phase == Prepared && s.attempts != []
    case SendFails(delivered) => s.phase == Prepared && s.attempts != []
    case GetAccepted => s.phase == Waiting && s.attempts != [] && Last(s).accepted
    case GetChunk => InFlight(s.phase) && s.attempts != [] && Last(s).chunk
    case GetClosed => InFlight(s.phase) && s.attempts != [] && Last(s).entry == Done
    case GetError => InFlight(s.phase) && s.attempts != [] && Last(s).entry == Failed
    case Expire => InFlight(s.phase)
    case Cancel => InFlight(s.phase)
    case Remove => s.phase.Leaving? && s.attempts != []
    case Finish => s.phase == Committed && s.attempts != []
    case Refund => s.phase == Refunding
    case Accept(i) => OnWire(s, i)
    case Chunk(i) => OnWire(s, i)
    case Complete(i) => OnWire(s, i)
    case Settle(i, cost) => i < |s.attempts| && s.attempts[i].entry == Completing && 0 < cost <= s.reserved
    case CloseDone(i) => i < |s.attempts| && s.attempts[i].entry == Settled
    case Fail(i) => i < |s.attempts| && s.attempts[i].entry == Present
    case CloseFailed(i) => i < |s.attempts| && s.attempts[i].entry == Failing
  }

  function Last(s: Request): Attempt
    requires s.attempts != []
  {
    s.attempts[|s.attempts| - 1]
  }

  /** A provider answers only requests that reached it, and only while their entry is pending. */
  predicate OnWire(s: Request, i: nat) {
    i < |s.attempts| && s.attempts[i].sent && s.attempts[i].entry == Present
  }

  function Put(s: Request, i: nat, a: Attempt, phase: Phase): Request
    requires i < |s.attempts|
  {
    s.(attempts := s.attempts[i := a], phase := phase)
  }

  const FRESH := Attempt(Present, false, false, false)

  function Removed(a: Attempt): Attempt {
    if a.entry == Present then a.(entry := Dropped) else a
  }

  function Step(s: Request, e: Event): Request
    requires Enabled(s, e)
  {
    match e
    case Charge(ok) => s.(phase := if ok then Routing else Rejected)
    case Unlisted => s.(phase := Refunding)
    case Route => s.(phase := Prepared, attempts := s.attempts + [FRESH])
    case GiveUp(placed) => s.(phase := Refunding, attempts := if placed then s.attempts + [FRESH] else s.attempts)
    case Exhaust => s.(phase := Refunding)
    case Unusable => s.(phase := Routing)
    case Send => Put(s, |s.attempts| - 1, Last(s).(sent := true), Waiting)
    case SendFails(delivered) => Put(s, |s.attempts| - 1, Last(s).(sent := delivered), Leaving(false))
    case GetAccepted => Put(s, |s.attempts| - 1, Last(s).(accepted := false), Accepted)
    case GetChunk => Put(s, |s.attempts| - 1, Last(s).(chunk := false), Committed)
    case GetClosed => s.(phase := Committed)
    case GetError => s.(phase := Leaving(false))
    case Expire => s.(phase := Leaving(false))
    case Cancel => s.(phase := Leaving(true))
    case Remove =>
      var i := |s.attempts| - 1;
      s.(attempts := s.attempts[i := Removed(Last(s))],
         phase := if s.phase.cancelled then Refunding else Routing,
         late := if Billing(Last(s)) then s.late + {i} else s.late)
    case Finish => Put(s, |s.attempts| - 1, Removed(Last(s)), Ended)
    case Refund => s.(phase := Refunded)
    case Accept(i) => Put(s, i, s.attempts[i].(accepted := true), s.phase)
    case Chunk(i) => Put(s, i, s.attempts[i].(chunk := true), s.phase)
    case Complete(i) => Put(s, i, s.attempts[i].(entry := Completing), s.phase)
    case Settle(i, cost) =>
      s.(attempts := s.attempts[i := s.attempts[i].(entry := Settled)], costs := s.costs[i := cost])
    case CloseDone(i) => Put(s, i, s.attempts[i].(entry := Done), s.phase)
    case Fail(i) => Put(s, i, s.attempts[i].(entry := Failing), s.phase)
    case CloseFailed(i) => Put(s, i, s.attempts[i].(entry := Failed), s.phase)
  }

  function Start(reserved: int): Request {
    Request(reserved, Arriving, [], map[], {})
  }

  ghost predicate Run(ss: seq<Request>, es: seq<Event>) {
    && |ss| == |es| + 1 && ss[0] == Start(ss[0].reserved) && ss[0].reserved > 0
    && forall i :: 0 <= i < |es| ==> Enabled(ss[i], es[i]) && ss[i + 1] == Step(ss[i], es[i])
  }

  // ----- what every step keeps ----------------------------------------------------------------

  /** The dispatcher is still working on the last attempt, or was committed to it. */
  predicate HasCurrent(phase: Phase) {
    phase == Prepared || InFlight(phase) || phase.Leaving? || phase == Committed || phase == Ended
  }

  ghost predicate IsCurrent(s: Request, i: nat) {
    HasCurrent(s.phase) && i == |s.attempts| - 1
  }

  ghost predicate AttemptOk(s: Request, i: nat)
    requires i < |s.attempts|
  {
    var a := s.attempts[i];
    && (i in s.costs <==> a.entry == Settled || a.entry == Done)
    && (!a.sent ==> !Billing(a))
    && (if IsCurrent(s, i) then
          i !in s.late && (s.phase == Prepared ==> !a.sent) && (s.phase == Ended ==> a.entry != Present)
        else
          (i in s.late <==> Billing(a)) && (a.entry == Present ==> !a.sent))
  }

  ghost predicate Invariant(s: Request) {
    && s.reserved > 0
    && (HasCurrent(s.phase) ==> s.attempts != [])
    && (s.phase == Arriving || s.phase == Rejected ==> s.attempts == [])
    && (forall i :: i in s.late ==> i < |s.attempts|)
    && (forall i :: i in s.costs ==> i < |s.attempts| && 0 < s.costs[i] <= s.reserved)
    && (forall i :: 0 <= i < |s.attempts| ==> AttemptOk(s, i))
  }

  /** Steps of the provider's connection. */
  predicate FromProvider(e: Event) {
    e.Accept? || e.Chunk? || e.Complete? || e.Settle? || e.CloseDone? || e.Fail? || e.CloseFailed?
  }

  /** Steps of the dispatcher that deal with the current attempt. */
  predicate OnCurrent(e: Event) {
    || e.Send? || e.SendFails? || e.GetAccepted? || e.GetChunk? || e.GetClosed? || e.GetError?
    || e.Expire? || e.Cancel? || e.Remove? || e.Finish?
  }

  lemma ProviderKeeps(s: Request, e: Event)
    requires Enabled(s, e) && Invariant(s) && FromProvider(e)
    ensures Invariant(Step(s, e))
  {
    var t := Step(s, e);
    forall i | 0 <= i < |t.attempts| ensures AttemptOk(t, i) {
      assert AttemptOk(s, i);
    }
  }

  lemma CurrentKeeps(s: Request, e: Event)
    requires Enabled(s, e) && Invariant(s) && OnCurrent(e)
    ensures Invariant(Step(s, e))
  {
    var t := Step(s, e);
    forall i | 0 <= i < |t.attempts| ensures AttemptOk(t, i) {
      assert AttemptOk(s, i);
    }
  }

  lemma RoutingKeeps(s: Request, e: Event)
    requires Enabled(s, e) && Invariant(s) && !OnCurrent(e) && !FromProvider(e)
    ensures Invariant(Step(s, e))
  {
    var t := Step(s, e);
    forall i | 0 <= i < |t.attempts| ensures AttemptOk(t, i) {
      assert i < |s.attempts| ==> AttemptOk(s, i);
    }
  }

  lemma StepKeeps(s: Request, e: Event)
    requires Enabled(s, e) && Invariant(s)
    ensures Invariant(Step(s, e))
  {
    hide Enabled, Invariant, Step, OnCurrent, FromProvider;
    if FromProvider(e) {
      ProviderKeeps(s, e);
    } else if OnCurrent(e) {
      CurrentKeeps(s, e);
    } else {
      RoutingKeeps(s, e);
    }
  }

  lemma {:induction false} RunKeeps(ss: seq<Request>, es: seq<Event>, k: nat)
    requires Run(ss, es) && k < |ss|
    ensures Invariant(ss[k]) && ss[k].reserved == ss[0].reserved
  {
    if k > 0 {
      RunKeeps(ss, es, k - 1);
      assert Enabled(ss[k - 1], es[k - 1]);
      StepKeeps(ss[k - 1], es[k - 1]);
    }
  }

  // ----- settlements and refunds ----------------------------------------------------------------

  /** The attempts whose completion has been, or will be, billed. */
  ghost function Bills(s: Request): set<nat> {
    set i | 0 <= i < |s.attempts| && Billing(s.attempts[i])
  }

  ghost function CurrentBill(s: Request): set<nat> {
    if HasCurrent(s.phase) && s.attempts != [] && Billing(Last(s)) then {|s.attempts| - 1} else {}
  }

  lemma BillsOf(s: Request)
    requires Invariant(s)
    ensures Bills(s) == s.late + CurrentBill(s)
    ensures s.late * CurrentBill(s) == {}
  {
    forall i: nat ensures i in Bills(s) <==> i in s.late + CurrentBill(s) {
      if i < |s.attempts| {
        assert AttemptOk(s, i);
      }
    }
    if CurrentBill(s) != {} {
      assert AttemptOk(s, |s.attempts| - 1);
    }
  }

  /**
   * In every reachable state the bills are those of the current attempt and of the attempts
   * removed too late: the number of late removals is exactly the number of surplus bills.
   */
  lemma BillsAccounted(ss: seq<Request>, es: seq<Event>, k: nat)
    requires Run(ss, es) && k < |ss|
    ensures Bills(ss[k]) == ss[k].late + CurrentBill(ss[k])
    ensures ss[k].late * CurrentBill(ss[k]) == {}
  {
    RunKeeps(ss, es, k);
    BillsOf(ss[k]);
  }

  /** A full refund excludes every settlement exactly when no attempt was removed after its completion had begun. */
  lemma RefundExcludesBills(ss: seq<Request>, es: seq<Event>, k: nat)
    requires Run(ss, es) && k < |ss| && (ss[k].phase == Refunding || ss[k].phase == Refunded)
    ensures Bills(ss[k]) == {} <==> ss[k].late == {}
  {
    BillsAccounted(ss, es, k);
  }

  /** Once the request is refunded or over, no completion can be accepted any more. */
  lemma NoFurtherBills(ss: seq<Request>, es: seq<Event>, k: nat, i: nat)
    requires Run(ss, es) && k < |ss| && ss[k].phase in {Refunding, Refunded, Ended}
    ensures !Enabled(ss[k], Complete(i))
  {
    RunKeeps(ss, es, k);
    if i < |ss[k].attempts| {
      assert AttemptOk(ss[k], i);
    }
  }

  // ----- what the consumer pays -------------------------------------------------------------------

  function If(c: bool, amount: int): int { if c then amount else 0 }

  predicate Charged(s: Request) { s.phase != Arriving && s.phase != Rejected }

  /** The reservation, less a full refund, less what each settlement gave back. */
  ghost function NetDebit(s: Request): int {
    If(Charged(s), s.reserved) - If(s.phase == Refunded, s.reserved)
    - SumOver(s.costs.Keys, (i: nat) => if i in s.costs then s.reserved - s.costs[i] else 0)
  }

  lemma SingleCost(s: Request, i: nat)
    requires s.costs.Keys <= {i}
    ensures var returned := if i in s.costs then s.reserved - s.costs[i] else 0;
      NetDebit(s) == If(Charged(s), s.reserved) - If(s.phase == Refunded, s.reserved) - returned
    ensures |s.costs| <= 1
  {
    var f := (i: nat) => if i in s.costs then s.reserved - s.costs[i] else 0;
    SubsetCardinality(s.costs.Keys, {i});
    if i in s.costs {
      assert s.costs.Keys == {i};
      SumRemove(s.costs.Keys, f, i);
      assert s.costs.Keys - {i} == {};
    } else {
      assert s.costs.Keys == {};
    }
  }

  lemma SingleBill(s: Request) returns (last: nat)
    requires Invariant(s) && s.late == {}
    ensures s.costs.Keys <= {last}
    ensures s.costs != map[] ==> HasCurrent(s.phase)
  {
    BillsOf(s);
    last := if s.attempts == [] then 0 else |s.attempts| - 1;
    forall i | i in s.costs ensures i == last && HasCurrent(s.phase) {
      assert AttemptOk(s, i);
      assert i in Bills(s);
    }
    if s.costs != map[] {
      var i :| i in s.costs;
    }
  }

  /**
   * As long as no attempt was removed too late: at most one settlement, none together with a
   * refund, and the consumer has paid something between nothing and the reservation.
   */
  lemma BilledAtMostOnce(ss: seq<Request>, es: seq<Event>, k: nat)
    requires Run(ss, es) && k < |ss| && ss[k].late == {}
    ensures |ss[k].costs| <= 1
    ensures ss[k].phase == Refunding || ss[k].phase == Refunded ==> ss[k].costs == map[]
    ensures 0 <= NetDebit(ss[k]) <= ss[0].reserved
    ensures forall i :: i in ss[k].costs ==> NetDebit(ss[k]) == ss[k].costs[i]
  {
    RunKeeps(ss, es, k);
    var last := SingleBill(ss[k]);
    SingleCost(ss[k], last);
  }

  /** The condition is needed: a completion that slips in before the removal is billed on top of the refund. */
  lemma LateCompletion() returns (ss: seq<Request>, es: seq<Event>)
    ensures Run(ss, es)
    ensures var s := ss[|es|]; s.phase == Refunded && s.late == {0} && s.costs == map[0 := 100] && NetDebit(s) == -100
  {
    es := [Charge(true), Route, Send, Complete(0), Cancel, Remove, Refund, Settle(0, 100)];
    ss := seq(9, k requires 0 <= k <= 8 => LateState(k));
    forall k | 0 <= k < 8 ensures Enabled(ss[k], es[k]) && ss[k + 1] == Step(ss[k], es[k]) {
      LateStep(k);
    }
    SingleCost(LateState(8), 0);
  }

  function LateState(k: nat): Request {
    var sent := Attempt(Present, true, false, false);
    var completing := Attempt(Completing, true, false, false);
    if k == 0 then Start(200)
    else if k == 1 then Request(200, Routing, [], map[], {})
    else if k == 2 then Request(200, Prepared, [FRESH], map[], {})
    else if k == 3 then Request(200, Waiting, [sent], map[], {})
    else if k == 4 then Request(200, Waiting, [completing], map[], {})
    else if k == 5 then Request(200, Leaving(true), [completing], map[], {})
    else if k == 6 then Request(200, Refunding, [completing], map[], {0})
    else if k == 7 then Request(200, Refunded, [completing], map[], {0})
    else Request(200, Refunded, [completing.(entry := Settled)], map[0 := 100], {0})
  }

  lemma LateStep(k: nat)
    requires k < 8
    ensures var e := [Charge(true), Route, Send, Complete(0), Cancel, Remove, Refund, Settle(0, 100)][k];
      Enabled(LateState(k), e) && LateState(k + 1) == Step(LateState(k), e)
  {
  }
}
