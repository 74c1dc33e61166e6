/**
 * How a dispatched request ends, over every interleaving: what must have been heard before the
 * dispatcher commits to an attempt, when it retries, when it refunds, and that it always comes to an end.
 */
module Outcomes {
  import opened Dispatch
  import opened Sums

  // ----- what was said before ------------------------------------------------------------------

  /** The event happened within the first k steps. */
  ghost predicate Said(es: seq<Event>, k: nat, e: Event) {
    exists j :: 0 <= j < k && j < |es| && es[j] == e
  }

  /** What an attempt shows was said by its provider's connection. */
  ghost predicate Spoken(es: seq<Event>, k: nat, i: nat, a: Attempt) {
    && (a.accepted ==> Said(es, k, Accept(i)))
    && (a.chunk ==> Said(es, k, Chunk(i)))
    && (Billing(a) ==> Said(es, k, Complete(i)))
    && (a.entry == Done ==> Said(es, k, CloseDone(i)))
    && (a.entry == Failing || a.entry == Failed ==> Said(es, k, Fail(i)))
    && (a.entry == Failed ==> Said(es, k, CloseFailed(i)))
  }

  lemma SaidLater(es: seq<Event>, k: nat, e: Event)
    ensures Said(es, k, e) ==> Said(es, k + 1, e)
    ensures k < |es| ==> Said(es, k + 1, es[k])
  {
  }

  lemma SpokenLater(es: seq<Event>, k: nat, i: nat, a: Attempt)
    requires Spoken(es, k, i, a)
    ensures Spoken(es, k + 1, i, a)
  {
    hide Said;
    SaidLater(es, k, Accept(i));
    SaidLater(es, k, Chunk(i));
    SaidLater(es, k, Complete(i));
    SaidLater(es, k, CloseDone(i));
    SaidLater(es, k, Fail(i));
    SaidLater(es, k, CloseFailed(i));
  }

  /** What a step changes in an attempt, the provider says with that step. */
  lemma StepSpeaks(s: Request, e: Event, es: seq<Event>, k: nat, i: nat)
    requires Enabled(s, e) && i < |Step(s, e).attempts| && k < |es| && es[k] == e
    requires i < |s.attempts| ==> Spoken(es, k, i, s.attempts[i])
    ensures Spoken(es, k + 1, i, Step(s, e).attempts[i])
  {
    SaidLater(es, k, e);
    if i < |s.attempts| {
      SpokenLater(es, k, i, s.attempts[i]);
    }
    hide Said;
  }

  lemma {:induction false} AttemptsSpeak(ss: seq<Request>, es: seq<Event>, k: nat, i: nat)
    requires Run(ss, es) && k < |ss| && i < |ss[k].attempts|
    ensures Spoken(es, k, i, ss[k].attempts[i])
  {
    if k > 0 {
      assert Enabled(ss[k - 1], es[k - 1]) && ss[k] == Step(ss[k - 1], es[k - 1]);
      if i < |ss[k - 1].attempts| {
        AttemptsSpeak(ss, es, k - 1, i);
      }
      hide Run, Spoken, Enabled, Step;
      StepSpeaks(ss[k - 1], es[k - 1], es, k - 1, i);
    }
  }

  /** And what the provider of the current attempt says reaches the dispatcher that waits for it. */
  lemma ProviderReaches(s: Request, e: Event)
    requires Enabled(s, e) && InFlight(s.phase) && s.attempts != []
    ensures var i := |s.attempts| - 1;
      && (e == Chunk(i) ==> Enabled(Step(s, e), GetChunk))
      && (e == Accept(i) && s.phase == Waiting ==> Enabled(Step(s, e), GetAccepted))
      && (e == CloseDone(i) ==> Enabled(Step(s, e), GetClosed))
      && (e == CloseFailed(i) ==> Enabled(Step(s, e), GetError))
  {
  }

  /** Everything a completion or a failure goes through, in order. */
  lemma EntryAdvances(s: Request, i: nat, cost: int)
    requires i < |s.attempts|
    ensures Enabled(s, Complete(i)) && 0 < cost <= s.reserved ==>
      var completing := Step(s, Complete(i));
      && Enabled(completing, Settle(i, cost))
      && var settled := Step(completing, Settle(i, cost));
         && i in settled.costs && settled.costs[i] == cost && Enabled(settled, CloseDone(i))
         && Step(settled, CloseDone(i)).attempts[i].entry == Done
    ensures Enabled(s, Fail(i)) ==>
      Enabled(Step(s, Fail(i)), CloseFailed(i)) && Step(Step(s, Fail(i)), CloseFailed(i)).attempts[i].entry == Failed
  {
  }

  // ----- committing ---------------------------------------------------------------------------------

  /** The dispatcher takes something from the current attempt that it can show to the consumer. */
  predicate Hears(e: Event) { e.GetChunk? || e.GetClosed? }

  predicate Bound(phase: Phase) { phase == Committed || phase == Ended }

  lemma CommitStep(s: Request, e: Event)
    requires Enabled(s, e) && Bound(Step(s, e).phase)
    ensures |Step(s, e).attempts| == |s.attempts|
    ensures Bound(s.phase) || (Hears(e) && s.attempts != [])
  {
  }

  /** A request is committed only to an attempt that the dispatcher has heard from. */
  lemma {:induction false} CommittedHeard(ss: seq<Request>, es: seq<Event>, k: nat) returns (j: nat)
    requires Run(ss, es) && k < |ss| && Bound(ss[k].phase)
    ensures j < k && Hears(es[j]) && |ss[j].attempts| == |ss[k].attempts| > 0
  {
    if k == 0 {
      assert false;
    }
    assert Enabled(ss[k - 1], es[k - 1]) && ss[k] == Step(ss[k - 1], es[k - 1]);
    hide Enabled, Step, Start;
    CommitStep(ss[k - 1], es[k - 1]);
    if Bound(ss[k - 1].phase) {
      j := CommittedHeard(ss, es, k - 1);
    } else {
      j := k - 1;
    }
  }

  /** And the provider of that attempt did send a chunk, or complete the request, before. */
  lemma CommitMeansAnswer(ss: seq<Request>, es: seq<Event>, k: nat)
    requires Run(ss, es) && k < |ss| && Bound(ss[k].phase)
    ensures ss[k].attempts != []
    ensures var i := |ss[k].attempts| - 1; Said(es, k, Chunk(i)) || Said(es, k, CloseDone(i))
  {
    var j := CommittedHeard(ss, es, k);
    var i := |ss[k].attempts| - 1;
    AttemptsSpeak(ss, es, j, i);
    assert Enabled(ss[j], es[j]);
  }

  lemma StepAt(ss: seq<Request>, es: seq<Event>, k: nat)
    requires Run(ss, es) && k < |ss|
    ensures |ss| == |es| + 1
    ensures k == 0 ==> ss[k].phase == Arriving && ss[k].attempts == []
    ensures k > 0 ==> Enabled(ss[k - 1], es[k - 1]) && ss[k] == Step(ss[k - 1], es[k - 1])
  {
    hide Enabled, Step;
  }

  lemma AcceptStep(s: Request, e: Event)
    requires Enabled(s, e) && Invariant(s) && Step(s, e).phase == Accepted
    ensures |Step(s, e).attempts| == |s.attempts| > 0
    ensures s.phase == Accepted || (e == GetAccepted && Last(s).accepted)
  {
  }

  /** The second wait begins only once the provider has accepted the attempt. */
  lemma {:induction false} AcceptedMeansAccept(ss: seq<Request>, es: seq<Event>, k: nat)
    requires Run(ss, es) && k < |ss| && ss[k].phase == Accepted
    ensures ss[k].attempts != [] && Said(es, k, Accept(|ss[k].attempts| - 1))
  {
    hide Run, Enabled, Step, Said, Invariant;
    StepAt(ss, es, k);
    RunKeeps(ss, es, k - 1);
    AcceptStep(ss[k - 1], es[k - 1]);
    if ss[k - 1].phase == Accepted {
      AcceptedMeansAccept(ss, es, k - 1);
    } else {
      AttemptsSpeak(ss, es, k - 1, |ss[k].attempts| - 1);
    }
    SaidLater(es, k - 1, Accept(|ss[k].attempts| - 1));
  }

  /**
   * A request that nothing was heard of never ends as served; when it is over, and no attempt was
   * removed too late, it was refused or refunded and has cost nothing.
   */
  lemma UnheardCostsNothing(ss: seq<Request>, es: seq<Event>, k: nat)
    requires Run(ss, es) && k < |ss| && forall j :: 0 <= j < k ==> !Hears(es[j])
    ensures !Bound(ss[k].phase)
    ensures Over(ss[k].phase) && ss[k].late == {} ==>
      (ss[k].phase == Rejected || ss[k].phase == Refunded) && NetDebit(ss[k]) == 0
  {
    if Bound(ss[k].phase) {
      var j := CommittedHeard(ss, es, k);
    }
    if Over(ss[k].phase) && ss[k].late == {} {
      RunKeeps(ss, es, k);
      BilledAtMostOnce(ss, es, k);
      hide Run;
      assert ss[k].costs == map[] by {
        if ss[k].phase == Rejected && exists i :: i in ss[k].costs {
          assert false;
        }
      }
      SingleCost(ss[k], 0);
    }
  }

  predicate Over(phase: Phase) { phase == Rejected || phase == Refunded || phase == Ended }

  // ----- retrying -------------------------------------------------------------------------------------

  /** Only provider steps between two events. */
  ghost predicate Between(es: seq<Event>, i: int, j: int) {
    0 <= i < j < |es| && forall k :: i < k < j ==> FromProvider(es[k])
  }

  lemma ProviderKeepsPhase(s: Request, e: Event)
    requires Enabled(s, e) && FromProvider(e)
    ensures Step(s, e).phase == s.phase && |Step(s, e).attempts| == |s.attempts|
  {
  }

  lemma {:induction false} QuietKeeps(ss: seq<Request>, es: seq<Event>, i: nat, j: nat)
    requires Run(ss, es) && i <= j < |ss| && forall k :: i <= k < j ==> FromProvider(es[k])
    ensures ss[j].phase == ss[i].phase && |ss[j].attempts| == |ss[i].attempts|
  {
    if i < j {
      QuietKeeps(ss, es, i, j - 1);
      assert Enabled(ss[j - 1], es[j - 1]) && ss[j] == Step(ss[j - 1], es[j - 1]);
      ProviderKeepsPhase(ss[j - 1], es[j - 1]);
      hide Enabled, Step;
    }
  }

  /** The current attempt failed: the send, the provider, or the wait. */
  predicate Fails(e: Event) { e.SendFails? || e.GetError? || e.Expire? }

  lemma FailureLeaves(s: Request, e: Event)
    requires Enabled(s, e) && (Fails(e) || e.Cancel?)
    ensures Step(s, e).phase == Leaving(e.Cancel?) && |Step(s, e).attempts| == |s.attempts|
  {
  }

  lemma LeavingRemoves(s: Request, e: Event)
    requires Enabled(s, e) && s.phase.Leaving? && !FromProvider(e)
    ensures e == Remove && |Step(s, e).attempts| == |s.attempts|
    ensures Step(s, e).phase == if s.phase.cancelled then Refunding else Routing
  {
  }

  /** What the dispatcher may do at the head of the retry loop. */
  lemma RoutingOptions(s: Request, e: Event)
    requires Enabled(s, e) && s.phase == Routing && !FromProvider(e)
    ensures |s.attempts| >= 3 ==> e == Exhaust
    ensures |s.attempts| < 3 ==> e == Route || e.GiveUp? || (e == Unlisted && s.attempts == [])
    ensures e == Route ==> Step(s, e).phase == Prepared && Step(s, e).attempts == s.attempts + [FRESH]
    ensures e != Route ==> Step(s, e).phase == Refunding
  {
  }

  /**
   * After a failed attempt the dispatcher's next step removes it and the one after that is a further
   * attempt, unless no provider is left or three were made; then the request is refunded.
   */
  lemma FailureRetries(ss: seq<Request>, es: seq<Event>, i: nat, j: nat, k: nat)
    requires Run(ss, es) && i < |es| && Fails(es[i])
    requires Between(es, i, j) && !FromProvider(es[j]) && Between(es, j, k) && !FromProvider(es[k])
    ensures es[j] == Remove && ss[k].phase == Routing && |ss[k].attempts| == |ss[i].attempts|
    ensures |ss[i].attempts| < 3 ==> es[k] == Route || es[k].GiveUp? || ss[i].attempts == []
    ensures |ss[i].attempts| >= 3 ==> es[k] == Exhaust
    ensures es[k] == Route ==> ss[k + 1].phase == Prepared && |ss[k + 1].attempts| == |ss[i].attempts| + 1
    ensures es[k] != Route ==> ss[k + 1].phase == Refunding
  {
    assert Enabled(ss[i], es[i]) && ss[i + 1] == Step(ss[i], es[i]);
    assert Enabled(ss[j], es[j]) && ss[j + 1] == Step(ss[j], es[j]);
    assert Enabled(ss[k], es[k]) && ss[k + 1] == Step(ss[k], es[k]);
    FailureLeaves(ss[i], es[i]);
    QuietKeeps(ss, es, i + 1, j);
    LeavingRemoves(ss[j], es[j]);
    QuietKeeps(ss, es, j + 1, k);
    RoutingOptions(ss[k], es[k]);
    hide Run, Enabled, Step;
  }

  /** A cancelled request is not tried again: the dispatcher removes the attempt and refunds. */
  lemma CancelRefunds(ss: seq<Request>, es: seq<Event>, i: nat, j: nat)
    requires Run(ss, es) && i < |es| && es[i] == Cancel && Between(es, i, j) && !FromProvider(es[j])
    ensures es[j] == Remove && ss[j + 1].phase == Refunding
  {
    assert Enabled(ss[i], es[i]) && ss[i + 1] == Step(ss[i], es[i]);
    assert Enabled(ss[j], es[j]) && ss[j + 1] == Step(ss[j], es[j]);
    FailureLeaves(ss[i], es[i]);
    QuietKeeps(ss, es, i + 1, j);
    LeavingRemoves(ss[j], es[j]);
    hide Run, Enabled, Step;
  }

  // ----- charging and refunding -----------------------------------------------------------------------

  lemma ChargeStep(s: Request, e: Event)
    requires Enabled(s, e) && Invariant(s)
    ensures s.phase == Arriving ==> e.Charge? && Step(s, e).phase == if e.ok then Routing else Rejected
    ensures s.phase != Arriving ==>
      Step(s, e).phase != Arriving && (Step(s, e).phase == Rejected <==> s.phase == Rejected)
  {
  }

  /** The charge comes first and decides: a request is rejected iff it was not charged. */
  lemma {:induction false} ChargeDecides(ss: seq<Request>, es: seq<Event>, k: nat)
    requires Run(ss, es) && 0 < k < |ss|
    ensures es[0].Charge? && ss[k].phase != Arriving && (ss[k].phase == Rejected <==> es[0] == Charge(false))
    ensures Charged(ss[k]) <==> es[0] == Charge(true)
  {
    hide Run, Invariant, Enabled, Step;
    StepAt(ss, es, k);
    StepAt(ss, es, 0);
    RunKeeps(ss, es, k - 1);
    ChargeStep(ss[k - 1], es[k - 1]);
    if k > 1 {
      ChargeDecides(ss, es, k - 1);
    }
  }

  /** The grounds for a refund: no such model, no provider, three failures, or the consumer gave up. */
  predicate GivesUp(e: Event) { e == Unlisted || e.GiveUp? || e == Exhaust || e == Cancel }

  predicate Returning(phase: Phase) { phase == Leaving(true) || phase == Refunding || phase == Refunded }

  lemma RefundStep(s: Request, e: Event)
    requires Enabled(s, e)
    ensures Returning(Step(s, e).phase) ==> Returning(s.phase) || GivesUp(e)
    ensures Returning(s.phase) ==> Returning(Step(s, e).phase) && |Step(s, e).attempts| == |s.attempts|
    ensures GivesUp(e) ==> Returning(Step(s, e).phase)
  {
  }

  /** A request is refunded iff one of them occurred. */
  lemma {:induction false} RefundedIffGivenUp(ss: seq<Request>, es: seq<Event>, k: nat)
    requires Run(ss, es) && k < |ss|
    ensures Returning(ss[k].phase) <==> exists j :: 0 <= j < k && GivesUp(es[j])
  {
    hide Run, Enabled, Step, GivesUp;
    StepAt(ss, es, k);
    if k > 0 {
      RefundedIffGivenUp(ss, es, k - 1);
      RefundStep(ss[k - 1], es[k - 1]);
    }
  }

  // ----- every request comes to an end ----------------------------------------------------------------

  /** How far the dispatcher is from the end. */
  function Rank(s: Request): int {
    var left := 10 * (MAX_ATTEMPTS - |s.attempts|);
    match s.phase
    case Arriving => 36
    case Routing => left + 5
    case Prepared => left + 9
    case Waiting => left + 8
    case Accepted => left + 7
    case Leaving(_) => left + 6
    case Committed => 3
    case Refunding => 2
    case Refunded => 1
    case Rejected => 0
    case Ended => 0
  }

  lemma DispatcherAdvances(s: Request, e: Event)
    requires Enabled(s, e) && Invariant(s) && |s.attempts| <= 3
    ensures |Step(s, e).attempts| <= 3 && 0 <= Rank(Step(s, e))
    ensures if FromProvider(e) then Rank(Step(s, e)) == Rank(s) else Rank(Step(s, e)) < Rank(s)
  {
    if FromProvider(e) {
      ProviderKeepsPhase(s, e);
      hide Step, Enabled, Invariant;
    } else if OnCurrent(e) {
      hide AttemptOk;
    } else {
      hide AttemptOk, InFlight;
    }
  }

  /** The steps the dispatcher has made. */
  function Steps(es: seq<Event>): nat {
    if es == [] then 0 else Steps(es[..|es| - 1]) + if FromProvider(es[|es| - 1]) then 0 else 1
  }

  /** However the providers behave, there are at most three attempts and 36 steps of the dispatcher. */
  lemma {:induction false} DispatcherStops(ss: seq<Request>, es: seq<Event>, k: nat)
    requires Run(ss, es) && k < |ss|
    ensures |ss[k].attempts| <= 3 && 0 <= Rank(ss[k]) && Steps(es[..k]) + Rank(ss[k]) <= 36
  {
    hide Run, Enabled, Step, Invariant, FromProvider;
    StepAt(ss, es, k);
    if k > 0 {
      DispatcherStops(ss, es, k - 1);
      RunKeeps(ss, es, k - 1);
      hide Rank;
      DispatcherAdvances(ss[k - 1], es[k - 1]);
      assert es[..k][..k - 1] == es[..k - 1];
    }
  }

  /** It never gets stuck before the request is over, and does nothing afterwards. */
  lemma DispatcherIsLive(ss: seq<Request>, es: seq<Event>, k: nat)
    requires Run(ss, es) && k < |ss|
    ensures Over(ss[k].phase) <==> forall e :: !FromProvider(e) ==> !Enabled(ss[k], e)
  {
    RunKeeps(ss, es, k);
    DispatcherStops(ss, es, k);
    hide Run, Steps;
    NextStep(ss[k]);
    hide Enabled;
  }

  lemma NextStep(s: Request)
    requires Invariant(s) && |s.attempts| <= 3
    ensures Over(s.phase) <==> forall e :: !FromProvider(e) ==> !Enabled(s, e)
  {
    var e := match s.phase
      case Arriving => Charge(true)
      case Routing => if |s.attempts| < 3 then Route else Exhaust
      case Prepared => Send
      case Waiting => Expire
      case Accepted => Expire
      case Leaving(_) => Remove
      case Committed => Finish
      case _ => Refund;
    assert !FromProvider(e);
    if !Over(s.phase) {
      assert Enabled(s, e);
    }
  }
}
