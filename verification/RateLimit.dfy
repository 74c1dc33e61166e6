/** The telemetry endpoint's token buckets. Times are in seconds. */
module RateLimit {
  import opened Options

  datatype Bucket = Bucket(tokens: real, lastRefill: real)

  datatype Limit = Limit(capacity: real, rate: real)

  const SIGNED_IN := Limit(200.0, 100.0 / 60.0)
  const ANONYMOUS := Limit(30.0, 10.0 / 60.0)

  function LimitFor(anon: bool): Limit { if anon then ANONYMOUS else SIGNED_IN }

  function KeyOf(key: string): string { if key == "" then "_global" else key }

  /** Callers share a bucket iff they use the same key; those without one share a bucket of their own. */
  lemma KeysDiffer(a: string, b: string)
    requires a != "_global" && b != "_global"
    ensures KeyOf(a) == KeyOf(b) <==> a == b
  {
  }

  // ----- one call on one bucket --------------------------------------------------------

  function Opened(b: Option<Bucket>, limit: Limit, now: real): Bucket {
    if b.Some? then b.value else Bucket(limit.capacity, now)
  }

  /** What a rate yields between two instants. */
  function Yield(rate: real, from: real, to: real): real { rate * (to - from) }

  /** Refilled for the time since the last refill; a clock that stands still or runs backwards adds nothing. */
  function Refilled(b: Bucket, limit: Limit, now: real): Bucket {
    if now - b.lastRefill > 0.0 then
      var tokens := b.tokens + Yield(limit.rate, b.lastRefill, now);
      Bucket(if tokens > limit.capacity then limit.capacity else tokens, now)
    else b
  }

  predicate Admits(b: Bucket, n: nat) { b.tokens >= n as real }

  function Spent(b: Bucket, n: nat): Bucket {
    if Admits(b, n) then b.(tokens := b.tokens - n as real) else b
  }

  datatype Call = Call(n: nat, now: real, anon: bool)

  function Ready(b: Option<Bucket>, c: Call): Bucket {
    Refilled(Opened(b, LimitFor(c.anon), c.now), LimitFor(c.anon), c.now)
  }

  function Called(b: Option<Bucket>, c: Call): Bucket {
    Spent(Ready(b, c), c.n)
  }

  // ----- spans of calls -----------------------------------------------------------------

  function After(b: Option<Bucket>, calls: seq<Call>): Option<Bucket> {
    if calls == [] then b
    else Some(Called(After(b, calls[..|calls| - 1]), calls[|calls| - 1]))
  }

  /** The events admitted by a span of calls. */
  function Admitted(b: Option<Bucket>, calls: seq<Call>): nat {
    if calls == [] then 0
    else
      var before := calls[..|calls| - 1];
      var c := calls[|calls| - 1];
      Admitted(b, before) + if Admits(Ready(After(b, before), c), c.n) then c.n else 0
  }

  ghost predicate Bounded(b: Option<Bucket>, limit: Limit) {
    b.Some? ==> 0.0 <= b.value.tokens <= limit.capacity
  }

  /** Where the span's clock starts: the bucket's last refill, or the first call when there is no bucket yet. */
  function Origin(b: Option<Bucket>, calls: seq<Call>): real
    requires b.None? ==> calls != []
  {
    if b.Some? then b.value.lastRefill else calls[0].now
  }

  ghost predicate Within(l: Limit, limit: Limit) {
    0.0 <= l.capacity <= limit.capacity && 0.0 <= l.rate <= limit.rate
  }

  /** Every call of the span is made under this limit or a stricter one. */
  ghost predicate Covers(limit: Limit, calls: seq<Call>) {
    forall i :: 0 <= i < |calls| ==> Within(LimitFor(calls[i].anon), limit)
  }

  /** The signed-in limit covers any mix of calls, the anonymous one any span of anonymous calls. */
  lemma LimitsCover(calls: seq<Call>)
    ensures Covers(SIGNED_IN, calls)
    ensures Covers(ANONYMOUS, calls) <==> forall i :: 0 <= i < |calls| ==> calls[i].anon
  {
  }

  lemma YieldLaws(rate: real, a: real, b: real, c: real)
    ensures Yield(rate, a, b) + Yield(rate, b, c) == Yield(rate, a, c)
    ensures Yield(rate, a, a) == 0.0
    ensures rate >= 0.0 && a <= b ==> Yield(rate, a, b) >= 0.0
  {
    if rate >= 0.0 && a <= b {
      Times(rate, b - a);
    }
  }

  lemma Times(x: real, y: real)
    requires x >= 0.0 && y >= 0.0
    ensures x * y >= 0.0
  {
  }

  lemma YieldRate(slow: real, fast: real, a: real, b: real)
    requires slow <= fast && a <= b
    ensures Yield(slow, a, b) <= Yield(fast, a, b)
  {
    Times(fast - slow, b - a);
    assert (fast - slow) * (b - a) == fast * (b - a) - slow * (b - a);
  }

  lemma RefillBound(b: Bucket, l: Limit, limit: Limit, now: real)
    requires Within(l, limit) && 0.0 <= b.tokens <= limit.capacity
    ensures var r := Refilled(b, l, now);
      && 0.0 <= r.tokens <= limit.capacity && b.lastRefill <= r.lastRefill
      && r.tokens <= b.tokens + Yield(limit.rate, b.lastRefill, r.lastRefill)
  {
    YieldLaws(l.rate, b.lastRefill, now, now);
    YieldLaws(limit.rate, b.lastRefill, b.lastRefill, now);
    if now > b.lastRefill {
      YieldRate(l.rate, limit.rate, b.lastRefill, now);
    }
    hide Yield;
  }

  /** What has been admitted so far and is still available never exceeds what the start and the refills provided. */
  ghost predicate Paid(admitted: nat, b: Bucket, start: Bucket, limit: Limit) {
    && 0.0 <= b.tokens <= limit.capacity && start.lastRefill <= b.lastRefill
    && admitted as real + b.tokens <= start.tokens + Yield(limit.rate, start.lastRefill, b.lastRefill)
  }

  lemma CallPays(admitted: nat, b: Bucket, start: Bucket, limit: Limit, c: Call)
    requires Within(LimitFor(c.anon), limit) && Paid(admitted, b, start, limit)
    ensures var r := Refilled(b, LimitFor(c.anon), c.now);
      Paid(admitted + if Admits(r, c.n) then c.n else 0, Spent(r, c.n), start, limit)
  {
    RefillBound(b, LimitFor(c.anon), limit, c.now);
    var r := Refilled(b, LimitFor(c.anon), c.now);
    YieldLaws(limit.rate, start.lastRefill, b.lastRefill, r.lastRefill);
    hide Refilled, Yield, LimitFor;
  }

  lemma StartPays(b: Bucket, start: Bucket, limit: Limit)
    requires 0.0 <= b.tokens <= start.tokens <= limit.capacity && b.lastRefill == start.lastRefill
    ensures Paid(0, b, start, limit)
  {
    YieldLaws(limit.rate, start.lastRefill, start.lastRefill, start.lastRefill);
    hide Yield;
  }

  /** Spending is paid for by tokens: none appear but by refilling. */
  lemma {:induction false} TokensPay(b: Option<Bucket>, limit: Limit, calls: seq<Call>)
    requires Bounded(b, limit) && Covers(limit, calls) && (b.None? ==> calls != [])
    ensures After(b, calls).Some?
    ensures Paid(Admitted(b, calls), After(b, calls).value, Opened(b, limit, Origin(b, calls)), limit)
    decreases |calls|
  {
    var start := Opened(b, limit, Origin(b, calls));
    if calls == [] {
      StartPays(start, start, limit);
    } else {
      var n := |calls| - 1;
      var c, before := calls[n], calls[..n];
      var mid := Opened(After(b, before), LimitFor(c.anon), c.now);
      assert Within(LimitFor(c.anon), limit);
      if n == 0 && b.None? {
        StartPays(mid, start, limit);
        assert Admitted(b, before) == 0;
      } else {
        TokensPay(b, limit, before);
        assert Origin(b, before) == Origin(b, calls);
      }
      hide Paid, LimitFor, Within;
      assert Paid(Admitted(b, before), mid, start, limit);
      CallPays(Admitted(b, before), mid, start, limit, c);
      hide Refilled, Spent, Admits;
    }
  }

  /**
   * Whatever the clock does, a span of calls on one key admits at most the capacity plus the
   * rate times the advance of the refill clock, and the tokens stay within the capacity, for
   * every limit that covers the span's calls.
   */
  lemma SpanBound(b: Option<Bucket>, limit: Limit, calls: seq<Call>)
    requires Bounded(b, limit) && Covers(limit, calls) && calls != []
    ensures var e := After(b, calls);
      && e.Some? && 0.0 <= e.value.tokens <= limit.capacity
      && Admitted(b, calls) as real <= limit.capacity + Yield(limit.rate, Origin(b, calls), e.value.lastRefill)
  {
    TokensPay(b, limit, calls);
    PaidBound(Admitted(b, calls), After(b, calls).value, Opened(b, limit, Origin(b, calls)), limit);
    hide After, Admitted, Paid, Yield;
  }

  lemma PaidBound(admitted: nat, b: Bucket, start: Bucket, limit: Limit)
    requires Paid(admitted, b, start, limit) && start.tokens <= limit.capacity
    ensures 0.0 <= b.tokens <= limit.capacity
    ensures admitted as real <= limit.capacity + Yield(limit.rate, start.lastRefill, b.lastRefill)
  {
  }

  /** The bound is met: a new key is admitted its whole capacity at once. */
  lemma BurstIsReached(anon: bool, now: real)
    ensures Admitted(None, [Call(if anon then 30 else 200, now, anon)]) as real == LimitFor(anon).capacity
  {
    var c := Call(if anon then 30 else 200, now, anon);
    assert [c][..0] == [];
    assert Ready(None, c) == Bucket(LimitFor(anon).capacity, now);
  }

  // ----- many keys ---------------------------------------------------------------------------

  datatype Request = Request(key: string, call: Call)

  type Buckets = map<string, Bucket>

  function Lookup(buckets: Buckets, key: string): Option<Bucket> {
    if KeyOf(key) in buckets then Some(buckets[KeyOf(key)]) else None
  }

  predicate Grants(buckets: Buckets, r: Request) {
    Admits(Ready(Lookup(buckets, r.key), r.call), r.call.n)
  }

  function Served(buckets: Buckets, r: Request): Buckets {
    buckets[KeyOf(r.key) := Called(Lookup(buckets, r.key), r.call)]
  }

  function AfterAll(buckets: Buckets, rs: seq<Request>): Buckets {
    if rs == [] then buckets else Served(AfterAll(buckets, rs[..|rs| - 1]), rs[|rs| - 1])
  }

  /** The events that a span of requests was granted under one key. */
  function Granted(buckets: Buckets, rs: seq<Request>, key: string): nat {
    if rs == [] then 0
    else
      var before := rs[..|rs| - 1];
      var r := rs[|rs| - 1];
      Granted(buckets, before, key)
      + if KeyOf(r.key) == KeyOf(key) && Grants(AfterAll(buckets, before), r) then r.call.n else 0
  }

  function CallsOn(rs: seq<Request>, key: string): seq<Call> {
    if rs == [] then []
    else CallsOn(rs[..|rs| - 1], key) + if KeyOf(rs[|rs| - 1].key) == KeyOf(key) then [rs[|rs| - 1].call] else []
  }

  /** A key's bucket has seen that key's calls and no others. */
  lemma {:induction false} KeysAreSeparate(buckets: Buckets, rs: seq<Request>, key: string)
    ensures Lookup(AfterAll(buckets, rs), key) == After(Lookup(buckets, key), CallsOn(rs, key))
    ensures Granted(buckets, rs, key) == Admitted(Lookup(buckets, key), CallsOn(rs, key))
  {
    if rs != [] {
      var n := |rs| - 1;
      var r, before := rs[n], rs[..n];
      KeysAreSeparate(buckets, before, key);
      hide Admits, Ready, Spent;
      var calls := CallsOn(before, key);
      if KeyOf(r.key) == KeyOf(key) {
        assert (calls + [r.call])[..|calls|] == calls;
      } else {
        assert calls + [] == calls;
      }
    }
  }

  lemma {:induction false} StaysBounded(b: Option<Bucket>, limit: Limit, calls: seq<Call>)
    requires Bounded(b, limit) && Covers(limit, calls)
    ensures Bounded(After(b, calls), limit)
  {
    if calls != [] {
      SpanBound(b, limit, calls);
    }
  }

  /**
   * The bound per key, for any span after any past, in a history of requests from everybody:
   * under the anonymous limit if the key was only used anonymously, else under the signed-in one.
   */
  lemma KeyBound(past: seq<Request>, span: seq<Request>, key: string, limit: Limit)
    requires Covers(limit, CallsOn(past, key)) && Covers(limit, CallsOn(span, key)) && CallsOn(span, key) != []
    ensures var before := AfterAll(map[], past);
      var e := Lookup(AfterAll(before, span), key);
      && e.Some?
      && Granted(before, span, key) as real
         <= limit.capacity + Yield(limit.rate, Origin(Lookup(before, key), CallsOn(span, key)), e.value.lastRefill)
  {
    var before := AfterAll(map[], past);
    KeysAreSeparate(map[], past, key);
    KeysAreSeparate(before, span, key);
    assert Lookup(map[], key) == None;
    hide Yield, AfterAll, Granted, CallsOn, After, Admitted, Covers, Lookup;
    StaysBounded(None, limit, CallsOn(past, key));
    SpanBound(Lookup(before, key), limit, CallsOn(span, key));
  }

  // ----- what is granted -------------------------------------------------------------------------

  /** 30 events at once and 10 a minute for anonymous callers, 200 and 100 for the others. */
  function Burst(anon: bool): real { if anon then 30.0 else 200.0 }

  function PerMinute(anon: bool): real { if anon then 10.0 else 100.0 }

  /** What a bucket holds at an instant: what it held plus what a minute yields, up to the burst, as time goes on. */
  ghost predicate Holds(b: Bucket, anon: bool, now: real, tokens: real) {
    if now > b.lastRefill then
      var grown := b.tokens + PerMinute(anon) * (now - b.lastRefill) / 60.0;
      && tokens <= Burst(anon) && tokens <= grown && (tokens == Burst(anon) || tokens == grown)
    else tokens == b.tokens
  }

  lemma PerSecond(anon: bool, t: real)
    ensures LimitFor(anon).rate * t == PerMinute(anon) * t / 60.0
  {
  }

  /**
   * A call is admitted iff the bucket holds that many tokens by then, and takes just these; a refused
   * call takes none.
   */
  lemma AdmitsWhatIsHeld(b: Bucket, c: Call) returns (tokens: real)
    ensures Holds(b, c.anon, c.now, tokens)
    ensures Admits(Ready(Some(b), c), c.n) <==> c.n as real <= tokens
    ensures Called(Some(b), c).tokens == if c.n as real <= tokens then tokens - c.n as real else tokens
    ensures Called(Some(b), c).lastRefill == if c.now > b.lastRefill then c.now else b.lastRefill
  {
    PerSecond(c.anon, c.now - b.lastRefill);
    tokens := Ready(Some(b), c).tokens;
  }

  /** A new key holds its burst. */
  lemma AdmitsBurst(c: Call)
    ensures Admits(Ready(None, c), c.n) <==> c.n as real <= Burst(c.anon)
    ensures var left := if c.n as real <= Burst(c.anon) then Burst(c.anon) - c.n as real else Burst(c.anon);
      Called(None, c) == Bucket(left, c.now)
  {
  }

  /** A bucket was last refilled at the instant of one of its calls. */
  lemma {:induction false} RefilledAtCall(calls: seq<Call>)
    requires calls != []
    ensures After(None, calls).Some?
    ensures exists i :: 0 <= i < |calls| && calls[i].now == After(None, calls).value.lastRefill
  {
    var n := |calls| - 1;
    var c, before := calls[n], calls[..n];
    if before != [] {
      RefilledAtCall(before);
      var i :| 0 <= i < |before| && before[i].now == After(None, before).value.lastRefill;
      assert calls[i] == before[i];
    }
    assert calls[n].now == c.now;
    hide Yield, LimitFor;
  }

  lemma {:induction false} CallsOnKey(rs: seq<Request>, key: string, c: Call)
    requires c in CallsOn(rs, key)
    ensures exists r :: r in rs && KeyOf(r.key) == KeyOf(key) && r.call == c
  {
    var n := |rs| - 1;
    if c in CallsOn(rs[..n], key) {
      CallsOnKey(rs[..n], key, c);
    } else {
      assert rs[n] in rs;
    }
  }

  /** The seconds in which an empty bucket fills up. */
  function FullAfter(anon: bool): real { if anon then 180.0 else 120.0 }

  lemma FullAgain(b: Bucket, c: Call)
    requires b.tokens >= 0.0 && c.now - b.lastRefill >= FullAfter(c.anon)
    ensures Admits(Ready(Some(b), c), c.n) <==> c.n as real <= Burst(c.anon)
  {
    var tokens := AdmitsWhatIsHeld(b, c);
    hide Ready, Called;
    if c.anon {
      assert 10.0 * (c.now - b.lastRefill) / 60.0 >= 30.0;
    } else {
      assert 100.0 * (c.now - b.lastRefill) / 60.0 >= 200.0;
    }
  }

  /** After any history, a key that was left alone for that long is granted its whole burst again, and no more. */
  lemma IdleKeyRecovers(past: seq<Request>, key: string, c: Call)
    requires forall r :: r in past && KeyOf(r.key) == KeyOf(key) ==> c.now - r.call.now >= FullAfter(c.anon)
    ensures Grants(AfterAll(map[], past), Request(key, c)) <==> c.n as real <= Burst(c.anon)
  {
    var calls := CallsOn(past, key);
    KeysAreSeparate(map[], past, key);
    assert Lookup(map[], key) == None;
    hide Ready, AfterAll, Lookup, Granted;
    if calls == [] {
      AdmitsBurst(c);
    } else {
      RefilledAtCall(calls);
      var b := After(None, calls).value;
      var i :| 0 <= i < |calls| && calls[i].now == b.lastRefill;
      CallsOnKey(past, key, calls[i]);
      LimitsCover(calls);
      StaysBounded(None, SIGNED_IN, calls);
      hide After, CallsOn;
      FullAgain(b, c);
    }
  }

  // ----- the limiter ---------------------------------------------------------------------------

  class TelemetryLimiter {
    var buckets: map<string, Bucket>

    constructor ()
      ensures buckets == map[]
    {
      buckets := map[];
    }

    /** Every key has its own bucket: a call is a call on that bucket, and touches no other. */
    method Allow(key: string, n: nat, anon: bool, now: real) returns (ok: bool)
      modifies this
      ensures ok == Grants(old(buckets), Request(key, Call(n, now, anon)))
      ensures buckets == Served(old(buckets), Request(key, Call(n, now, anon)))
    {
      var k := KeyOf(key);
      var capacity, rate := SIGNED_IN.capacity, SIGNED_IN.rate;
      if anon {
        capacity, rate := ANONYMOUS.capacity, ANONYMOUS.rate;
      }
      var tokens, lastRefill := capacity, now;
      if k in buckets {
        tokens, lastRefill := buckets[k].tokens, buckets[k].lastRefill;
      }
      var elapsed := now - lastRefill;
      if elapsed > 0.0 {
        tokens := tokens + rate * elapsed;
        if tokens > capacity {
          tokens := capacity;
        }
        lastRefill := now;
      }
      ok := tokens >= n as real;
      if ok {
        tokens := tokens - n as real;
      }
      buckets := buckets[k := Bucket(tokens, lastRefill)];
    }
  }
}
