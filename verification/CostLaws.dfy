/** How the routing cost responds to load. */
module CostLaws {
  import opened Options
  import opened Fleet
  import opened Machine
  import opened Membership
  import opened Sums
  import Draining

  function Max(x: real, y: real): real { if x >= y then x else y }

  // ----- snapshots the registry can build -------------------------------------------------

  /** A snapshot of a provider whose pending requests for the model ask for this many tokens in all. */
  ghost predicate Built(s: Snapshot, tokens: int) {
    && 0 <= s.running <= INT64_MAX && 0 <= s.waiting <= INT64_MAX && 0 <= s.potential <= INT64_MAX
    && 0 <= s.pendingForModel <= s.totalPending <= 12
    && s.pendingForModel <= tokens <= s.pendingForModel * INT64_MAX
    && s.pendingMaxTokens == Wrap64(tokens)
    && s.prefillTPS > 0.0
  }

  /** What clamping and int fields leave of a provider's reports and requests. */
  ghost predicate Reported(p: Provider) {
    && (p.capacity.Some? ==> forall i :: 0 <= i < |p.capacity.value.slots| ==> ReportedSlot(p.capacity.value.slots[i]))
    && (forall r :: r in p.pending ==> p.pending[r].maxTokens <= INT64_MAX)
    && |p.pending| <= 12
  }

  ghost predicate ReportedSlot(s: Slot) {
    0 <= s.running <= INT64_MAX && 0 <= s.waiting <= INT64_MAX && 0 <= s.potential <= 1_000_000
  }

  /** A heartbeat with int counters leaves them clamped at zero, and nowhere capped but for the potential. */
  lemma HeartbeatReports(p: Provider, msg: HeartbeatMessage)
    requires Reported(p)
    requires msg.capacity.Some? ==> forall i :: 0 <= i < |msg.capacity.value.slots| ==>
               msg.capacity.value.slots[i].running <= INT64_MAX && msg.capacity.value.slots[i].waiting <= INT64_MAX
    ensures Reported(Heartbeaten(p, msg))
  {
  }

  lemma OneMoreTerm(n: nat, hi: int, x: int, sum: int)
    requires n <= sum <= n * hi && 1 <= x <= hi
    ensures n + 1 <= x + sum <= (n + 1) * hi
  {
    assert (n + 1) * hi == n * hi + hi;
  }

  lemma {:induction false} SumBounds(s: set<ReqId>, f: ReqId -> int, hi: int)
    requires forall r :: r in s ==> 1 <= f(r) <= hi
    ensures |s| <= SumOver(s, f) <= |s| * hi
    decreases |s|
  {
    if s != {} {
      var r :| r in s;
      SumRemove(s, f, r);
      SumBounds(s - {r}, f, hi);
      assert |s - {r}| == |s| - 1;
      hide SumOver;
      OneMoreTerm(|s| - 1, hi, f(r), SumOver(s - {r}, f));
    }
  }

  /** Every snapshot the registry takes is of this kind. */
  lemma SnapshotBuilt(policy: Policy, p: Provider, model: Model)
    requires Reported(p)
    ensures Built(SnapshotOf(policy, p, model), PendingTokens(p, model))
  {
    var f := (r: ReqId) => if r in p.pending then TokensOrDefault(p.pending[r].maxTokens) else 0;
    SumBounds(PendingFor(p, model), f, INT64_MAX);
    SumCongruent(PendingFor(p, model), f,
                 (r: ReqId) => if r in p.pending then TokensOrDefault(p.pending[r].maxTokens) else 0);
    SubsetCardinality(PendingFor(p, model), p.pending.Keys);
    assert |p.pending| == |p.pending.Keys|;
    if SlotFor(p, model).Some? {
      var slots := p.capacity.value.slots;
      var i :| 0 <= i < |slots| && slots[i] == SlotFor(p, model).value;
      assert ReportedSlot(slots[i]);
    }
    hide Wrap64, FirstSlot;
  }

  // ----- load -----------------------------------------------------------------------------

  /** The three int expressions behind the cost stay in range. */
  predicate Fits(s: Snapshot, tokens: int, reqMax: int) {
    && s.running + s.waiting <= INT64_MAX
    && s.waiting * reqMax <= INT64_MAX
    && tokens <= INT64_MAX
  }

  /** t is the same provider with at least as much work on it: x and y are the pending tokens of both. */
  ghost predicate NoLessLoad(s: Snapshot, x: int, t: Snapshot, y: int) {
    && Built(s, x) && Built(t, y)
    && t == s.(totalPending := t.totalPending, pendingForModel := t.pendingForModel,
               pendingMaxTokens := t.pendingMaxTokens, running := t.running,
               waiting := t.waiting, potential := t.potential)
    && s.totalPending <= t.totalPending && s.pendingForModel <= t.pendingForModel && x <= y
    && s.running <= t.running && s.waiting <= t.waiting && s.potential <= t.potential
  }

  /** The backlog in full: the largest of nothing, the wrapped pending tokens and the wrapped backend tokens. */
  lemma BacklogIs(s: Snapshot, reqMax: int)
    ensures BacklogTokens(s, reqMax)
         == Max(0.0, Max(s.pendingMaxTokens as real, (s.potential + Wrap64(s.waiting * reqMax)) as real))
  {
    hide Wrap64;
  }

  /**
   * The three token sources collapse to a maximum, reported work or coordinator-side pending
   * work, iff the int product over the waiting requests is in range, and so is the int sum over
   * the pending ones or it does not matter.
   */
  lemma BacklogIsMaximum(s: Snapshot, tokens: int, reqMax: int)
    requires Built(s, tokens) && 0 < reqMax <= INT64_MAX
    ensures var backend := s.potential + s.waiting * reqMax;
      BacklogTokens(s, reqMax) == Max(tokens as real, backend as real)
      <==> s.waiting * reqMax <= INT64_MAX && (tokens <= INT64_MAX || tokens <= backend)
  {
    var product := s.waiting * reqMax;
    ProductMonotone(0, s.waiting, 0, reqMax);
    BacklogIs(s, reqMax);
    hide BacklogTokens;
    if product > INT64_MAX {
      WrapDrops(product);
    }
    if tokens > INT64_MAX {
      WrapDrops(tokens);
    }
    BacklogCases(s.potential, product, tokens, Wrap64(product), Wrap64(tokens));
  }

  /** The case analysis behind it, on plain numbers. */
  lemma BacklogCases(potential: int, product: int, tokens: int, p: int, t: int)
    requires 0 <= potential && 0 <= product && 0 <= tokens && p <= INT64_MAX && t <= INT64_MAX
    requires if product <= INT64_MAX then p == product else p <= product - TWO_64
    requires if tokens <= INT64_MAX then t == tokens else t <= tokens - TWO_64
    ensures Max(0.0, Max(t as real, (potential + p) as real)) == Max(tokens as real, (potential + product) as real)
       <==> product <= INT64_MAX && (tokens <= INT64_MAX || tokens <= potential + product)
  {
  }

  /** The queue depth is the larger of both counts iff their int sum does not overflow. */
  lemma DepthIsMaximum(s: Snapshot, tokens: int)
    requires Built(s, tokens)
    ensures var depth := s.running + s.waiting;
      EffectiveQueue(s) == (if depth > s.pendingForModel then depth else s.pendingForModel) <==> depth <= INT64_MAX
  {
    if s.running + s.waiting > INT64_MAX {
      WrapDrops(s.running + s.waiting);
    }
  }

  lemma DivideShrinks(x: real, d: real, e: real)
    requires x >= 0.0 && 0.0 < d <= e
    ensures x / e <= x / d
  {
    var a, b := x / e, x / d;
    assert a * e == x && b * d == x;
    assert b * (e - d) >= 0.0;
    assert (b - a) * e >= 0.0;
  }

  lemma DivideMonotone(a: real, b: real, t: real, u: real)
    requires 0.0 <= a <= b && 0.0 < u <= t
    ensures a / t * 1000.0 <= b / u * 1000.0
  {
    assert a / t <= b / t by {
      assert a / t * t == a && b / t * t == b;
      assert (b / t - a / t) * t >= 0.0;
    }
    DivideShrinks(b, u, t);
  }

  lemma TPSAntitone(staticTPS: real, m: int, n: int)
    requires m <= n
    requires staticTPS <= 0.0 || staticTPS >= 1.0
    ensures EffectiveTPS(staticTPS, n) <= EffectiveTPS(staticTPS, m)
  {
    if staticTPS > 0.0 && n > 0 {
      var dn := 1.0 + LOAD_FACTOR * n as real;
      DivideShrinks(staticTPS, 1.0, dn);
      if m > 0 {
        var dm := 1.0 + LOAD_FACTOR * m as real;
        DivideShrinks(staticTPS, dm, dn);
      }
    }
  }

  lemma ProductMonotone(a: int, b: int, m: int, n: int)
    requires 0 <= a <= b && 0 <= m <= n
    ensures 0 <= a * m <= b * n
  {
    assert a * (n - m) >= 0 && (b - a) * n >= 0;
  }

  lemma MoreBacklog(s: Snapshot, x: int, t: Snapshot, y: int, m: int, n: int)
    requires NoLessLoad(s, x, t, y) && 0 < m <= n <= INT64_MAX && Fits(t, y, n)
    ensures 0.0 <= BacklogTokens(s, m) <= BacklogTokens(t, n)
  {
    ProductMonotone(s.waiting, t.waiting, m, n);
    BacklogIsMaximum(s, x, m);
    BacklogIsMaximum(t, y, n);
    hide BacklogTokens, Wrap64;
  }

  /** The parts of a cost. */
  lemma CostParts(s: Snapshot, penalty: real, prompt: int, m: int)
    requires s.prefillTPS > 0.0
    ensures var tps := EffectiveTPS(s.decodeTPS, s.running);
      Cost(s, penalty, prompt, m).costMs
      == penalty + EffectiveQueue(s) as real * QUEUE_DEPTH_PENALTY + s.totalPending as real * TOTAL_PENDING_PENALTY
         + BacklogTokens(s, m) / tps * 1000.0 + prompt as real / s.prefillTPS * 1000.0 + m as real / tps * 1000.0
         + HealthMs(s.metrics, s.gpuActiveGB, s.totalMemoryGB)
  {
    hide EffectiveTPS, BacklogTokens, EffectiveQueue, HealthMs;
  }

  /** More work on a provider, or a larger request, never makes the provider cheaper, while the load fits. */
  lemma CostMonotone(s: Snapshot, x: int, t: Snapshot, y: int, penalty: real, p: int, q: int, m: int, n: int)
    requires NoLessLoad(s, x, t, y) && Fits(t, y, n)
    requires 0 <= p <= q && 0 < m <= n <= INT64_MAX
    requires s.decodeTPS <= 0.0 || s.decodeTPS >= 1.0
    ensures Cost(s, penalty, p, m).costMs <= Cost(t, penalty, q, n).costMs
  {
    TPSAntitone(s.decodeTPS, s.running, t.running);
    var ts, tt := EffectiveTPS(s.decodeTPS, s.running), EffectiveTPS(t.decodeTPS, t.running);
    MoreBacklog(s, x, t, y, m, n);
    DivideMonotone(BacklogTokens(s, m), BacklogTokens(t, n), ts, tt);
    DivideMonotone(p as real, q as real, s.prefillTPS, t.prefillTPS);
    DivideMonotone(m as real, n as real, ts, tt);
    DepthIsMaximum(s, x);
    DepthIsMaximum(t, y);
    hide EffectiveTPS, BacklogTokens, EffectiveQueue, HealthMs, Wrap64;
    var c, d := Cost(s, penalty, p, m), Cost(t, penalty, q, n);
    assert c.queueMs <= d.queueMs && c.pendingMs <= d.pendingMs;
    assert c.backlogMs <= d.backlogMs && c.thisReqMs <= d.thisReqMs && c.healthMs == d.healthMs;
  }

  // ----- which speeds ------------------------------------------------------------------

  ghost predicate CostMonotoneAt(staticTPS: real) {
    forall s: Snapshot, x: int, t: Snapshot, y: int, m: int ::
      NoLessLoad(s, x, t, y) && s.decodeTPS == staticTPS && 0 < m <= INT64_MAX && Fits(t, y, m) ==>
        Cost(s, 0.0, 0, m).costMs <= Cost(t, 0.0, 0, m).costMs
  }

  /** A provider of this speed with one pending request of one token, which its backend may already run. */
  function Witness(tps: real, running: int): Snapshot {
    Snapshot("p", Running, 1, 1, 1, running, 0, 0, tps, 1.0, Metrics(0.0, 0.0, Nominal), 0.0, 0.0, 0.0, true)
  }

  lemma Reciprocal(tps: real)
    requires 0.0 < tps < 1.0
    ensures 1.0 / tps > 1.0
  {
    var x := 1.0 / tps;
    assert x * tps == 1.0;
    assert (x - 1.0) * tps > 0.0;
  }

  /** Below one token per second the floor of EffectiveTPS makes a busier provider look cheaper. */
  lemma SlowProviderGetsCheaper(tps: real)
    requires 0.0 < tps < 1.0
    ensures NoLessLoad(Witness(tps, 0), 1, Witness(tps, 1), 1) && Fits(Witness(tps, 1), 1, 1)
    ensures Cost(Witness(tps, 1), 0.0, 0, 1).costMs < Cost(Witness(tps, 0), 0.0, 0, 1).costMs
  {
    var s, t := Witness(tps, 0), Witness(tps, 1);
    DivideShrinks(tps, 1.0, 1.0 + LOAD_FACTOR * 1 as real);
    assert EffectiveTPS(tps, 1) == 1.0 && EffectiveTPS(tps, 0) == tps;
    assert BacklogTokens(s, 1) == 1.0 && BacklogTokens(t, 1) == 1.0;
    assert EffectiveQueue(s) == EffectiveQueue(t) == 1;
    CostParts(s, 0.0, 0, 1);
    CostParts(t, 0.0, 0, 1);
    Reciprocal(tps);
    hide Cost, EffectiveTPS, BacklogTokens, EffectiveQueue, HealthMs;
  }

  /** Exactly which benchmarked speeds make the cost monotone in load, over all loads that fit. */
  lemma MonotoneIffNotSlow(tps: real)
    ensures CostMonotoneAt(tps) <==> tps <= 0.0 || tps >= 1.0
  {
    hide Cost;
    if tps <= 0.0 || tps >= 1.0 {
      forall s: Snapshot, x: int, t: Snapshot, y: int, m: int |
        NoLessLoad(s, x, t, y) && s.decodeTPS == tps && 0 < m <= INT64_MAX && Fits(t, y, m)
        ensures Cost(s, 0.0, 0, m).costMs <= Cost(t, 0.0, 0, m).costMs
      {
        CostMonotone(s, x, t, y, 0.0, 0, 0, m, m);
      }
    } else {
      SlowProviderGetsCheaper(tps);
    }
  }

  // ----- which loads -----------------------------------------------------------------------

  /** Up to the load of t and requests of n tokens, no provider gets cheaper by getting busier. */
  ghost predicate MonotoneUpTo(t: Snapshot, y: int, n: int) {
    forall s: Snapshot, x: int, u: Snapshot, z: int, p: int, q: int, m: int, k: int ::
      NoLessLoad(s, x, u, z) && NoLessLoad(u, z, t, y) && 0 <= p <= q && 0 < m <= k <= n ==>
        Cost(s, 0.0, p, m).costMs <= Cost(u, 0.0, q, k).costMs
  }

  /** The provider of t with these backend counters and nothing pending. */
  function OnlyBackend(t: Snapshot, running: int, waiting: int): Snapshot {
    t.(totalPending := 0, pendingForModel := 0, pendingMaxTokens := 0, potential := 0,
       running := running, waiting := waiting)
  }

  /** The provider of t with an idle backend and this much pending. */
  function OnlyPending(t: Snapshot, requests: int, tokens: int): Snapshot {
    t.(totalPending := requests, pendingForModel := requests, pendingMaxTokens := Wrap64(tokens), potential := 0,
       running := 0, waiting := 0)
  }

  lemma SpeedBounds(staticTPS: real, running: int)
    requires staticTPS <= 0.0 || 1.0 <= staticTPS
    ensures 1.0 <= EffectiveTPS(staticTPS, running)
    ensures staticTPS <= 500.0 ==> EffectiveTPS(staticTPS, 0) <= 500.0
  {
  }

  lemma UnitQuotient(x: real, tps: real)
    requires 0.0 <= x && 1.0 <= tps
    ensures 0.0 <= x / tps <= x
  {
    DivideShrinks(x, 1.0, tps);
  }

  lemma DivideSum(x: real, y: real, d: real)
    requires d > 0.0
    ensures (x + y) / d == x / d + y / d
  {
  }

  lemma UnitBacklog(t: Snapshot, running: int, waiting: int)
    requires 0 <= waiting <= INT64_MAX
    ensures BacklogTokens(OnlyBackend(t, running, waiting), 1) == waiting as real
  {
  }

  /** One more waiting request takes the queue depth out of range, and the provider looks idle. */
  lemma DeepQueueLooksIdle(t: Snapshot, y: int) returns (s: Snapshot, u: Snapshot)
    requires Built(t, y) && t.running + t.waiting > INT64_MAX
    requires t.decodeTPS <= 0.0 || 1.0 <= t.decodeTPS
    ensures NoLessLoad(s, 0, u, 0) && NoLessLoad(u, 0, t, y)
    ensures Cost(u, 0.0, 0, 1).costMs < Cost(s, 0.0, 0, 1).costMs
  {
    var w, tps := INT64_MAX - t.running, EffectiveTPS(t.decodeTPS, t.running);
    s, u := OnlyBackend(t, t.running, w), OnlyBackend(t, t.running, w + 1);
    CostParts(s, 0.0, 0, 1);
    CostParts(u, 0.0, 0, 1);
    SpeedBounds(t.decodeTPS, t.running);
    UnitBacklog(t, t.running, w);
    UnitBacklog(t, t.running, w + 1);
    assert EffectiveQueue(s) == INT64_MAX && EffectiveQueue(u) == 0;
    hide EffectiveTPS, BacklogTokens, EffectiveQueue, HealthMs, Cost;
    UnitQuotient(1.0, tps);
    DivideSum(w as real, 1.0, tps);
  }

  lemma LastFittingProduct(n: int)
    requires 0 < n <= INT64_MAX
    ensures var w := INT64_MAX / n; 1 <= w && INT64_MAX / 2 <= w * n <= INT64_MAX < (w + 1) * n <= INT64_MAX + n
  {
    var w := INT64_MAX / n;
    assert w * n <= INT64_MAX < w * n + n;
    assert w >= 1;
    assert w * n >= n;
  }

  lemma BacklogPastRange(t: Snapshot, waiting: int, n: int)
    requires INT64_MAX < waiting * n <= 2 * INT64_MAX
    ensures BacklogTokens(OnlyBackend(t, 0, waiting), n) == 0.0
  {
    WrapDrops(waiting * n);
    BacklogIs(OnlyBackend(t, 0, waiting), n);
    hide BacklogTokens, Wrap64;
  }

  lemma BacklogInRange(t: Snapshot, waiting: int, n: int)
    requires 0 <= waiting * n <= INT64_MAX
    ensures BacklogTokens(OnlyBackend(t, 0, waiting), n) == (waiting * n) as real
  {
    BacklogIs(OnlyBackend(t, 0, waiting), n);
    hide BacklogTokens;
  }

  lemma LargeQuotient(x: real, tps: real)
    requires (INT64_MAX / 2) as real <= x && 1.0 <= tps <= 500.0
    ensures x / tps > 3.0
  {
    DivideShrinks(x, tps, 500.0);
    assert x / 500.0 > 3.0;
  }

  /** One more waiting request takes the waiting tokens out of range, and the backlog vanishes. */
  lemma WideRequestLooksFree(t: Snapshot, y: int, n: int) returns (s: Snapshot, u: Snapshot)
    requires Built(t, y) && 0 < n <= INT64_MAX && t.waiting * n > INT64_MAX
    requires t.decodeTPS <= 0.0 || 1.0 <= t.decodeTPS <= 500.0
    ensures NoLessLoad(s, 0, u, 0) && NoLessLoad(u, 0, t, y)
    ensures Cost(u, 0.0, 0, n).costMs < Cost(s, 0.0, 0, n).costMs
  {
    var w, tps := INT64_MAX / n, EffectiveTPS(t.decodeTPS, 0);
    LastFittingProduct(n);
    assert w < t.waiting by {
      if t.waiting <= w {
        ProductMonotone(t.waiting, w, n, n);
      }
    }
    s, u := OnlyBackend(t, 0, w), OnlyBackend(t, 0, w + 1);
    CostParts(s, 0.0, 0, n);
    CostParts(u, 0.0, 0, n);
    SpeedBounds(t.decodeTPS, 0);
    BacklogInRange(t, w, n);
    BacklogPastRange(t, w + 1, n);
    assert EffectiveQueue(s) == w && EffectiveQueue(u) == w + 1;
    hide EffectiveTPS, BacklogTokens, EffectiveQueue, HealthMs, Cost;
    LargeQuotient((w * n) as real, tps);
    assert 0.0 / tps == 0.0;
  }

  /** One more pending request takes the pending tokens out of range, and the backlog vanishes. */
  lemma HeavyPendingLooksFree(t: Snapshot, y: int) returns (s: Snapshot, u: Snapshot)
    requires Built(t, y) && y > INT64_MAX
    requires t.decodeTPS <= 0.0 || 1.0 <= t.decodeTPS <= 500.0
    ensures NoLessLoad(s, INT64_MAX, u, INT64_MAX + 1) && NoLessLoad(u, INT64_MAX + 1, t, y)
    ensures Cost(u, 0.0, 0, 1).costMs < Cost(s, 0.0, 0, 1).costMs
  {
    var tps := EffectiveTPS(t.decodeTPS, 0);
    assert t.pendingForModel >= 2;
    s, u := OnlyPending(t, 1, INT64_MAX), OnlyPending(t, 2, INT64_MAX + 1);
    assert Wrap64(INT64_MAX + 1) == INT64_MIN;
    CostParts(s, 0.0, 0, 1);
    CostParts(u, 0.0, 0, 1);
    SpeedBounds(t.decodeTPS, 0);
    assert BacklogTokens(s, 1) == INT64_MAX as real && BacklogTokens(u, 1) == 0.0;
    assert EffectiveQueue(s) == 1 && EffectiveQueue(u) == 2;
    hide EffectiveTPS, BacklogTokens, EffectiveQueue, HealthMs, Cost;
    DivideShrinks(INT64_MAX as real, tps, 500.0);
    assert 0.0 / tps == 0.0;
  }

  lemma FitsBelow(u: Snapshot, z: int, t: Snapshot, y: int, k: int, n: int)
    requires NoLessLoad(u, z, t, y) && 0 < k <= n && Fits(t, y, n)
    ensures Fits(u, z, k)
  {
    ProductMonotone(u.waiting, t.waiting, k, n);
  }

  /**
   * For every speed that registration admits from one token per second up, the cost is monotone
   * up to a load iff the int sums over its counters and its pending requests, and the int product
   * over its waiting ones, stay in range.
   */
  lemma MonotoneIffFits(t: Snapshot, y: int, n: int)
    requires Built(t, y) && 0 < n <= INT64_MAX
    requires t.decodeTPS <= 0.0 || 1.0 <= t.decodeTPS <= 500.0
    ensures MonotoneUpTo(t, y, n) <==> Fits(t, y, n)
  {
    if Fits(t, y, n) {
      hide Cost, Built;
      forall s: Snapshot, x: int, u: Snapshot, z: int, p: int, q: int, m: int, k: int |
        NoLessLoad(s, x, u, z) && NoLessLoad(u, z, t, y) && 0 <= p <= q && 0 < m <= k <= n
        ensures Cost(s, 0.0, p, m).costMs <= Cost(u, 0.0, q, k).costMs
      {
        FitsBelow(u, z, t, y, k, n);
        CostMonotone(s, x, u, z, 0.0, p, q, m, k);
      }
    } else if t.running + t.waiting > INT64_MAX {
      var s, u := DeepQueueLooksIdle(t, y);
      hide Cost, NoLessLoad;
    } else if t.waiting * n > INT64_MAX {
      var s, u := WideRequestLooksFree(t, y, n);
      hide Cost, NoLessLoad;
    } else {
      var s, u := HeavyPendingLooksFree(t, y);
      hide Cost, NoLessLoad;
    }
  }

  /**
   * A heartbeat that reports 2^62 running and as many waiting requests is cheaper than one without
   * the waiting ones.
   */
  lemma OverflowingHeartbeat()
    ensures var s := OnlyBackend(Witness(100.0, 0), 0x4000_0000_0000_0000, 0);
      var t := OnlyBackend(Witness(100.0, 0), 0x4000_0000_0000_0000, 0x4000_0000_0000_0000);
      NoLessLoad(s, 0, t, 0) && !Fits(t, 0, 256) && Cost(t, 0.0, 0, 256).costMs < Cost(s, 0.0, 0, 256).costMs
  {
    var r := 0x4000_0000_0000_0000;
    var s, t := OnlyBackend(Witness(100.0, 0), r, 0), OnlyBackend(Witness(100.0, 0), r, r);
    WrapUnique(r * 256, 0, 64);
    WrapUnique(r + r, INT64_MIN, 1);
    BacklogIs(s, 256);
    BacklogIs(t, 256);
    DepthOf(s);
    DepthOf(t);
    CostParts(s, 0.0, 0, 256);
    CostParts(t, 0.0, 0, 256);
    hide EffectiveTPS, BacklogTokens, EffectiveQueue, HealthMs, Cost;
  }

  lemma DepthOf(s: Snapshot)
    ensures var depth := Wrap64(s.running + s.waiting);
      EffectiveQueue(s) == if depth > s.pendingForModel then depth else s.pendingForModel
  {
    hide Wrap64;
  }

  // ----- one more reservation ------------------------------------------------------------------

  /** One more pending request raises the snapshot's pending tokens iff their int sum stays in range. */
  lemma PendingTokensGrow(policy: Policy, p: Provider, pr: Pending, model: Model)
    requires pr.id !in p.pending && pr.model == model && pr.maxTokens <= INT64_MAX
    requires 0 <= PendingTokens(p, model) <= INT64_MAX
    ensures var q := Draining.Reserved(p, pr);
      SnapshotOf(policy, q, model).pendingMaxTokens > SnapshotOf(policy, p, model).pendingMaxTokens
      <==> PendingTokens(p, model) + TokensOrDefault(pr.maxTokens) <= INT64_MAX
  {
    var q, x := Draining.Reserved(p, pr), TokensOrDefault(pr.maxTokens);
    ReservedTokens(p, pr, model);
    if PendingTokens(q, model) > INT64_MAX {
      WrapDrops(PendingTokens(q, model));
    }
    hide Wrap64, PendingTokens;
  }

  lemma ReservedCounts(p: Provider, pr: Pending, model: Model)
    requires pr.id !in p.pending && pr.model == model
    ensures var q := Draining.Reserved(p, pr);
      |q.pending| == |p.pending| + 1 && |PendingFor(q, model)| == |PendingFor(p, model)| + 1
  {
    var q := Draining.Reserved(p, pr);
    assert PendingFor(q, model) == PendingFor(p, model) + {pr.id};
    assert q.pending.Keys == p.pending.Keys + {pr.id};
    assert |q.pending| == |q.pending.Keys| && |p.pending| == |p.pending.Keys|;
  }

  /** A reservation leaves everything but the pending set and the status. */
  lemma ReservedHardware(p: Provider, pr: Pending, model: Model)
    ensures var q := Draining.Reserved(p, pr);
      && SlotFor(q, model) == SlotFor(p, model) && q.id == p.id && q.metrics == p.metrics && q.capacity == p.capacity
      && ResolvedDecodeTPS(q) == ResolvedDecodeTPS(p) && ResolvedPrefillTPS(q) == ResolvedPrefillTPS(p)
      && SnapshotMemory(q) == SnapshotMemory(p)
  {
    hide FirstSlot, TokensOrDefault;
  }

  /** What a reservation changes in the provider's snapshot. */
  lemma ReservedSnapshot(policy: Policy, p: Provider, pr: Pending, model: Model)
    requires pr.id !in p.pending && pr.model == model
    ensures var s, t := SnapshotOf(policy, p, model), SnapshotOf(policy, Draining.Reserved(p, pr), model);
      t == s.(totalPending := s.totalPending + 1, pendingForModel := s.pendingForModel + 1,
              pendingMaxTokens := Wrap64(s.pendingMaxTokens + TokensOrDefault(pr.maxTokens)))
  {
    hide Wrap64, PendingTokens, PendingFor, SlotFor, TokensOrDefault, Draining.Reserved, ResolvedDecodeTPS,
      ResolvedPrefillTPS, SnapshotMemory, CatalogSize;
    ReservedTokens(p, pr, model);
    ReservedCounts(p, pr, model);
    WrapSum(PendingTokens(p, model), TokensOrDefault(pr.maxTokens));
    ReservedHardware(p, pr, model);
  }

  lemma ReservedTokens(p: Provider, pr: Pending, model: Model)
    requires pr.id !in p.pending && pr.model == model
    ensures PendingTokens(Draining.Reserved(p, pr), model) == PendingTokens(p, model) + TokensOrDefault(pr.maxTokens)
  {
    var q := Draining.Reserved(p, pr);
    var f := (r: ReqId) => if r in p.pending then TokensOrDefault(p.pending[r].maxTokens) else 0;
    var g := (r: ReqId) => if r in q.pending then TokensOrDefault(q.pending[r].maxTokens) else 0;
    assert PendingFor(q, model) == PendingFor(p, model) + {pr.id};
    SumInsert(PendingFor(p, model), f, g, pr.id);
  }

  /** What the pending tokens add to the backlog, over and above the backend's own. */
  function Excess(s: Snapshot, m: int): real {
    BacklogTokens(s, m) - Max(0.0, (s.potential + Wrap64(s.waiting * m)) as real)
  }

  lemma QueueGrowth(s: Snapshot)
    requires s.pendingForModel >= 0
    ensures var t := s.(totalPending := s.totalPending + 1, pendingForModel := s.pendingForModel + 1);
      EffectiveQueue(s) <= EffectiveQueue(t) <= EffectiveQueue(s) + 1
  {
    hide Wrap64;
  }

  lemma Quotients(a: real, b: real, tps: real)
    requires tps > 0.0
    ensures (a - b) / tps == a / tps - b / tps
    ensures a <= b ==> a / tps <= b / tps
  {
    if a <= b {
      var d := (b - a) / tps;
      assert d * tps == b - a;
      assert d >= 0.0;
    }
  }

  /** The law for one more pending request, on snapshots. */
  lemma OneMorePending(s: Snapshot, t: Snapshot, x: int, penalty: real, prompt: int, m: int)
    requires s.prefillTPS > 0.0 && s.pendingForModel >= 0 && 0 < x <= INT64_MAX
    requires INT64_MIN <= s.pendingMaxTokens <= INT64_MAX
    requires t == s.(totalPending := s.totalPending + 1, pendingForModel := s.pendingForModel + 1,
                     pendingMaxTokens := Wrap64(s.pendingMaxTokens + x))
    ensures Cost(s, penalty, prompt, m).costMs <= Cost(t, penalty, prompt, m).costMs
       <==> || s.pendingMaxTokens + x <= INT64_MAX
            || Excess(s, m) / EffectiveTPS(s.decodeTPS, s.running) * 1000.0
               <= TOTAL_PENDING_PENALTY + QUEUE_DEPTH_PENALTY * (EffectiveQueue(t) - EffectiveQueue(s)) as real
  {
    var tps := EffectiveTPS(s.decodeTPS, s.running);
    CostParts(s, penalty, prompt, m);
    CostParts(t, penalty, prompt, m);
    BacklogIs(s, m);
    BacklogIs(t, m);
    QueueGrowth(s);
    assert EffectiveQueue(t)
        == EffectiveQueue(s.(totalPending := t.totalPending, pendingForModel := t.pendingForModel));
    if s.pendingMaxTokens + x > INT64_MAX {
      WrapDrops(s.pendingMaxTokens + x);
    }
    Quotients(BacklogTokens(s, m), BacklogTokens(t, m), tps);
    hide Cost, BacklogTokens, EffectiveQueue, EffectiveTPS, HealthMs, Wrap64;
  }

  /**
   * Exactly when reserving one more request does not make a provider look cheaper to the next one:
   * the provider's pending tokens stay in range, or what wrapping wipes off the backlog is worth
   * no more than the two penalties that the reservation adds.
   */
  lemma ReservingRaisesCost(policy: Policy, p: Provider, pr: Pending, model: Model, penalty: real, prompt: int, m: int)
    requires pr.id !in p.pending && pr.model == model && pr.maxTokens <= INT64_MAX
    ensures var s, t := SnapshotOf(policy, p, model), SnapshotOf(policy, Draining.Reserved(p, pr), model);
      Cost(s, penalty, prompt, m).costMs <= Cost(t, penalty, prompt, m).costMs
      <==> || s.pendingMaxTokens + TokensOrDefault(pr.maxTokens) <= INT64_MAX
           || Excess(s, m) / EffectiveTPS(s.decodeTPS, s.running) * 1000.0
              <= TOTAL_PENDING_PENALTY + QUEUE_DEPTH_PENALTY * (EffectiveQueue(t) - EffectiveQueue(s)) as real
  {
    ReservedSnapshot(policy, p, pr, model);
    var s, t := SnapshotOf(policy, p, model), SnapshotOf(policy, Draining.Reserved(p, pr), model);
    assert s.pendingMaxTokens == Wrap64(PendingTokens(p, model)) && s.pendingForModel >= 0 && s.prefillTPS > 0.0;
    hide SnapshotOf, Wrap64, Cost, Excess, EffectiveQueue, EffectiveTPS;
    OneMorePending(s, t, TokensOrDefault(pr.maxTokens), penalty, prompt, m);
  }

  // ----- a reservation that makes a provider cheaper ----------------------------------------------

  const HUGE := 0x4000_0000_0000_0000

  const TRUSTING := Policy(Hardware, map[])

  /** A hardware-trusted, freshly challenged provider of 100 tokens per second that has sent no backend report. */
  const PLAIN := Provider(
    id := "p", models := ["m"], status := Online, trust := Hardware, runtimeVerified := true, publicKey := "k",
    backend := MLXSwift, encryptedChunks := true, manifestChecked := true, sipVerified := true,
    capabilities := Some(Capabilities(true, true, true, true, true, true, true)), lastChallenge := Some(0),
    failedChallenges := 0, capacity := None, memoryGB := 64, rootBandwidth := 0.0, decodeTPS := 100.0,
    prefillTPS := 400.0, metrics := Metrics(0.0, 0.0, Nominal), attestedSerial := None, mdaSerial := None,
    pending := map[])

  function Asking(id: ReqId, tokens: int): Pending { Pending(id, "", "m", 0, tokens, []) }

  lemma PlainIsEligible(p: Provider, pr: Pending)
    requires p == PLAIN.(status := p.status, pending := p.pending) && (p.status == Online || p.status == Serving)
    requires |p.pending| <= 2 && pr.allowedSerials == []
    ensures Eligible(TRUSTING, p, 0, "m", pr)
  {
  }

  /**
   * Two reservations of 2^62 tokens each, both admitted, leave the provider cheaper for a third
   * request than the first of them alone.
   */
  lemma HeavyReservation()
    ensures var a, b, c := Asking("a", HUGE), Asking("b", HUGE), Asking("c", 256);
      var one, two := Draining.Reserved(PLAIN, a), Draining.Reserved(Draining.Reserved(PLAIN, a), b);
      && Eligible(TRUSTING, PLAIN, 0, "m", a) && Eligible(TRUSTING, one, 0, "m", b)
      && Eligible(TRUSTING, one, 0, "m", c) && Eligible(TRUSTING, two, 0, "m", c)
      && CandidateOf(TRUSTING, two, "m", c).costMs < CandidateOf(TRUSTING, one, "m", c).costMs
  {
    var a, b, c := Asking("a", HUGE), Asking("b", HUGE), Asking("c", 256);
    var one := Draining.Reserved(PLAIN, a);
    var two := Draining.Reserved(one, b);
    hide Eligible, SnapshotOf, CandidateOf, Cost, EffectiveTPS, EffectiveQueue, Wrap64, Excess, Draining.Reserved;
    HeavyEligible();
    HeavyLoad();
    ReservedSnapshot(TRUSTING, one, b, "m");
    ReservingRaisesCost(TRUSTING, one, b, "m", 2500.0, 0, 256);
    var s, t := SnapshotOf(TRUSTING, one, "m"), SnapshotOf(TRUSTING, two, "m");
    HeavyExcess(s);
    QueueGrowth(s);
    QueueLike(t, s.(totalPending := s.totalPending + 1, pendingForModel := s.pendingForModel + 1));
  }

  lemma HeavyEligible()
    ensures var a, b, c := Asking("a", HUGE), Asking("b", HUGE), Asking("c", 256);
      var one, two := Draining.Reserved(PLAIN, a), Draining.Reserved(Draining.Reserved(PLAIN, a), b);
      && Eligible(TRUSTING, PLAIN, 0, "m", a) && Eligible(TRUSTING, one, 0, "m", b)
      && Eligible(TRUSTING, one, 0, "m", c) && Eligible(TRUSTING, two, 0, "m", c)
      && "b" !in one.pending
  {
    var a, b, c := Asking("a", HUGE), Asking("b", HUGE), Asking("c", 256);
    var one := Draining.Reserved(PLAIN, a);
    var two := Draining.Reserved(one, b);
    ReservedCounts(PLAIN, a, "m");
    ReservedCounts(one, b, "m");
    hide Eligible;
    PlainIsEligible(PLAIN, a);
    PlainIsEligible(one, b);
    PlainIsEligible(one, c);
    PlainIsEligible(two, c);
  }

  /** What the scheduler sees after the first of them, and what it makes of that. */
  lemma HeavyLoad()
    ensures var one := Draining.Reserved(PLAIN, Asking("a", HUGE));
      var two := Draining.Reserved(one, Asking("b", HUGE));
      var s, t := SnapshotOf(TRUSTING, one, "m"), SnapshotOf(TRUSTING, two, "m");
      && s.pendingMaxTokens == HUGE && s.waiting == 0 && s.potential == 0 && s.decodeTPS == 100.0 && s.running == 0
      && s.pendingForModel >= 0
      && CandidateOf(TRUSTING, one, "m", Asking("c", 256)) == Cost(s, 2500.0, 0, 256)
      && CandidateOf(TRUSTING, two, "m", Asking("c", 256)) == Cost(t, 2500.0, 0, 256)
  {
    var a := Asking("a", HUGE);
    ReservedTokens(PLAIN, a, "m");
    assert PendingFor(PLAIN, "m") == {} && PendingTokens(PLAIN, "m") == 0;
    hide PendingTokens, Cost;
  }

  lemma HeavyExcess(s: Snapshot)
    requires s.pendingMaxTokens == HUGE && s.waiting == 0 && s.potential == 0 && s.decodeTPS == 100.0 && s.running == 0
    ensures Excess(s, 256) == HUGE as real && EffectiveTPS(s.decodeTPS, s.running) == 100.0
  {
    BacklogIs(s, 256);
  }

  lemma QueueLike(s: Snapshot, t: Snapshot)
    requires s == t.(pendingMaxTokens := s.pendingMaxTokens)
    ensures EffectiveQueue(s) == EffectiveQueue(t)
  {
  }
}
