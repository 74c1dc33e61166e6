/**
 * The scheduler's price list: who may be offered a request, and at what cost, in terms of what the
 * provider registered and reported, in plain arithmetic.
 */
module Quotes {
  import opened Options
  import opened Machine
  import opened Sums
  import opened Fleet
  import opened Membership
  import opened CostLaws
  import opened Draining
  import opened Selection

  // ----- what a provider reports for a model ------------------------------------------------

  predicate FirstAt(slots: seq<Slot>, model: Model, i: int) {
    0 <= i < |slots| && slots[i].model == model && forall j :: 0 <= j < i ==> slots[j].model != model
  }

  /** s is the first slot reported for its model; without one the state is unknown and nothing is running. */
  ghost predicate Reports(p: Provider, s: Slot) {
    || (p.capacity.Some? && exists i :: FirstAt(p.capacity.value.slots, s.model, i) && p.capacity.value.slots[i] == s)
    || (&& (p.capacity.Some? ==> forall t :: t in p.capacity.value.slots ==> t.model != s.model)
        && s == Slot(s.model, UnknownState, 0, 0, 0))
  }

  lemma {:induction false} FirstSlotAt(slots: seq<Slot>, model: Model, i: int)
    requires FirstAt(slots, model, i)
    ensures FirstSlot(slots, model) == Some(slots[i])
  {
    if i > 0 {
      assert slots[0].model != model && slots[1..][i - 1] == slots[i];
      FirstSlotAt(slots[1..], model, i - 1);
    }
  }

  lemma ReportedIsSlot(p: Provider, s: Slot)
    requires Reports(p, s)
    ensures if SlotFor(p, s.model).Some? then SlotFor(p, s.model).value == s
            else s == Slot(s.model, UnknownState, 0, 0, 0)
  {
    if p.capacity.Some? && exists i :: FirstAt(p.capacity.value.slots, s.model, i) && p.capacity.value.slots[i] == s {
      var i :| FirstAt(p.capacity.value.slots, s.model, i) && p.capacity.value.slots[i] == s;
      FirstSlotAt(p.capacity.value.slots, s.model, i);
    } else if SlotFor(p, s.model).Some? {
      assert false;
    }
  }

  // ----- the price list ------------------------------------------------------------------------

  /** The benchmarked decode speed, else the root of the memory bandwidth, else one token per second. */
  ghost predicate Benchmarked(p: Provider, v: real) {
    && (p.decodeTPS > 0.0 ==> v == p.decodeTPS)
    && (p.decodeTPS <= 0.0 && p.rootBandwidth > 0.0 ==> v == p.rootBandwidth)
    && (p.decodeTPS <= 0.0 && p.rootBandwidth <= 0.0 ==> v == 1.0)
  }

  /** What is left of a speed while r requests share it: each costs it 27 per cent, but it stays at 1 or above. */
  ghost predicate Shared(v: real, r: int, tps: real) {
    && tps > 0.0
    && (r == 0 ==> tps == v)
    && (r > 0 ==>
          && tps >= 1.0 && tps * (1.0 + 0.27 * r as real) >= v
          && (tps > 1.0 ==> tps * (1.0 + 0.27 * r as real) == v))
  }

  /** The tokens the request may generate, and its prompt. */
  function Wanted(pr: Pending): int { if pr.maxTokens > 0 then pr.maxTokens else 256 }

  function Prompt(pr: Pending): int { if pr.promptTokens > 0 then pr.promptTokens else 0 }

  /** The time ahead of the request, and the time it takes itself. */
  ghost predicate TimesPriced(p: Provider, s: Slot, pr: Pending, v: real, tps: real, c: Candidate) {
    && c.backlogMs * tps
       == Max(PendingTokens(p, s.model) as real, (s.potential + s.waiting * Wanted(pr)) as real) * 1000.0
    && var prefill := if p.prefillTPS > 0.0 then p.prefillTPS else 4.0 * v;
       prefill > 0.0 && (c.thisReqMs - Prompt(pr) as real / prefill * 1000.0) * tps == Wanted(pr) as real * 1000.0
  }

  /** The penalties for what is queued, running or pending. */
  ghost predicate LoadPriced(p: Provider, s: Slot, c: Candidate) {
    && c.totalPending == |p.pending| && c.pendingMs == 750.0 * |p.pending| as real
    && c.effectiveQueue == (if s.running + s.waiting > |PendingFor(p, s.model)| then s.running + s.waiting
                            else |PendingFor(p, s.model)|)
    && c.queueMs == 3000.0 * c.effectiveQueue as real
  }

  ghost predicate StatePriced(s: Slot, c: Candidate) {
    && (s.state == Blank || s.state == Running ==> c.stateMs == 0.0)
    && (s.state == UnknownState || s.state == OtherState ==> c.stateMs == 2500.0)
    && (s.state == IdleShutdown ==> c.stateMs == 20000.0)
  }

  /** The share of a total that is in use. */
  ghost predicate Share(active: real, total: real, u: real) {
    && 0.0 <= u <= 1.0
    && (total <= 0.0 || active <= 0.0 ==> u == 0.0)
    && (total > 0.0 && active >= total ==> u == 1.0)
    && (total > 0.0 && 0.0 <= active <= total ==> u * total == active)
  }

  ghost predicate Utilised(p: Provider, u: real) {
    Share(if p.capacity.Some? then p.capacity.value.gpuActiveGB else 0.0, Memory(p), u)
  }

  /** The reported memory where there is one, else the registered. */
  function Memory(p: Provider): real {
    if p.capacity.None? || p.capacity.value.totalMemoryGB <= 0.0 then p.memoryGB as real
    else p.capacity.value.totalMemoryGB
  }

  ghost predicate HealthPriced(p: Provider, u: real, c: Candidate) {
    var hot := if p.metrics.thermal == Fair then 2000.0 else if p.metrics.thermal == Serious then 8000.0 else 0.0;
    c.healthMs == 4000.0 * p.metrics.memoryPressure + 1500.0 * p.metrics.cpuUsage + hot + 5000.0 * u
  }

  ghost predicate Priced(p: Provider, s: Slot, pr: Pending, v: real, tps: real, u: real, c: Candidate) {
    && c.provider == p.id
    && c.costMs == c.stateMs + c.queueMs + c.pendingMs + c.backlogMs + c.thisReqMs + c.healthMs
    && TimesPriced(p, s, pr, v, tps, c) && LoadPriced(p, s, c) && StatePriced(s, c) && HealthPriced(p, u, c)
  }

  // ----- the scheduler charges by it ------------------------------------------------------------

  /** The int expressions that the price of the request on the provider goes through are in range. */
  ghost predicate InRange(p: Provider, s: Slot, pr: Pending) {
    && Reported(p) && ReportedSlot(s) && Wanted(pr) <= INT64_MAX
    && s.running + s.waiting <= INT64_MAX && s.waiting * Wanted(pr) <= INT64_MAX
    && PendingTokens(p, s.model) <= INT64_MAX
  }

  lemma SharedSpeed(v: real, r: int)
    requires v > 0.0 && r >= 0
    ensures Shared(v, r, EffectiveTPS(v, r))
  {
    if r > 0 {
      var d := 1.0 + 0.27 * r as real;
      assert d > 1.0 && (v / d) * d == v;
      if v / d < 1.0 {
        assert v <= d;
      }
    }
  }

  lemma SnapshotSays(policy: Policy, p: Provider, s: Slot)
    requires Reports(p, s)
    ensures var snap := SnapshotOf(policy, p, s.model);
      && snap.provider == p.id && snap.slotState == s.state
      && snap.running == s.running && snap.waiting == s.waiting && snap.potential == s.potential
      && snap.totalPending == |p.pending| && snap.pendingForModel == |PendingFor(p, s.model)|
      && Benchmarked(p, snap.decodeTPS) && snap.decodeTPS > 0.0
      && snap.prefillTPS == (if p.prefillTPS > 0.0 then p.prefillTPS else 4.0 * snap.decodeTPS)
      && snap.metrics == p.metrics && snap.totalMemoryGB == Memory(p)
      && snap.gpuActiveGB == (if p.capacity.Some? then p.capacity.value.gpuActiveGB else 0.0)
  {
    ReportedIsSlot(p, s);
    hide Wrap64, PendingTokens, PendingFor, SlotFor, Reports;
  }

  lemma Ratio(x: real, y: real)
    requires y > 0.0
    ensures x / y * y == x
    ensures x <= 0.0 <==> x / y <= 0.0
    ensures x >= y <==> x / y >= 1.0
  {
    assert (x / y - 1.0) * y == x - y;
  }

  lemma HealthIs(m: Metrics, active: real, total: real) returns (u: real)
    ensures Share(active, total, u)
    ensures var hot := if m.thermal == Fair then 2000.0 else if m.thermal == Serious then 8000.0 else 0.0;
      HealthMs(m, active, total) == 4000.0 * m.memoryPressure + 1500.0 * m.cpuUsage + hot + 5000.0 * u
  {
    if total > 0.0 {
      var q := active / total;
      Ratio(active, total);
      u := if q < 0.0 then 0.0 else if q > 1.0 then 1.0 else q;
    } else {
      u := 0.0;
    }
  }

  lemma Quotient(x: real, tps: real)
    requires tps > 0.0
    ensures x / tps * 1000.0 * tps == x * 1000.0
  {
    assert x / tps * tps == x;
  }

  /** What the candidate takes from the snapshot. */
  lemma CandidateParts(policy: Policy, p: Provider, model: Model, pr: Pending)
    ensures var snap, c := SnapshotOf(policy, p, model), CandidateOf(policy, p, model, pr);
      var tps := EffectiveTPS(snap.decodeTPS, snap.running);
      && snap.prefillTPS > 0.0
      && c.backlogMs == BacklogTokens(snap, Wanted(pr)) / tps * 1000.0
      && c.thisReqMs == Prompt(pr) as real / snap.prefillTPS * 1000.0 + Wanted(pr) as real / tps * 1000.0
      && c.healthMs == HealthMs(snap.metrics, snap.gpuActiveGB, snap.totalMemoryGB)
      && c.totalPending == snap.totalPending && c.pendingMs == 750.0 * snap.totalPending as real
      && c.effectiveQueue == EffectiveQueue(snap) && c.queueMs == 3000.0 * c.effectiveQueue as real
      && c.stateMs == (if SlotPenalty(snap.slotState).Some? then SlotPenalty(snap.slotState).value else 0.0)
      && c.costMs == c.stateMs + c.queueMs + c.pendingMs + c.backlogMs + c.thisReqMs + c.healthMs
  {
    assert SnapshotOf(policy, p, model).prefillTPS > 0.0;
    hide SnapshotOf, EffectiveTPS, BacklogTokens, HealthMs, EffectiveQueue, SlotPenalty;
  }

  lemma TimesQuoted(policy: Policy, p: Provider, s: Slot, pr: Pending)
    requires Reports(p, s) && InRange(p, s, pr)
    ensures var snap, c := SnapshotOf(policy, p, s.model), CandidateOf(policy, p, s.model, pr);
      TimesPriced(p, s, pr, snap.decodeTPS, EffectiveTPS(snap.decodeTPS, s.running), c)
  {
    hide SnapshotOf, CandidateOf, BacklogTokens, EffectiveTPS, PendingTokens, Reports, Built, Reported, Wanted, Prompt,
      Benchmarked;
    var snap := SnapshotOf(policy, p, s.model);
    WantedIsPositive(pr);
    SnapshotSays(policy, p, s);
    SnapshotBuilt(policy, p, s.model);
    BacklogIsMaximum(snap, PendingTokens(p, s.model), Wanted(pr));
    CandidateParts(policy, p, s.model, pr);
    var tps := EffectiveTPS(snap.decodeTPS, s.running);
    Quotient(BacklogTokens(snap, Wanted(pr)), tps);
    Quotient(Wanted(pr) as real, tps);
  }

  lemma WantedIsPositive(pr: Pending)
    ensures Wanted(pr) > 0
  {
  }

  lemma LoadQuoted(policy: Policy, p: Provider, s: Slot, pr: Pending)
    requires Reports(p, s) && InRange(p, s, pr) && s.state != Reloading && s.state != Crashed
    ensures LoadPriced(p, s, CandidateOf(policy, p, s.model, pr)) && StatePriced(s, CandidateOf(policy, p, s.model, pr))
  {
    hide SnapshotOf, CandidateOf, PendingTokens, Reports, Reported, PendingFor, Wanted, Wrap64, Benchmarked;
    SnapshotSays(policy, p, s);
    CandidateParts(policy, p, s.model, pr);
  }

  lemma HealthQuoted(policy: Policy, p: Provider, s: Slot, pr: Pending) returns (u: real)
    requires Reports(p, s)
    ensures Utilised(p, u) && HealthPriced(p, u, CandidateOf(policy, p, s.model, pr))
  {
    hide SnapshotOf, CandidateOf, HealthMs, Reports, Memory, Share, Benchmarked, EffectiveTPS, BacklogTokens;
    SnapshotSays(policy, p, s);
    CandidateParts(policy, p, s.model, pr);
    var snap := SnapshotOf(policy, p, s.model);
    u := HealthIs(p.metrics, snap.gpuActiveGB, snap.totalMemoryGB);
  }

  /**
   * The candidate of a provider is priced by the list, for every provider and request whose int
   * expressions are in range.
   */
  lemma Quote(policy: Policy, p: Provider, s: Slot, pr: Pending) returns (v: real, tps: real, u: real)
    requires Reports(p, s) && InRange(p, s, pr) && s.state != Reloading && s.state != Crashed
    ensures Benchmarked(p, v) && Shared(v, s.running, tps) && Utilised(p, u)
    ensures Priced(p, s, pr, v, tps, u, CandidateOf(policy, p, s.model, pr))
  {
    InRangeSlot(p, s, pr);
    hide SnapshotOf, CandidateOf, EffectiveTPS, Reports, InRange, Shared, TimesPriced, LoadPriced, StatePriced,
      HealthPriced, Utilised, Benchmarked;
    var snap := SnapshotOf(policy, p, s.model);
    SnapshotSays(policy, p, s);
    v, tps := snap.decodeTPS, EffectiveTPS(snap.decodeTPS, s.running);
    SharedSpeed(v, s.running);
    u := HealthQuoted(policy, p, s, pr);
    TimesQuoted(policy, p, s, pr);
    LoadQuoted(policy, p, s, pr);
    CandidateParts(policy, p, s.model, pr);
  }

  lemma InRangeSlot(p: Provider, s: Slot, pr: Pending)
    requires InRange(p, s, pr)
    ensures s.running >= 0 && s.waiting >= 0
  {
  }

  // ----- what a report does to the price ----------------------------------------------------------

  lemma SharedUnique(v: real, r: int, x: real, y: real)
    requires Shared(v, r, x) && Shared(v, r, y) && r >= 0
    ensures x == y
  {
    if r > 0 {
      var d := 1.0 + 0.27 * r as real;
      assert (x - y) * d == x * d - y * d;
      if x > y {
        Times(x - y, d);
      } else if x < y {
        Times(y - x, d);
      }
    }
  }

  lemma Times(x: real, y: real)
    requires x > 0.0 && y > 0.0
    ensures x * y > 0.0
  {
  }

  lemma Cancel(x: real, y: real, z: real)
    requires z > 0.0
    ensures x * z <= y * z ==> x <= y
    ensures x * z == y * z ==> x == y
  {
    if x > y {
      Times(x - y, z);
    } else if x < y {
      Times(y - x, z);
    }
    assert (x - y) * z == x * z - y * z;
  }

  lemma BenchmarkedUnique(p: Provider, q: Provider, x: real, y: real)
    requires Benchmarked(p, x) && Benchmarked(q, y) && p.decodeTPS == q.decodeTPS && p.rootBandwidth == q.rootBandwidth
    ensures x == y
  {
  }

  lemma PendingAlike(p: Provider, q: Provider, model: Model)
    requires p.pending == q.pending
    ensures PendingTokens(p, model) == PendingTokens(q, model)
  {
    assert PendingFor(p, model) == PendingFor(q, model);
  }

  lemma PricedTimes(p: Provider, s: Slot, pr: Pending, v: real, tps: real, u: real, c: Candidate)
    requires Priced(p, s, pr, v, tps, u, c)
    ensures TimesPriced(p, s, pr, v, tps, c)
  {
  }

  /** Running requests slow a provider down; they add no tokens to its backlog. */
  lemma RunningIsNotBacklog(policy: Policy, p: Provider, s: Slot, q: Provider, t: Slot, pr: Pending)
      returns (v: real, tps: real, slower: real)
    requires q == p.(capacity := q.capacity) && t == s.(running := t.running)
    requires Reports(p, s) && Reports(q, t) && InRange(p, s, pr) && InRange(q, t, pr)
    requires s.state != Reloading && s.state != Crashed
    ensures Benchmarked(p, v) && Shared(v, s.running, tps) && Shared(v, t.running, slower)
    ensures var a, b := CandidateOf(policy, p, s.model, pr), CandidateOf(policy, q, s.model, pr);
      a.backlogMs * tps == b.backlogMs * slower
  {
    hide CandidateOf, Reports, InRange, Shared, PendingTokens, Priced, Utilised, Benchmarked;
    PendingAlike(p, q, s.model);
    var a, b, w, u, x;
    v, a, u := Quote(policy, p, s, pr);
    w, b, x := Quote(policy, q, t, pr);
    BenchmarkedUnique(p, q, v, w);
    PricedTimes(p, s, pr, v, a, u, CandidateOf(policy, p, s.model, pr));
    PricedTimes(q, t, pr, w, b, x, CandidateOf(policy, q, s.model, pr));
    tps, slower := a, b;
  }

  lemma MoreAhead(p: Provider, s: Slot, q: Provider, t: Slot, pr: Pending, v: real, tps: real, a: Candidate,
                  b: Candidate)
    requires TimesPriced(p, s, pr, v, tps, a) && TimesPriced(q, t, pr, v, tps, b) && tps > 0.0
    requires p.prefillTPS == q.prefillTPS && PendingTokens(p, s.model) == PendingTokens(q, t.model)
    requires s.potential == t.potential && 0 <= s.waiting <= t.waiting
    ensures a.thisReqMs == b.thisReqMs && a.backlogMs <= b.backlogMs
  {
    hide PendingTokens;
    WantedIsPositive(pr);
    ProductMonotone(s.waiting, t.waiting, Wanted(pr), Wanted(pr));
    hide Wanted, Prompt;
    var prefill := if p.prefillTPS > 0.0 then p.prefillTPS else 4.0 * v;
    var prompt := Prompt(pr) as real / prefill * 1000.0;
    Cancel(a.thisReqMs - prompt, b.thisReqMs - prompt, tps);
    Cancel(a.backlogMs, b.backlogMs, tps);
  }

  /** Waiting requests lengthen the backlog; the request itself takes as long as before. */
  lemma WaitingIsNotSpeed(policy: Policy, p: Provider, s: Slot, q: Provider, t: Slot, pr: Pending)
    requires q == p.(capacity := q.capacity) && t == s.(waiting := t.waiting) && s.waiting <= t.waiting
    requires Reports(p, s) && Reports(q, t) && InRange(p, s, pr) && InRange(q, t, pr)
    requires s.state != Reloading && s.state != Crashed
    ensures var a, b := CandidateOf(policy, p, s.model, pr), CandidateOf(policy, q, s.model, pr);
      a.thisReqMs == b.thisReqMs && a.backlogMs <= b.backlogMs
  {
    hide CandidateOf, Reports, InRange, Shared, PendingTokens, Priced, Utilised, Benchmarked, TimesPriced;
    PendingAlike(p, q, s.model);
    InRangeSlot(p, s, pr);
    var a, b := CandidateOf(policy, p, s.model, pr), CandidateOf(policy, q, s.model, pr);
    var v, tps, u := Quote(policy, p, s, pr);
    var w, same, x := Quote(policy, q, t, pr);
    BenchmarkedUnique(p, q, v, w);
    SharedUnique(v, s.running, tps, same);
    PricedTimes(p, s, pr, v, tps, u, a);
    PricedTimes(q, t, pr, v, tps, x, b);
    SharedPositive(v, s.running, tps);
    MoreAhead(p, s, q, t, pr, v, tps, a, b);
  }

  lemma SharedPositive(v: real, r: int, tps: real)
    requires Shared(v, r, tps)
    ensures tps > 0.0
  {
  }

  // ----- messages -----------------------------------------------------------------------------------

  /** v, or the nearest bound when it is out of bounds. */
  ghost predicate Nearest(v: real, max: real, r: real) {
    && 0.0 <= r <= max
    && (0.0 <= v <= max ==> r == v) && (v < 0.0 ==> r == 0.0) && (v > max ==> r == max)
  }

  /** A reported slot with negative counters read as zero and at most a million potential tokens. */
  ghost predicate Cleaned(t: Slot, s: Slot) {
    && s == t.(running := s.running, waiting := s.waiting, potential := s.potential)
    && s.running == (if t.running < 0 then 0 else t.running)
    && s.waiting == (if t.waiting < 0 then 0 else t.waiting)
    && s.potential == (if t.potential < 0 then 0 else if t.potential > 1_000_000 then 1_000_000 else t.potential)
  }

  /** The first slot of the message for the model, cleaned, is what the provider reports from then on. */
  lemma HeartbeatSlot(p: Provider, msg: HeartbeatMessage, model: Model, i: int, s: Slot)
    requires msg.capacity.Some? && FirstAt(msg.capacity.value.slots, model, i)
    requires Cleaned(msg.capacity.value.slots[i], s)
    ensures Reports(Heartbeaten(p, msg), s)
  {
    var before, after := msg.capacity.value.slots, Heartbeaten(p, msg).capacity.value.slots;
    assert |after| == |before| && forall j :: 0 <= j < |before| ==> after[j] == ClampSlot(before[j]);
    hide Heartbeaten;
    assert FirstAt(after, model, i) && after[i] == s;
  }

  /** A heartbeat without capacity leaves the reports as they were; one that omits the model resets them. */
  lemma HeartbeatSilent(p: Provider, msg: HeartbeatMessage, s: Slot)
    ensures msg.capacity.None? ==> (Reports(Heartbeaten(p, msg), s) <==> Reports(p, s))
    ensures msg.capacity.Some? && (forall t :: t in msg.capacity.value.slots ==> t.model != s.model) ==>
      Reports(Heartbeaten(p, msg), Slot(s.model, UnknownState, 0, 0, 0))
  {
    if msg.capacity.Some? && (forall t :: t in msg.capacity.value.slots ==> t.model != s.model) {
      var before, after := msg.capacity.value.slots, Heartbeaten(p, msg).capacity.value.slots;
      forall t | t in after ensures t.model != s.model {
        var j :| 0 <= j < |after| && after[j] == t;
        assert before[j] in before;
      }
    }
  }

  /**
   * A heartbeat's metrics and memory figures are taken over, and its status only where it may be:
   * an idle report brings any trusted provider online, a serving one does not disturb a serving one,
   * and nothing revives an untrusted one. All else stays.
   */
  lemma HeartbeatTaken(p: Provider, msg: HeartbeatMessage)
    ensures var q, m := Heartbeaten(p, msg), msg.metrics;
      && q == p.(metrics := q.metrics, capacity := q.capacity, status := q.status)
      && q.metrics.thermal == m.thermal
      && Nearest(m.memoryPressure, 1.0, q.metrics.memoryPressure) && Nearest(m.cpuUsage, 1.0, q.metrics.cpuUsage)
      && (msg.capacity.Some? ==>
            && q.capacity.Some?
            && Nearest(msg.capacity.value.gpuActiveGB, 1024.0, q.capacity.value.gpuActiveGB)
            && Nearest(msg.capacity.value.totalMemoryGB, 1024.0, q.capacity.value.totalMemoryGB))
    ensures var q := Heartbeaten(p, msg);
      && (p.status == Untrusted ==> q.status == Untrusted)
      && (p.status != Untrusted && msg.status == HeartbeatIdle ==> q.status == Online)
      && (p.status != Untrusted && msg.status == HeartbeatServing ==> q.status == Serving)
      && (msg.status == HeartbeatOther ==> q.status == p.status)
  {
  }

  /** A new provider is what its registration says, within bounds; nothing is known of its health or slots yet. */
  lemma RegisteredAs(id: Id, models: seq<Model>, msg: RegisterMessage, model: Model)
    ensures var p := NewProvider(id, models, msg);
      && p.id == id && p.models == models && p.pending == map[] && p.status == Online && p.trust == NoTrust
      && p.backend == msg.backend && p.encryptedChunks == msg.encryptedChunks && p.capabilities == msg.capabilities
      && p.publicKey == (if msg.publicKeyValid then msg.publicKey else "")
      && p.rootBandwidth == msg.rootBandwidth
      && Nearest(msg.decodeTPS, 500.0, p.decodeTPS) && Nearest(msg.prefillTPS, 5000.0, p.prefillTPS)
      && Nearest(msg.memoryGB as real, 1024.0, p.memoryGB as real)
      && Reports(p, Slot(model, UnknownState, 0, 0, 0))
      && p.attestedSerial == None && p.mdaSerial == None && !p.sipVerified && p.lastChallenge == None
  {
  }

  // ----- an example -----------------------------------------------------------------------------------

  /** Eight running and no waiting request on a fast provider. */
  const BUSY := Slot("m", Running, 8, 0, 0)

  const FAST := PLAIN.(id := "a", capacity := Some(Capacity([BUSY], 0.0, 0.0)))

  const SLOW := PLAIN.(id := "b", decodeTPS := 7.0)

  lemma NothingPending(p: Provider, model: Model)
    requires p.pending == map[]
    ensures PendingFor(p, model) == {} && PendingTokens(p, model) == 0
  {
  }

  /** Backlog and request together are the time for so many tokens at this speed. */
  ghost predicate Takes(c: Candidate, tps: real, tokens: int) {
    (c.backlogMs + c.thisReqMs) * tps == 1000.0 * tokens as real
  }

  lemma HealthyTimes(p: Provider, s: Slot, pr: Pending, v: real, tps: real, c: Candidate)
    requires TimesPriced(p, s, pr, v, tps, c) && ReportedSlot(s) && p.pending == map[] && pr.promptTokens == 0
    ensures Takes(c, tps, s.potential + s.waiting * Wanted(pr) + Wanted(pr))
  {
    NothingPending(p, s.model);
    WantedIsPositive(pr);
    ProductMonotone(0, s.waiting, 0, Wanted(pr));
    hide PendingFor, PendingTokens, Wanted;
  }

  lemma HealthyLoad(p: Provider, s: Slot, c: Candidate)
    requires LoadPriced(p, s, c) && ReportedSlot(s) && p.pending == map[]
    ensures c.queueMs + c.pendingMs == 3000.0 * (s.running + s.waiting) as real
  {
    NothingPending(p, s.model);
    hide PendingFor, PendingTokens;
  }

  /** The price of a promptless request on a healthy provider with nothing pending. */
  lemma HealthyQuote(policy: Policy, p: Provider, s: Slot, pr: Pending) returns (v: real, tps: real)
    requires Reports(p, s) && InRange(p, s, pr) && s.state != Reloading && s.state != Crashed
    requires p.pending == map[] && p.metrics == Metrics(0.0, 0.0, Nominal) && pr.promptTokens == 0
    requires p.capacity.Some? ==> p.capacity.value.gpuActiveGB == 0.0
    ensures Benchmarked(p, v) && Shared(v, s.running, tps)
    ensures var c := CandidateOf(policy, p, s.model, pr);
      && StatePriced(s, c)
      && c.costMs == c.stateMs + 3000.0 * (s.running + s.waiting) as real + (c.backlogMs + c.thisReqMs)
      && Takes(c, tps, s.potential + s.waiting * Wanted(pr) + Wanted(pr))
  {
    InRangeReported(p, s, pr);
    hide CandidateOf, Reports, InRange, TimesPriced, LoadPriced, StatePriced, Benchmarked, Shared, Wanted, Utilised,
      ReportedSlot, HealthPriced, Takes;
    var u;
    v, tps, u := Quote(policy, p, s, pr);
    var c := CandidateOf(policy, p, s.model, pr);
    HealthyTimes(p, s, pr, v, tps, c);
    HealthyLoad(p, s, c);
    Healthy(p, u, c);
  }

  lemma InRangeReported(p: Provider, s: Slot, pr: Pending)
    requires InRange(p, s, pr)
    ensures ReportedSlot(s)
  {
  }

  lemma Healthy(p: Provider, u: real, c: Candidate)
    requires Utilised(p, u) && HealthPriced(p, u, c) && p.metrics == Metrics(0.0, 0.0, Nominal)
    requires p.capacity.Some? ==> p.capacity.value.gpuActiveGB == 0.0
    ensures c.healthMs == 0.0
  {
  }

  lemma FastReports()
    ensures Reports(FAST, BUSY) && InRange(FAST, BUSY, Asking("r", 256))
  {
    assert FirstAt(FAST.capacity.value.slots, "m", 0);
    NothingPending(FAST, "m");
    hide PendingTokens;
  }

  lemma FastPrice()
    ensures 32089.0 < CandidateOf(TRUSTING, FAST, "m", Asking("r", 256)).costMs < 32090.0
  {
    hide CandidateOf, Reports, InRange, Takes;
    FastReports();
    var v, tps := HealthyQuote(TRUSTING, FAST, BUSY, Asking("r", 256));
    EightShare(tps);
    hide Shared, Benchmarked;
    var c := CandidateOf(TRUSTING, FAST, "m", Asking("r", 256));
    Solved(c, tps);
  }

  lemma EightShare(tps: real)
    requires Shared(100.0, 8, tps)
    ensures tps * 3.16 == 100.0 && tps > 0.0
  {
  }

  lemma Solved(c: Candidate, tps: real)
    requires Takes(c, tps, 256) && tps * 3.16 == 100.0
    ensures c.backlogMs + c.thisReqMs == 8089.6
  {
    var t := c.backlogMs + c.thisReqMs;
    assert t * (tps * 3.16) == (t * tps) * 3.16;
  }

  lemma SlowReports()
    ensures Reports(SLOW, Slot("m", UnknownState, 0, 0, 0))
    ensures InRange(SLOW, Slot("m", UnknownState, 0, 0, 0), Asking("r", 256))
  {
    NothingPending(SLOW, "m");
    hide PendingTokens;
  }

  lemma SlowPrice()
    ensures 39071.0 < CandidateOf(TRUSTING, SLOW, "m", Asking("r", 256)).costMs < 39072.0
  {
    hide CandidateOf, Reports, InRange, Takes;
    SlowReports();
    var v, tps := HealthyQuote(TRUSTING, SLOW, Slot("m", UnknownState, 0, 0, 0), Asking("r", 256));
    assert tps == 7.0;
    SolvedAlone(CandidateOf(TRUSTING, SLOW, "m", Asking("r", 256)));
  }

  lemma SolvedAlone(c: Candidate)
    requires Takes(c, 7.0, 256)
    ensures 36571.0 < c.backlogMs + c.thisReqMs < 36572.0
  {
  }

  /** Shared by eight, 100 tokens per second are still worth more than 7: the fast provider, and only it, may serve. */
  lemma BusyBeatsSlow()
    ensures var pr, ps := Asking("r", 256), map["a" := FAST, "b" := SLOW];
      MayServe(TRUSTING, ps, 0, "m", pr, {}, "a") && !MayServe(TRUSTING, ps, 0, "m", pr, {}, "b")
  {
    var pr, ps := Asking("r", 256), map["a" := FAST, "b" := SLOW];
    FastPrice();
    SlowPrice();
    BothEligible();
    hide CandidateOf, Eligible;
    var a, b := CandidateOf(TRUSTING, FAST, "m", pr), CandidateOf(TRUSTING, SLOW, "m", pr);
    assert Choosable(TRUSTING, ps, 0, "m", pr, {}, "a") && Choosable(TRUSTING, ps, 0, "m", pr, {}, "b");
    assert Candidates(TRUSTING, ps, 0, "m", pr, {}) == {a, b};
  }

  lemma BothEligible()
    ensures Eligible(TRUSTING, FAST, 0, "m", Asking("r", 256)) && Eligible(TRUSTING, SLOW, 0, "m", Asking("r", 256))
  {
  }
}
