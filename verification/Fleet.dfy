/**
 * The provider fleet as the scheduler sees it: the gates a provider must pass
 * before it can be offered a request, and the cost of each provider that passes.
 * Times are milliseconds; float64 quantities are reals.
 */
module Fleet {
  import opened Options
  import opened Machine
  import opened Sums

  type Id = string
  type Model = string
  type ReqId = string

  datatype Status = Online | Serving | Offline | Untrusted

  datatype Trust = Hardware | SelfSigned | NoTrust | UnknownTrust

  datatype Backend = InprocessMLX | MLXSwift | OtherBackend

  datatype SlotState = Blank | Running | UnknownState | IdleShutdown | Reloading | Crashed | OtherState

  datatype Thermal = Nominal | Fair | Serious | Critical | OtherThermal

  datatype Capabilities = Capabilities(
    inprocess: bool, proxyDisabled: bool, pythonLocked: bool, modulesBlocked: bool,
    antiDebug: bool, coreDumpsDisabled: bool, envScrubbed: bool)

  datatype Slot = Slot(model: Model, state: SlotState, running: int, waiting: int, potential: int)

  datatype Capacity = Capacity(slots: seq<Slot>, gpuActiveGB: real, totalMemoryGB: real)

  datatype Metrics = Metrics(memoryPressure: real, cpuUsage: real, thermal: Thermal)

  /** An in-flight request, as far as routing reads it. */
  datatype Pending = Pending(
    id: ReqId, provider: Id, model: Model, promptTokens: int, maxTokens: int, allowedSerials: seq<string>)

  datatype Provider = Provider(
    id: Id,
    models: seq<Model>,
    status: Status,
    trust: Trust,
    runtimeVerified: bool,
    publicKey: string,
    backend: Backend,
    encryptedChunks: bool,
    manifestChecked: bool,
    sipVerified: bool,               // ChallengeVerifiedSIP
    capabilities: Option<Capabilities>,
    lastChallenge: Option<int>,      // LastChallengeVerified; None is the zero time
    failedChallenges: int,
    capacity: Option<Capacity>,
    memoryGB: int,
    rootBandwidth: real,             // math.Sqrt of the reported bandwidth, 0 when not reported
    decodeTPS: real,
    prefillTPS: real,
    metrics: Metrics,
    attestedSerial: Option<string>,
    mdaSerial: Option<string>,
    pending: map<ReqId, Pending>)

  datatype CatalogEntry = CatalogEntry(weightHash: string, sizeGB: real)

  /** Registry-wide routing policy: the trust floor and the model catalogue. */
  datatype Policy = Policy(minTrust: Trust, catalog: map<Model, CatalogEntry>)

  const DEFAULT_MAX_TOKENS := 256
  const DEFAULT_MAX_CONCURRENT := 4
  const CHALLENGE_MAX_AGE := 360_000
  const KV_BYTES_PER_TOKEN := 400_000
  const BYTES_PER_GB := 1_073_741_824
  const MAX_TOKENS_FOR_CALC := 16_777_216

  function TrustRank(t: Trust): int {
    match t
    case Hardware => 2
    case SelfSigned => 1
    case NoTrust => 0
    case UnknownTrust => -1
  }

  predicate Routable(s: Status) {
    s != Offline && s != Untrusted
  }

  function MaxConcurrency(p: Provider): (cap: nat)
    ensures 2 <= cap <= 12
  {
    match p.capacity
    case None => DEFAULT_MAX_CONCURRENT
    case Some(c) =>
      var memGB := if c.totalMemoryGB <= 0.0 then p.memoryGB as real else c.totalMemoryGB;
      if memGB <= 24.0 then 2
      else if memGB <= 48.0 then 4
      else if memGB <= 96.0 then 6
      else if memGB <= 128.0 then 8
      else 12
  }

  predicate SupportsPrivateText(p: Provider) {
    && p.publicKey != ""
    && (p.backend == InprocessMLX || p.backend == MLXSwift)
    && p.encryptedChunks
    && p.manifestChecked
    && p.sipVerified
    && p.capabilities.Some?
    && var c := p.capabilities.value;
       && c.inprocess && c.proxyDisabled && c.antiDebug && c.coreDumpsDisabled && c.envScrubbed
       && (p.backend == MLXSwift || (c.pythonLocked && c.modulesBlocked))
  }

  predicate ChallengeFresh(p: Provider, now: int) {
    p.lastChallenge.Some? && now - p.lastChallenge.value <= CHALLENGE_MAX_AGE
  }

  /** The first slot reported for a model; later duplicates are ignored. */
  function FirstSlot(slots: seq<Slot>, model: Model): (s: Option<Slot>)
    ensures s.Some? ==> s.value in slots && s.value.model == model
    ensures s.None? ==> forall t :: t in slots ==> t.model != model
  {
    if slots == [] then None
    else if slots[0].model == model then Some(slots[0])
    else FirstSlot(slots[1..], model)
  }

  function SlotFor(p: Provider, model: Model): Option<Slot> {
    if p.capacity.None? then None else FirstSlot(p.capacity.value.slots, model)
  }

  /** providerCanAdmitLocked: the recheck made under the provider's own lock. */
  predicate CanAdmit(policy: Policy, p: Provider, now: int, model: Model) {
    && Routable(p.status)
    && TrustRank(p.trust) >= TrustRank(policy.minTrust)
    && p.runtimeVerified
    && SupportsPrivateText(p)
    && ChallengeFresh(p, now)
    && model in p.models
    && |p.pending| < MaxConcurrency(p)
    && (SlotFor(p, model).Some? ==>
          SlotFor(p, model).value.state != Crashed && SlotFor(p, model).value.state != Reloading)
  }

  // ----- routing snapshots ---------------------------------------------------

  datatype Snapshot = Snapshot(
    provider: Id,
    slotState: SlotState,
    totalPending: int,
    pendingForModel: int,
    pendingMaxTokens: int,
    running: int,
    waiting: int,
    potential: int,
    decodeTPS: real,
    prefillTPS: real,
    metrics: Metrics,
    gpuActiveGB: real,
    totalMemoryGB: real,
    modelSizeGB: real,
    modelLoaded: bool)

  function TokensOrDefault(n: int): (r: int)
    ensures 0 < r
    ensures 0 < n ==> r == n
  {
    if n <= 0 then DEFAULT_MAX_TOKENS else n
  }

  ghost function PendingFor(p: Provider, model: Model): set<ReqId> {
    set r | r in p.pending && p.pending[r].model == model
  }

  ghost function PendingTokens(p: Provider, model: Model): int {
    SumOver(PendingFor(p, model), (r: ReqId) => if r in p.pending then TokensOrDefault(p.pending[r].maxTokens) else 0)
  }

  function ResolvedDecodeTPS(p: Provider): real {
    if p.decodeTPS > 0.0 then p.decodeTPS
    else if p.rootBandwidth > 0.0 then p.rootBandwidth
    else 1.0
  }

  function ResolvedPrefillTPS(p: Provider): (r: real)
    ensures r > 0.0
  {
    if p.prefillTPS > 0.0 then p.prefillTPS else ResolvedDecodeTPS(p) * 4.0
  }

  function CatalogSize(policy: Policy, model: Model): real {
    if model in policy.catalog then policy.catalog[model].sizeGB else 0.0
  }

  /** The gates of snapshotProviderLocked. */
  predicate SnapshotGate(policy: Policy, p: Provider, now: int, model: Model) {
    && model in p.models
    && Routable(p.status)
    && TrustRank(p.trust) >= TrustRank(policy.minTrust)
    && p.runtimeVerified
    && SupportsPrivateText(p)
    && ChallengeFresh(p, now)
    && |p.pending| < MaxConcurrency(p)
  }

  /** What snapshotProviderLocked captures once the gates are passed. */
  ghost function SnapshotOf(policy: Policy, p: Provider, model: Model): Snapshot {
    var slot := SlotFor(p, model);
    var slotState := if slot.Some? then slot.value.state else UnknownState;
    Snapshot(
      provider := p.id,
      slotState := slotState,
      totalPending := |p.pending|,
      pendingForModel := |PendingFor(p, model)|,
      pendingMaxTokens := Wrap64(PendingTokens(p, model)),
      running := if slot.Some? then slot.value.running else 0,
      waiting := if slot.Some? then slot.value.waiting else 0,
      potential := if slot.Some? then slot.value.potential else 0,
      decodeTPS := ResolvedDecodeTPS(p),
      prefillTPS := ResolvedPrefillTPS(p),
      metrics := p.metrics,
      gpuActiveGB := if p.capacity.Some? then p.capacity.value.gpuActiveGB else 0.0,
      totalMemoryGB := SnapshotMemory(p),
      modelSizeGB := CatalogSize(policy, model),
      modelLoaded := slotState == Running)
  }

  function SnapshotMemory(p: Provider): real {
    if p.capacity.Some? && p.capacity.value.totalMemoryGB > 0.0
    then p.capacity.value.totalMemoryGB
    else p.memoryGB as real
  }

  /** The loop over the provider's pending set, with its int sum. */
  method PendingLoad(p: Provider, model: Model) returns (count: int, maxTokens: int)
    ensures count == |PendingFor(p, model)| && maxTokens == Wrap64(PendingTokens(p, model))
  {
    hide Wrap64, TokensOrDefault;
    count, maxTokens := 0, 0;
    ghost var tokens := (r: ReqId) => if r in p.pending then TokensOrDefault(p.pending[r].maxTokens) else 0;
    var todo := p.pending.Keys;
    ghost var counted: set<ReqId> := {};
    ghost var sum := 0;
    while todo != {}
      invariant todo <= p.pending.Keys
      invariant counted == set r | r in p.pending && r !in todo && p.pending[r].model == model
      invariant count == |counted|
      invariant sum == SumOver(counted, tokens) && maxTokens == Wrap64(sum)
      decreases |todo|
    {
      var r :| r in todo;
      todo := todo - {r};
      if p.pending[r].model == model {
        var requested := TokensOrDefault(p.pending[r].maxTokens);
        SumInsert(counted, tokens, tokens, r);
        maxTokens := AddInt(maxTokens, requested, sum);
        sum := sum + requested;
        counted := counted + {r};
        count := count + 1;
      }
    }
    assert counted == PendingFor(p, model);
    SumCongruent(counted, tokens, (r: ReqId) => if r in p.pending then TokensOrDefault(p.pending[r].maxTokens) else 0);
  }

  /** snapshotProviderLocked. */
  method TakeSnapshot(policy: Policy, p: Provider, now: int, model: Model) returns (snap: Option<Snapshot>)
    ensures snap == if SnapshotGate(policy, p, now, model) then Some(SnapshotOf(policy, p, model)) else None
  {
    if !SnapshotGate(policy, p, now, model) {
      return None;
    }
    var pendingForModel, pendingMaxTokens := PendingLoad(p, model);
    hide Wrap64, PendingTokens;
    var slot := SlotFor(p, model);
    var slotState := if slot.Some? then slot.value.state else UnknownState;
    snap := Some(Snapshot(
      p.id, slotState, |p.pending|, pendingForModel, pendingMaxTokens,
      if slot.Some? then slot.value.running else 0,
      if slot.Some? then slot.value.waiting else 0,
      if slot.Some? then slot.value.potential else 0,
      ResolvedDecodeTPS(p), ResolvedPrefillTPS(p), p.metrics,
      if p.capacity.Some? then p.capacity.value.gpuActiveGB else 0.0,
      SnapshotMemory(p), CatalogSize(policy, model), slotState == Running));
  }

  // ----- admission and cost --------------------------------------------------

  const QUEUE_DEPTH_PENALTY := 3000.0
  const TOTAL_PENDING_PENALTY := 750.0
  const MEMORY_PRESSURE_PENALTY := 4000.0
  const CPU_PENALTY := 1500.0
  const GPU_PENALTY := 5000.0
  const THERMAL_FAIR := 2000.0
  const THERMAL_SERIOUS := 8000.0
  const LOAD_FACTOR := 0.27

  predicate FreeMemoryAdmits(snap: Snapshot, prompt: int, maxTokens: int) {
    || snap.modelSizeGB <= 0.0
    || snap.totalMemoryGB <= 0.0
    || var weights := if snap.modelLoaded then 0.0 else snap.modelSizeGB;
       var sum := Wrap64(prompt + maxTokens);
       var tokens := if sum < 0 then 0 else if sum > MAX_TOKENS_FOR_CALC then MAX_TOKENS_FOR_CALC else sum;
       snap.totalMemoryGB - snap.gpuActiveGB
         >= weights + (tokens * KV_BYTES_PER_TOKEN) as real / BYTES_PER_GB as real
  }

  function SlotPenalty(s: SlotState): Option<real> {
    match s
    case Blank => Some(0.0)
    case Running => Some(0.0)
    case UnknownState => Some(2500.0)
    case IdleShutdown => Some(20000.0)
    case Reloading => None
    case Crashed => None
    case OtherState => Some(2500.0)
  }

  function EffectiveTPS(staticTPS: real, running: int): (tps: real)
    ensures tps > 0.0
  {
    if staticTPS <= 0.0 then 1.0
    else if running <= 0 then staticTPS
    else
      var tps := staticTPS / (1.0 + LOAD_FACTOR * running as real);
      if tps < 1.0 then 1.0 else tps
  }

  function BacklogTokens(snap: Snapshot, reqMax: int): real {
    var waiting := Wrap64(snap.waiting * reqMax) as real;
    var raw := snap.pendingMaxTokens as real - snap.potential as real - waiting;
    var unaccounted := if raw < 0.0 then 0.0 else raw;
    var total := snap.potential as real + waiting + unaccounted;
    if total < 0.0 then 0.0 else total
  }

  function HealthMs(m: Metrics, gpuActiveGB: real, totalMemoryGB: real): real {
    var base := m.memoryPressure * MEMORY_PRESSURE_PENALTY + m.cpuUsage * CPU_PENALTY;
    var thermal := match m.thermal
      case Fair => THERMAL_FAIR
      case Serious => THERMAL_SERIOUS
      case _ => 0.0;
    var gpu :=
      if totalMemoryGB > 0.0 then
        var util := gpuActiveGB / totalMemoryGB;
        (if util < 0.0 then 0.0 else if util > 1.0 then 1.0 else util) * GPU_PENALTY
      else 0.0;
    base + thermal + gpu
  }

  datatype Candidate = Candidate(
    provider: Id, costMs: real, effectiveQueue: int, totalPending: int,
    stateMs: real, queueMs: real, pendingMs: real, backlogMs: real, thisReqMs: real, healthMs: real)

  datatype Verdict = Accepted(candidate: Candidate) | Ineligible | OverCapacity

  function EffectiveQueue(snap: Snapshot): int {
    var depth := Wrap64(snap.running + snap.waiting);
    if depth > snap.pendingForModel then depth else snap.pendingForModel
  }

  function Cost(snap: Snapshot, statePenalty: real, prompt: int, reqMax: int): (c: Candidate)
    requires snap.prefillTPS > 0.0
    ensures c.costMs == c.stateMs + c.queueMs + c.pendingMs + c.backlogMs + c.thisReqMs + c.healthMs
  {
    var tps := EffectiveTPS(snap.decodeTPS, snap.running);
    var queueMs := EffectiveQueue(snap) as real * QUEUE_DEPTH_PENALTY;
    var pendingMs := snap.totalPending as real * TOTAL_PENDING_PENALTY;
    var backlogMs := BacklogTokens(snap, reqMax) / tps * 1000.0;
    var thisReqMs := prompt as real / snap.prefillTPS * 1000.0 + reqMax as real / tps * 1000.0;
    var healthMs := HealthMs(snap.metrics, snap.gpuActiveGB, snap.totalMemoryGB);
    Candidate(
      snap.provider, statePenalty + queueMs + pendingMs + backlogMs + thisReqMs + healthMs,
      EffectiveQueue(snap), snap.totalPending,
      statePenalty, queueMs, pendingMs, backlogMs, thisReqMs, healthMs)
  }

  /** buildCandidateWithReason. */
  function BuildCandidate(snap: Snapshot, pr: Pending): Verdict
    requires snap.prefillTPS > 0.0
  {
    var penalty := SlotPenalty(snap.slotState);
    if penalty.None? || snap.metrics.thermal == Critical then Ineligible
    else
      var reqMax := TokensOrDefault(pr.maxTokens);
      var prompt := if pr.promptTokens < 0 then 0 else pr.promptTokens;
      if !FreeMemoryAdmits(snap, prompt, reqMax) then OverCapacity
      else Accepted(Cost(snap, penalty.value, prompt, reqMax))
  }

  /** providerMatchesAllowedSerial, with the caller's rule that an empty list allows everyone. */
  predicate SerialAllowed(p: Provider, allowed: seq<string>) {
    || allowed == []
    || (p.attestedSerial.Some? && p.attestedSerial.value != "" && p.attestedSerial.value in allowed)
    || (p.mdaSerial.Some? && p.mdaSerial.value != "" && p.mdaSerial.value in allowed)
  }

  /** The provider gets as far as being a candidate for the request. */
  ghost predicate Eligible(policy: Policy, p: Provider, now: int, model: Model, pr: Pending) {
    && SerialAllowed(p, pr.allowedSerials)
    && SnapshotGate(policy, p, now, model)
    && BuildCandidate(SnapshotOf(policy, p, model), pr).Accepted?
  }

  /** The candidate an eligible provider yields. */
  ghost function CandidateOf(policy: Policy, p: Provider, model: Model, pr: Pending): (c: Candidate)
    ensures BuildCandidate(SnapshotOf(policy, p, model), pr).Accepted? ==>
              c == BuildCandidate(SnapshotOf(policy, p, model), pr).candidate
    ensures c.provider == p.id
  {
    var snap := SnapshotOf(policy, p, model);
    var penalty := SlotPenalty(snap.slotState);
    Cost(snap, if penalty.Some? then penalty.value else 0.0,
         if pr.promptTokens < 0 then 0 else pr.promptTokens, TokensOrDefault(pr.maxTokens))
  }

  /** The memory gate as a function of the provider alone: pending requests play no part in it. */
  predicate MemoryGate(policy: Policy, p: Provider, model: Model, pr: Pending) {
    var slot := SlotFor(p, model);
    FreeMemoryAdmits(
      Snapshot(p.id, UnknownState, 0, 0, 0, 0, 0, 0, 1.0, 1.0, p.metrics,
               if p.capacity.Some? then p.capacity.value.gpuActiveGB else 0.0,
               SnapshotMemory(p), CatalogSize(policy, model), slot.Some? && slot.value.state == Running),
      if pr.promptTokens < 0 then 0 else pr.promptTokens,
      TokensOrDefault(pr.maxTokens))
  }

  /** The two admission paths accept the same providers, up to the thermal and memory gates. */
  lemma GatesAgree(policy: Policy, p: Provider, now: int, model: Model, pr: Pending)
    ensures Eligible(policy, p, now, model, pr)
       <==> && SerialAllowed(p, pr.allowedSerials)
            && CanAdmit(policy, p, now, model)
            && p.metrics.thermal != Critical
            && MemoryGate(policy, p, model, pr)
  {
    var snap := SnapshotOf(policy, p, model);
    assert snap.modelLoaded == (SlotFor(p, model).Some? && SlotFor(p, model).value.state == Running);
  }

  // ----- load ----------------------------------------------------------------

  /** Whoever took a request on is serving, and whoever has none is not left serving by that; an outage stays one. */
  ghost predicate StatusFollows(p: Provider, q: Provider) {
    if !Routable(p.status) then q.status == p.status
    else if q.pending == map[] then q.status == p.status || q.status == Online
    else if q.pending == p.pending then q.status == p.status || q.status == Serving
    else q.status == Serving
  }

  /** q is p with, possibly, more pending requests and the serving status that goes with them. */
  ghost predicate LoadedProvider(p: Provider, q: Provider) {
    && q == p.(pending := q.pending, status := q.status)
    && StatusFollows(p, q)
    && p.pending.Keys <= q.pending.Keys
    && forall r :: r in p.pending ==> q.pending[r] == p.pending[r]
  }

  ghost predicate Loaded(a: map<Id, Provider>, b: map<Id, Provider>) {
    && a.Keys == b.Keys
    && forall id :: id in a ==> LoadedProvider(a[id], b[id])
  }

  lemma LoadedReflexive(a: map<Id, Provider>)
    ensures Loaded(a, a)
  {
  }

  /** The load of a provider grows from p to q to r; if r has no more than p, neither has q. */
  lemma SameLoad(p: Provider, q: Provider, r: Provider)
    requires LoadedProvider(p, q) && LoadedProvider(q, r)
    ensures r.pending == p.pending ==> q.pending == p.pending
    ensures r.pending == map[] ==> q.pending == map[] && p.pending == map[]
  {
    hide StatusFollows;
    if r.pending == p.pending {
      assert q.pending.Keys == p.pending.Keys;
    }
  }

  lemma LoadedProviderTransitive(p: Provider, q: Provider, r: Provider)
    requires LoadedProvider(p, q) && LoadedProvider(q, r)
    ensures LoadedProvider(p, r)
  {
    SameLoad(p, q, r);
  }

  lemma LoadedTransitive(a: map<Id, Provider>, b: map<Id, Provider>, c: map<Id, Provider>)
    requires Loaded(a, b) && Loaded(b, c)
    ensures Loaded(a, c)
  {
    hide LoadedProvider;
    forall id | id in a ensures LoadedProvider(a[id], c[id]) {
      assert LoadedProvider(a[id], b[id]) && LoadedProvider(b[id], c[id]);
      LoadedProviderTransitive(a[id], b[id], c[id]);
    }
  }

  /** Adding pending entries to a provider never makes it eligible for any request. */
  lemma LoadNeverHelps(policy: Policy, p: Provider, q: Provider, now: int, model: Model, pr: Pending)
    requires LoadedProvider(p, q)
    requires Eligible(policy, q, now, model, pr)
    ensures Eligible(policy, p, now, model, pr)
  {
    GatesAgree(policy, p, now, model, pr);
    GatesAgree(policy, q, now, model, pr);
    SubsetCardinality(p.pending.Keys, q.pending.Keys);
    assert |p.pending| == |p.pending.Keys| && |q.pending| == |q.pending.Keys|;
  }
}
