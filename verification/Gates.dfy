/** Who may be offered a request: every ground for passing a provider over, and no others. */
module Gates {
  import opened Options
  import opened Machine
  import opened Fleet
  import opened Draining
  import opened Protocol
  import opened RoutingLaws
  import opened Quotes

  // ----- concurrency ---------------------------------------------------------------------------

  /** How many requests a provider takes at once, by its memory in GB. */
  ghost predicate Tier(memory: real, cap: int) {
    && (memory <= 24.0 <==> cap == 2)
    && (24.0 < memory <= 48.0 <==> cap == 4)
    && (48.0 < memory <= 96.0 <==> cap == 6)
    && (96.0 < memory <= 128.0 <==> cap == 8)
    && (memory > 128.0 <==> cap == 12)
  }

  /** The limit is the tier of the memory, reported or else registered; without any report it is 4. */
  lemma ConcurrencyTiers(p: Provider)
    ensures p.capacity.None? ==> MaxConcurrency(p) == 4
    ensures p.capacity.Some? ==> Tier(Memory(p), MaxConcurrency(p))
  {
  }

  /** More memory never lowers the limit. */
  lemma MemoryRaisesLimit(p: Provider, q: Provider)
    requires p.capacity.Some? && q.capacity.Some? && Memory(p) <= Memory(q)
    ensures MaxConcurrency(p) <= MaxConcurrency(q)
  {
    ConcurrencyTiers(p);
    ConcurrencyTiers(q);
  }

  // ----- the grounds ------------------------------------------------------------------------------

  datatype Bar =
    | ForeignSerial | OtherModels | Disconnected | LittleTrust | RuntimeUnverified
    | NoKey | ForeignBackend | PlainChunks | ManifestUnchecked | SipUnverified | Unprotected
    | NeverChallenged | ChallengeTooOld | Full | SlotDown | TooHot | NoMemory

  ghost predicate TrustedLess(trust: Trust, floor: Trust) {
    match floor
    case Hardware => trust != Hardware
    case SelfSigned => trust != Hardware && trust != SelfSigned
    case NoTrust => trust == UnknownTrust
    case UnknownTrust => false
  }

  /** The protections a backend must report; the one that runs Python needs two more. */
  ghost predicate Protected(c: Capabilities, backend: Backend) {
    && c.inprocess && c.proxyDisabled && c.antiDebug && c.coreDumpsDisabled && c.envScrubbed
    && (backend == InprocessMLX ==> c.pythonLocked && c.modulesBlocked)
  }

  /** The tokens the memory estimate is made for: at most 2^24, and none at all once the int sum has wrapped. */
  ghost predicate Estimated(pr: Pending, tokens: int) {
    var sum := Prompt(pr) + Wanted(pr);
    && (sum <= 0x100_0000 ==> tokens == sum)
    && (0x100_0000 < sum <= INT64_MAX ==> tokens == 0x100_0000)
    && (sum > INT64_MAX ==> tokens == 0)
  }

  /** Free memory does not cover the weights, unless loaded, and 400 kB for each token. */
  ghost predicate Short(policy: Policy, p: Provider, s: Slot, tokens: int) {
    && s.model in policy.catalog
    && var size := policy.catalog[s.model].sizeGB;
       var active := if p.capacity.Some? then p.capacity.value.gpuActiveGB else 0.0;
       && size > 0.0 && Memory(p) > 0.0
       && (Memory(p) - active - (if s.state == Running then 0.0 else size)) * 1073741824.0 < tokens as real * 400000.0
  }

  ghost predicate Barred(b: Bar, policy: Policy, p: Provider, s: Slot, now: int, pr: Pending) {
    match b
    case ForeignSerial =>
      && pr.allowedSerials != []
      && forall x :: x in pr.allowedSerials && x != "" ==> p.attestedSerial != Some(x) && p.mdaSerial != Some(x)
    case OtherModels => s.model !in p.models
    case Disconnected => p.status == Offline || p.status == Untrusted
    case LittleTrust => TrustedLess(p.trust, policy.minTrust)
    case RuntimeUnverified => !p.runtimeVerified
    case NoKey => p.publicKey == ""
    case ForeignBackend => p.backend == OtherBackend
    case PlainChunks => !p.encryptedChunks
    case ManifestUnchecked => !p.manifestChecked
    case SipUnverified => !p.sipVerified
    case Unprotected => p.capabilities.None? || !Protected(p.capabilities.value, p.backend)
    case NeverChallenged => p.lastChallenge.None?
    case ChallengeTooOld => p.lastChallenge.Some? && now > p.lastChallenge.value + 360_000
    case Full => |p.pending| >= MaxConcurrency(p)
    case SlotDown => s.state == Crashed || s.state == Reloading
    case TooHot => p.metrics.thermal == Critical
    case NoMemory => exists tokens :: Estimated(pr, tokens) && Short(policy, p, s, tokens)
  }

  lemma SerialBar(p: Provider, allowed: seq<string>)
    ensures SerialAllowed(p, allowed) <==>
      !(&& allowed != []
        && forall x :: x in allowed && x != "" ==> p.attestedSerial != Some(x) && p.mdaSerial != Some(x))
  {
  }

  lemma Scaled(free: real, weights: real, tokens: int)
    ensures free >= weights + (tokens * 400_000) as real / 1_073_741_824 as real
       <==> !((free - weights) * 1073741824.0 < tokens as real * 400000.0)
  {
    assert (tokens * 400_000) as real == tokens as real * 400000.0;
  }

  lemma MemoryBar(policy: Policy, p: Provider, s: Slot, pr: Pending)
    requires Reports(p, s) && Wanted(pr) <= INT64_MAX && Prompt(pr) <= INT64_MAX
    ensures MemoryGate(policy, p, s.model, pr)
       <==> !exists tokens :: Estimated(pr, tokens) && Short(policy, p, s, tokens)
  {
    ReportedIsSlot(p, s);
    var sum := Prompt(pr) + Wanted(pr);
    var tokens := if sum > INT64_MAX then 0 else if sum > 0x100_0000 then 0x100_0000 else sum;
    assert Estimated(pr, tokens);
    if sum > INT64_MAX {
      WrapDrops(sum);
    }
    var size := CatalogSize(policy, s.model);
    var active := if p.capacity.Some? then p.capacity.value.gpuActiveGB else 0.0;
    Scaled(Memory(p) - active, if s.state == Running then 0.0 else size, tokens);
    hide Wrap64, Reports, SlotFor;
    assert MemoryGate(policy, p, s.model, pr) <==> !Short(policy, p, s, tokens);
  }

  /** None of the grounds that concern the protection of the text. */
  ghost predicate TextClear(policy: Policy, p: Provider, s: Slot, now: int, pr: Pending) {
    && !Barred(NoKey, policy, p, s, now, pr) && !Barred(ForeignBackend, policy, p, s, now, pr)
    && !Barred(PlainChunks, policy, p, s, now, pr) && !Barred(ManifestUnchecked, policy, p, s, now, pr)
    && !Barred(SipUnverified, policy, p, s, now, pr) && !Barred(Unprotected, policy, p, s, now, pr)
  }

  /** None of those that concern the connection and its slot. */
  ghost predicate ConnectionClear(policy: Policy, p: Provider, s: Slot, now: int, pr: Pending) {
    && !Barred(OtherModels, policy, p, s, now, pr) && !Barred(Disconnected, policy, p, s, now, pr)
    && !Barred(LittleTrust, policy, p, s, now, pr) && !Barred(RuntimeUnverified, policy, p, s, now, pr)
    && !Barred(NeverChallenged, policy, p, s, now, pr) && !Barred(ChallengeTooOld, policy, p, s, now, pr)
    && !Barred(Full, policy, p, s, now, pr) && !Barred(SlotDown, policy, p, s, now, pr)
  }

  /** None of those that depend on the request. */
  ghost predicate RequestClear(policy: Policy, p: Provider, s: Slot, now: int, pr: Pending) {
    && !Barred(ForeignSerial, policy, p, s, now, pr) && !Barred(TooHot, policy, p, s, now, pr)
    && !Barred(NoMemory, policy, p, s, now, pr)
  }

  lemma BarsCovered(policy: Policy, p: Provider, s: Slot, now: int, pr: Pending)
    ensures (forall b :: !Barred(b, policy, p, s, now, pr)) <==>
      TextClear(policy, p, s, now, pr) && ConnectionClear(policy, p, s, now, pr) && RequestClear(policy, p, s, now, pr)
  {
    hide Barred;
    if TextClear(policy, p, s, now, pr) && ConnectionClear(policy, p, s, now, pr)
      && RequestClear(policy, p, s, now, pr)
    {
      forall b ensures !Barred(b, policy, p, s, now, pr) {
        match b {
          case NoKey => case ForeignBackend => case PlainChunks => case ManifestUnchecked => case SipUnverified =>
          case Unprotected => case OtherModels => case Disconnected => case LittleTrust => case RuntimeUnverified =>
          case NeverChallenged => case ChallengeTooOld => case Full => case SlotDown => case ForeignSerial =>
          case TooHot => case NoMemory =>
        }
      }
    }
  }

  lemma TextBars(policy: Policy, p: Provider, s: Slot, now: int, pr: Pending)
    ensures SupportsPrivateText(p) <==> TextClear(policy, p, s, now, pr)
  {
  }

  lemma ConnectionBars(policy: Policy, p: Provider, s: Slot, now: int, pr: Pending)
    requires Reports(p, s)
    ensures CanAdmit(policy, p, now, s.model) <==> SupportsPrivateText(p) && ConnectionClear(policy, p, s, now, pr)
  {
    ReportedIsSlot(p, s);
    hide Reports, SlotFor, SupportsPrivateText, MaxConcurrency;
  }

  lemma RequestBars(policy: Policy, p: Provider, s: Slot, now: int, pr: Pending)
    requires Reports(p, s) && Wanted(pr) <= INT64_MAX && Prompt(pr) <= INT64_MAX
    ensures SerialAllowed(p, pr.allowedSerials) && p.metrics.thermal != Critical && MemoryGate(policy, p, s.model, pr)
       <==> RequestClear(policy, p, s, now, pr)
  {
    MemoryBar(policy, p, s, pr);
    SerialBar(p, pr.allowedSerials);
    hide MemoryGate, SerialAllowed, Reports, Estimated, Short;
  }

  /** A provider may be offered a request iff nothing on the list bars it. */
  lemma NothingElseBars(policy: Policy, p: Provider, s: Slot, now: int, pr: Pending)
    requires Reports(p, s) && Wanted(pr) <= INT64_MAX && Prompt(pr) <= INT64_MAX
    ensures Eligible(policy, p, now, s.model, pr) <==> forall b :: !Barred(b, policy, p, s, now, pr)
  {
    hide *;
    GatesAgree(policy, p, now, s.model, pr);
    BarsCovered(policy, p, s, now, pr);
    TextBars(policy, p, s, now, pr);
    ConnectionBars(policy, p, s, now, pr);
    RequestBars(policy, p, s, now, pr);
  }

  // ----- in every run ----------------------------------------------------------------------------------

  /** The request that a reservation is for, and its model. */
  function RequestOf(s: System, q: RequestEvent): Option<(Model, Pending, set<Id>)> {
    match q
    case Reserve(model, pr, exclude, _) => Some((model, Normalize(pr, model), exclude))
    case ReserveHeld(x, model, _) => if x in s.hand then Some((model, PendingOf(s.hand[x], model), {})) else None
    case _ => None
  }

  ghost predicate Passable(s: System, id: Id, model: Model, pr: Pending) {
    && id in s.roster.providers
    && forall slot: Slot, b: Bar :: slot.model == model && Reports(s.roster.providers[id], slot) ==>
         !Barred(b, s.policy, s.roster.providers[id], slot, s.clock, pr)
  }

  /**
   * In any run a reservation picks a provider that nothing bars, and turns a request away only when
   * every connected provider is excluded or barred.
   */
  lemma OnlyBarsDecide(ss: seq<System>, es: seq<Event>, i: nat)
    requires Run(ss, es) && i < |es| && es[i].Requests? && (es[i].q.Reserve? || es[i].q.ReserveHeld?)
    ensures RequestOf(ss[i], es[i].q).Some?
    ensures var (model, pr, exclude) := RequestOf(ss[i], es[i].q).value;
      pr.id != "" && Wanted(pr) <= INT64_MAX && Prompt(pr) <= INT64_MAX ==>
        match es[i].q.chosen
        case Some(id) => id !in exclude && Passable(ss[i], id, model, pr)
        case None => forall id :: id in ss[i].roster.providers && id !in exclude ==> !Passable(ss[i], id, model, pr)
  {
    assert Enabled(ss[i], es[i]);
    var (model, pr, exclude) := RequestOf(ss[i], es[i].q).value;
    hide Run, Normalize, PendingOf;
    if pr.id != "" && Wanted(pr) <= INT64_MAX && Prompt(pr) <= INT64_MAX {
      Decided(ss[i], model, pr, exclude, es[i].q.chosen);
    }
  }

  lemma Decided(s: System, model: Model, pr: Pending, exclude: set<Id>, chosen: Option<Id>)
    requires Chooses(s, model, pr, exclude, chosen) && pr.id != "" && Wanted(pr) <= INT64_MAX && Prompt(pr) <= INT64_MAX
    ensures match chosen
      case Some(id) => id !in exclude && Passable(s, id, model, pr)
      case None => forall id :: id in s.roster.providers && id !in exclude ==> !Passable(s, id, model, pr)
  {
    forall id | id in s.roster.providers && id !in exclude
      ensures Choosable(s.policy, s.roster.providers, s.clock, model, pr, exclude, id) <==> Passable(s, id, model, pr)
    {
      EligiblePasses(s, id, model, pr);
    }
    hide Passable;
  }

  lemma SomeReport(p: Provider, model: Model) returns (slot: Slot)
    ensures slot.model == model && Reports(p, slot)
  {
    slot := Slot(model, UnknownState, 0, 0, 0);
    if p.capacity.Some? && exists t :: t in p.capacity.value.slots && t.model == model {
      var slots := p.capacity.value.slots;
      var i := FirstIndex(slots, model);
      slot := slots[i];
    }
  }

  lemma FirstIndex(slots: seq<Slot>, model: Model) returns (i: int)
    requires exists t :: t in slots && t.model == model
    ensures FirstAt(slots, model, i)
  {
    i := 0;
    while slots[i].model != model
      invariant 0 <= i < |slots| && forall j :: 0 <= j < i ==> slots[j].model != model
      decreases |slots| - i
    {
      var t :| t in slots && t.model == model;
      var k :| 0 <= k < |slots| && slots[k] == t;
      i := i + 1;
    }
  }

  lemma EligiblePasses(s: System, id: Id, model: Model, pr: Pending)
    requires id in s.roster.providers && Wanted(pr) <= INT64_MAX && Prompt(pr) <= INT64_MAX
    ensures Eligible(s.policy, s.roster.providers[id], s.clock, model, pr) <==> Passable(s, id, model, pr)
  {
    hide Eligible, Barred, Reports;
    var p := s.roster.providers[id];
    var slot := SomeReport(p, model);
    NothingElseBars(s.policy, p, slot, s.clock, pr);
    forall t: Slot | t.model == model && Reports(p, t)
      ensures Eligible(s.policy, p, s.clock, model, pr) <==> forall b :: !Barred(b, s.policy, p, t, s.clock, pr)
    {
      NothingElseBars(s.policy, p, t, s.clock, pr);
    }
  }
}
