/**
 * Which providers are connected, and the two cached counters the registry keeps beside
 * the provider map: the number of online providers and the number of providers per model.
 */
module Membership {
  import opened Options
  import opened Fleet
  import opened Sums

  datatype Roster = Roster(providers: map<Id, Provider>, online: int, counts: map<Model, int>)

  // ----- modelProviderInc / modelProviderDec --------------------------------

  function Get(counts: map<Model, int>, m: Model): int {
    if m in counts then counts[m] else 0
  }

  function Inc(counts: map<Model, int>, m: Model): map<Model, int> {
    counts[m := Get(counts, m) + 1]
  }

  function Dec(counts: map<Model, int>, m: Model): map<Model, int> {
    if m !in counts then counts
    else if counts[m] - 1 <= 0 then counts - {m}
    else counts[m := counts[m] - 1]
  }

  function IncAll(counts: map<Model, int>, ms: seq<Model>): map<Model, int> {
    if ms == [] then counts else Inc(IncAll(counts, ms[..|ms| - 1]), ms[|ms| - 1])
  }

  function DecAll(counts: map<Model, int>, ms: seq<Model>): map<Model, int> {
    if ms == [] then counts else Dec(DecAll(counts, ms[..|ms| - 1]), ms[|ms| - 1])
  }

  ghost predicate AllPositive(counts: map<Model, int>) {
    forall m :: m in counts ==> counts[m] > 0
  }

  lemma {:induction false} IncAllCounts(counts: map<Model, int>, ms: seq<Model>, m: Model)
    requires AllPositive(counts)
    ensures Get(IncAll(counts, ms), m) == Get(counts, m) + multiset(ms)[m]
    ensures AllPositive(IncAll(counts, ms))
  {
    if ms != [] {
      var n := |ms| - 1;
      IncAllCounts(counts, ms[..n], m);
      assert ms == ms[..n] + [ms[n]];
    }
  }

  lemma {:induction false} DecAllCounts(counts: map<Model, int>, ms: seq<Model>, m: Model)
    requires AllPositive(counts)
    requires forall k :: multiset(ms)[k] <= Get(counts, k)
    ensures Get(DecAll(counts, ms), m) == Get(counts, m) - multiset(ms)[m]
    ensures AllPositive(DecAll(counts, ms))
  {
    if ms != [] {
      var n := |ms| - 1;
      assert ms == ms[..n] + [ms[n]];
      forall k ensures multiset(ms[..n])[k] <= Get(counts, k) {
        assert multiset(ms[..n])[k] <= multiset(ms)[k];
      }
      DecAllCounts(counts, ms[..n], m);
      DecAllCounts(counts, ms[..n], ms[n]);
      assert multiset(ms)[ms[n]] == multiset(ms[..n])[ms[n]] + 1;
    }
  }

  // ----- recount ---------------------------------------------------------------

  ghost function Trusted(providers: map<Id, Provider>): set<Id> {
    set id | id in providers && providers[id].status != Untrusted
  }

  /** How often providers that are not untrusted list the model. */
  ghost function Listed(providers: map<Id, Provider>, m: Model): int {
    SumOver(Trusted(providers), (id: Id) => if id in providers then multiset(providers[id].models)[m] else 0)
  }

  /** The cached counters are what a recount would give, and a model has an entry only when it is positive. */
  ghost predicate CountersMatch(r: Roster) {
    && r.online == |Trusted(r.providers)|
    && AllPositive(r.counts)
    && forall m :: Get(r.counts, m) == Listed(r.providers, m)
  }

  lemma ListedSame(a: map<Id, Provider>, b: map<Id, Provider>, m: Model)
    requires Trusted(a) == Trusted(b)
    requires forall id :: id in Trusted(a) ==> a[id].models == b[id].models
    ensures Listed(a, m) == Listed(b, m)
  {
    SumCongruent(Trusted(a),
      (id: Id) => if id in a then multiset(a[id].models)[m] else 0,
      (id: Id) => if id in b then multiset(b[id].models)[m] else 0);
  }

  lemma ListedMore(a: map<Id, Provider>, b: map<Id, Provider>, id: Id, m: Model)
    requires id !in Trusted(a) && Trusted(b) == Trusted(a) + {id}
    requires forall k :: k in Trusted(a) ==> a[k].models == b[k].models
    ensures Listed(b, m) == Listed(a, m) + multiset(b[id].models)[m]
  {
    SumInsert(Trusted(a),
      (k: Id) => if k in a then multiset(a[k].models)[m] else 0,
      (k: Id) => if k in b then multiset(b[k].models)[m] else 0, id);
  }

  // ----- transitions ------------------------------------------------------------

  /** What a provider may report at registration, after clamping. */
  function Joined(r: Roster, p: Provider): Roster {
    Roster(r.providers[p.id := p], r.online + 1, IncAll(r.counts, p.models))
  }

  function Left(r: Roster, id: Id): Roster {
    if id !in r.providers then r
    else if r.providers[id].status == Untrusted then r.(providers := r.providers - {id})
    else Roster(r.providers - {id}, r.online - 1, DecAll(r.counts, r.providers[id].models))
  }

  function Distrusted(r: Roster, id: Id): Roster {
    if id !in r.providers then r
    else if r.providers[id].status == Untrusted then r
    else Roster(r.providers[id := r.providers[id].(status := Untrusted)], r.online - 1,
        DecAll(r.counts, r.providers[id].models))
  }

  /** Replaces one provider's record without touching the counters. */
  function Changed(r: Roster, id: Id, p: Provider): Roster
    requires id in r.providers
  {
    r.(providers := r.providers[id := p])
  }

  lemma JoinedKeepsCounters(r: Roster, p: Provider)
    requires CountersMatch(r) && p.id !in r.providers && p.status != Untrusted
    ensures CountersMatch(Joined(r, p))
  {
    var s := Joined(r, p);
    assert Trusted(s.providers) == Trusted(r.providers) + {p.id};
    forall m ensures Get(s.counts, m) == Listed(s.providers, m) && AllPositive(s.counts) {
      IncAllCounts(r.counts, p.models, m);
      ListedMore(r.providers, s.providers, p.id, m);
    }
    IncAllCounts(r.counts, p.models, "");
  }

  lemma ListedLess(r: Roster, id: Id, s: Roster, m: Model)
    requires id in Trusted(r.providers) && Trusted(s.providers) == Trusted(r.providers) - {id}
    requires forall k :: k in Trusted(s.providers) ==> s.providers[k].models == r.providers[k].models
    ensures Listed(r.providers, m) == Listed(s.providers, m) + multiset(r.providers[id].models)[m]
    ensures 0 <= Listed(s.providers, m)
  {
    assert Trusted(r.providers) == Trusted(s.providers) + {id};
    ListedMore(s.providers, r.providers, id, m);
    SumNonNegative(
      Trusted(s.providers),
      (k: Id) => if k in s.providers then multiset(s.providers[k].models)[m] else 0);
  }

  /** Taking a trusted provider out of the count, whether by leaving or by losing trust. */
  lemma DropKeepsCounters(r: Roster, id: Id, s: Roster)
    requires CountersMatch(r) && id in Trusted(r.providers)
    requires Trusted(s.providers) == Trusted(r.providers) - {id}
    requires forall k :: k in Trusted(s.providers) ==> s.providers[k].models == r.providers[k].models
    requires s.online == r.online - 1 && s.counts == DecAll(r.counts, r.providers[id].models)
    ensures CountersMatch(s)
  {
    var ms := r.providers[id].models;
    forall m ensures Listed(r.providers, m) == Listed(s.providers, m) + multiset(ms)[m] && 0 <= Listed(s.providers, m) {
      ListedLess(r, id, s, m);
    }
    hide Listed, DecAll;
    forall m ensures Get(s.counts, m) == Listed(s.providers, m) {
      DecAllCounts(r.counts, ms, m);
    }
    DecAllCounts(r.counts, ms, "");
  }

  lemma LeftKeepsCounters(r: Roster, id: Id)
    requires CountersMatch(r)
    ensures CountersMatch(Left(r, id))
  {
    if id in r.providers {
      var s := Left(r, id);
      assert Trusted(s.providers) == Trusted(r.providers) - {id};
      if r.providers[id].status != Untrusted {
        DropKeepsCounters(r, id, s);
      } else {
        forall m ensures Listed(s.providers, m) == Listed(r.providers, m) {
          ListedSame(s.providers, r.providers, m);
        }
      }
    }
  }

  lemma DistrustedKeepsCounters(r: Roster, id: Id)
    requires CountersMatch(r)
    ensures CountersMatch(Distrusted(r, id))
  {
    if id in Trusted(r.providers) {
      var s := Distrusted(r, id);
      assert Trusted(s.providers) == Trusted(r.providers) - {id};
      DropKeepsCounters(r, id, s);
    }
  }

  lemma ChangedKeepsCounters(r: Roster, id: Id, p: Provider)
    requires CountersMatch(r) && id in r.providers
    requires p.models == r.providers[id].models
    requires p.status == Untrusted <==> r.providers[id].status == Untrusted
    ensures CountersMatch(Changed(r, id, p))
  {
    var s := Changed(r, id, p);
    assert Trusted(s.providers) == Trusted(r.providers);
    forall m ensures Listed(s.providers, m) == Listed(r.providers, m) {
      ListedSame(s.providers, r.providers, m);
    }
  }

  lemma LoadedKeepsCounters(r: Roster, ps: map<Id, Provider>)
    requires CountersMatch(r) && Loaded(r.providers, ps)
    ensures CountersMatch(r.(providers := ps))
  {
    assert forall id :: id in ps ==> LoadedProvider(r.providers[id], ps[id]);
    assert Trusted(ps) == Trusted(r.providers);
    forall m ensures Listed(ps, m) == Listed(r.providers, m) {
      ListedSame(ps, r.providers, m);
    }
  }

  // ----- registration --------------------------------------------------------------

  datatype ModelInfo = ModelInfo(id: Model, weightHash: string)

  datatype RegisterMessage = RegisterMessage(
    models: seq<ModelInfo>, publicKey: string, publicKeyValid: bool, backend: Backend, encryptedChunks: bool,
    capabilities: Option<Capabilities>, memoryGB: int, rootBandwidth: real, decodeTPS: real, prefillTPS: real)

  /** A model is kept when the catalogue is empty, or lists it without contradicting its weight hash. */
  predicate InCatalog(catalog: map<Model, CatalogEntry>, m: ModelInfo) {
    || |catalog| == 0
    || (&& m.id in catalog
        && (catalog[m.id].weightHash == "" || m.weightHash == "" || m.weightHash == catalog[m.id].weightHash))
  }

  function KeptModels(catalog: map<Model, CatalogEntry>, ms: seq<ModelInfo>): seq<Model> {
    if ms == [] then []
    else
      var n := |ms| - 1;
      KeptModels(catalog, ms[..n]) + if InCatalog(catalog, ms[n]) then [ms[n].id] else []
  }

  /** Without a catalogue every model is kept; with one, those it lists, unless both name a hash and these differ. */
  lemma CatalogDecides(catalog: map<Model, CatalogEntry>, m: ModelInfo)
    ensures catalog == map[] ==> InCatalog(catalog, m)
    ensures catalog != map[] && m.id !in catalog ==> !InCatalog(catalog, m)
    ensures m.id in catalog ==>
      var expected := catalog[m.id].weightHash;
      (!InCatalog(catalog, m) <==> expected != "" && m.weightHash != "" && expected != m.weightHash)
  {
    assert catalog != map[] ==> |catalog| != 0;
  }

  function Named(ms: seq<ModelInfo>): seq<Model> {
    seq(|ms|, i requires 0 <= i < |ms| => ms[i].id)
  }

  /** The kept models are those the catalogue accepts, in the order of the message. */
  lemma {:induction false} KeptInOrder(catalog: map<Model, CatalogEntry>, ms: seq<ModelInfo>)
    ensures Subseq(KeptModels(catalog, ms), Named(ms))
    ensures forall m :: m in KeptModels(catalog, ms) <==>
      exists i :: 0 <= i < |ms| && ms[i].id == m && InCatalog(catalog, ms[i])
  {
    if ms != [] {
      var n := |ms| - 1;
      KeptInOrder(catalog, ms[..n]);
      assert Named(ms) == Named(ms[..n]) + [ms[n].id];
      SubseqSnoc(KeptModels(catalog, ms[..n]), Named(ms[..n]), ms[n].id);
      hide Subseq, InCatalog;
      var kept := KeptModels(catalog, ms[..n]);
      assert kept + [] == kept;
      forall m | m in KeptModels(catalog, ms)
        ensures exists i :: 0 <= i < |ms| && ms[i].id == m && InCatalog(catalog, ms[i])
      {
        if m in kept {
          var i :| 0 <= i < n && ms[..n][i].id == m && InCatalog(catalog, ms[..n][i]);
          assert ms[i].id == m && InCatalog(catalog, ms[i]);
        }
      }
      forall i | 0 <= i < |ms| && InCatalog(catalog, ms[i]) ensures ms[i].id in KeptModels(catalog, ms) {
        if i < n {
          assert ms[..n][i] == ms[i];
        }
      }
    }
  }

  /** The record a registration creates: online, unattested, with no challenge passed yet. */
  function NewProvider(id: Id, models: seq<Model>, msg: RegisterMessage): (p: Provider)
    ensures p.id == id && p.models == models && p.status == Online && p.pending == map[]
    ensures !p.sipVerified && p.lastChallenge.None?
  {
    Provider(
      id := id,
      models := models,
      status := Online,
      trust := NoTrust,
      runtimeVerified := true,
      publicKey := if msg.publicKeyValid then msg.publicKey else "",
      backend := msg.backend,
      encryptedChunks := msg.encryptedChunks,
      manifestChecked := true,
      sipVerified := false,
      capabilities := msg.capabilities,
      lastChallenge := None,
      failedChallenges := 0,
      capacity := None,
      memoryGB := if msg.memoryGB < 0 then 0 else if msg.memoryGB > 1024 then 1024 else msg.memoryGB,
      rootBandwidth := msg.rootBandwidth,
      decodeTPS := Clamp(msg.decodeTPS, 500.0),
      prefillTPS := Clamp(msg.prefillTPS, 5000.0),
      metrics := Metrics(0.0, 0.0, OtherThermal),
      attestedSerial := None,
      mdaSerial := None,
      pending := map[])
  }

  // ----- heartbeats and challenge outcomes ---------------------------------------

  datatype HeartbeatStatus = HeartbeatIdle | HeartbeatServing | HeartbeatOther

  datatype HeartbeatMessage = HeartbeatMessage(status: HeartbeatStatus, metrics: Metrics, capacity: Option<Capacity>)

  function Clamp(v: real, max: real): (r: real)
    requires max >= 0.0
    ensures 0.0 <= r <= max
    ensures 0.0 <= v <= max ==> r == v
  {
    if v < 0.0 then 0.0 else if v > max then max else v
  }

  function ClampSlot(s: Slot): Slot {
    s.(potential := if s.potential < 0 then 0 else if s.potential > 1_000_000 then 1_000_000 else s.potential,
       running := if s.running < 0 then 0 else s.running,
       waiting := if s.waiting < 0 then 0 else s.waiting)
  }

  function ClampSlots(ss: seq<Slot>): seq<Slot> {
    seq(|ss|, i requires 0 <= i < |ss| => ClampSlot(ss[i]))
  }

  function ClampCapacity(c: Capacity): Capacity {
    Capacity(ClampSlots(c.slots), Clamp(c.gpuActiveGB, 1024.0), Clamp(c.totalMemoryGB, 1024.0))
  }

  /** A heartbeat refreshes metrics and capacity; it never brings an untrusted provider back. */
  function Heartbeaten(p: Provider, msg: HeartbeatMessage): (q: Provider)
    ensures q.id == p.id && q.models == p.models && q.pending == p.pending
    ensures q.lastChallenge == p.lastChallenge && q.sipVerified == p.sipVerified
    ensures q.status == Untrusted <==> p.status == Untrusted
  {
    var status :=
      if p.status == Untrusted then Untrusted
      else if p.status != Serving || msg.status == HeartbeatIdle then
        match msg.status
        case HeartbeatIdle => Online
        case HeartbeatServing => Serving
        case HeartbeatOther => p.status
      else p.status;
    var m := msg.metrics;
    p.(metrics := Metrics(Clamp(m.memoryPressure, 1.0), Clamp(m.cpuUsage, 1.0), m.thermal),
       capacity := if msg.capacity.Some? then Some(ClampCapacity(msg.capacity.value)) else p.capacity,
       status := status)
  }

  function ChallengePassed(p: Provider, now: int): Provider {
    p.(lastChallenge := Some(now), failedChallenges := 0, sipVerified := true)
  }

  function ChallengeFailed(p: Provider): Provider {
    p.(lastChallenge := None, failedChallenges := p.failedChallenges + 1, sipVerified := false)
  }

  /** A pass clears the count of failures; a failure adds to it, and takes stamp and flag away. */
  lemma FailuresInARow(p: Provider, now: int)
    ensures var q := ChallengePassed(p, now);
      q.failedChallenges == 0 && q.sipVerified && q.lastChallenge == Some(now)
    ensures var q := ChallengeFailed(p);
      q.failedChallenges == p.failedChallenges + 1 && !q.sipVerified && q.lastChallenge == None
    ensures ChallengeFailed(ChallengeFailed(ChallengeFailed(ChallengePassed(p, now)))).failedChallenges == 3
  {
  }
}
