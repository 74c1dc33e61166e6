/** What holds in every state of every run of the routing protocol. */
module RoutingLaws {
  import opened Options
  import opened Fleet
  import opened Queueing
  import opened Draining
  import opened Membership
  import opened Protocol
  import opened Sums

  // ----- what each kind of step leaves alone ------------------------------------------

  ghost predicate SameButLoad(p: Provider, q: Provider) {
    q == p.(pending := q.pending, status := q.status) && (q.status == Untrusted <==> p.status == Untrusted)
  }

  ghost predicate RequestFrame(s: System, t: System) {
    && t == s.(roster := t.roster, queues := t.queues, hand := t.hand, owner := t.owner, takes := t.takes,
        closes := t.closes)
    && t.roster == s.roster.(providers := t.roster.providers)
    && t.roster.providers.Keys == s.roster.providers.Keys
    && forall id :: id in s.roster.providers ==> SameButLoad(s.roster.providers[id], t.roster.providers[id])
  }

  lemma EditFrame(s: System, t: System, id: Id, p: Provider)
    requires id in s.roster.providers && SameButLoad(s.roster.providers[id], p)
    requires t == s.(roster := Changed(s.roster, id, p), hand := t.hand, owner := t.owner, takes := t.takes,
        closes := t.closes)
    ensures RequestFrame(s, t)
  {
    assert forall k :: k in t.roster.providers ==>
        t.roster.providers[k] == if k == id then p else s.roster.providers[k];
    hide SameButLoad;
    assert forall k :: k in s.roster.providers ==> SameButLoad(s.roster.providers[k], s.roster.providers[k]) by {
      forall k | k in s.roster.providers ensures SameButLoad(s.roster.providers[k], s.roster.providers[k]) {
        SameButLoadReflexive(s.roster.providers[k]);
      }
    }
  }

  lemma SameButLoadReflexive(p: Provider)
    ensures SameButLoad(p, p)
  {
  }

  lemma SameRosterFrame(s: System, t: System)
    requires t == s.(queues := t.queues, hand := t.hand, owner := t.owner)
    ensures RequestFrame(s, t)
  {
  }

  lemma ReserveKeeps(s: System, pr: Pending, chosen: Option<Id>)
    ensures RequestFrame(s, ReserveStep(s, pr, chosen))
  {
    if chosen.Some? && chosen.value in s.roster.providers {
      var p := s.roster.providers[chosen.value];
      assert SameButLoad(p, Reserved(p, pr));
      hide SameButLoad, Reserved, RequestFrame;
      EditFrame(s, ReserveStep(s, pr, chosen), chosen.value, Reserved(p, pr));
    } else {
      SameRosterFrame(s, s);
    }
  }

  lemma RemoveKeeps(s: System, id: Id, x: ReqId, taker: Taker)
    ensures RequestFrame(s, RemoveStep(s, id, x, taker))
  {
    if id in s.roster.providers && x in s.roster.providers[id].pending {
      var p := s.roster.providers[id];
      assert SameButLoad(p, Released(p, x));
      hide SameButLoad, Released, RequestFrame, Bump;
      EditFrame(s, RemoveStep(s, id, x, taker), id, Released(p, x));
    } else {
      SameRosterFrame(s, s);
    }
  }

  lemma RequestKeeps(s: System, q: RequestEvent)
    requires RequestEnabled(s, q)
    ensures RequestFrame(s, RequestStep(s, q))
  {
    match q
    case Reserve(model, pr, exclude, chosen) =>
      hide RequestFrame, ReserveStep;
      ReserveKeeps(s, Normalize(pr, model), chosen);
    case ReserveHeld(x, model, chosen) =>
      hide ReserveStep, PendingOf, Chooses;
      ReserveKeeps(s, PendingOf(s.hand[x], model), chosen);
    case Remove(id, x, taker) =>
      hide RequestFrame, RemoveStep;
      RemoveKeeps(s, id, x, taker);
    case _ =>
      hide RequestFrame, Fresh, Expired, FirstFresh, IdsOf, Relabel, Prepared, QueueOf, RequestEnabled, Chooses;
      SameRosterFrame(s, RequestStep(s, q));
  }

  ghost predicate TrackerFrame(s: System, t: System) {
    && t == s.(trackers := t.trackers, sent := t.sent, answers := t.answers)
    && forall id :: id in s.trackers ==> id in t.trackers
  }

  lemma TrackerKeeps(s: System, t: TrackerEvent)
    ensures TrackerFrame(s, TrackerStep(s, t))
  {
    hide SendStep, AnswerStep, ForgetStep;
    match t
    case Send(id, nonce) => SendKeeps(s, id, nonce);
    case Answer(id, nonce) => AnswerKeeps(s, id, nonce);
    case Forget(id, nonce) => ForgetKeeps(s, id, nonce);
  }

  lemma SendKeeps(s: System, id: Id, nonce: Nonce)
    ensures TrackerFrame(s, SendStep(s, id, nonce))
  {
  }

  lemma AnswerKeeps(s: System, id: Id, nonce: Nonce)
    ensures TrackerFrame(s, AnswerStep(s, id, nonce))
  {
    hide Count;
  }

  lemma ForgetKeeps(s: System, id: Id, nonce: Nonce)
    ensures TrackerFrame(s, ForgetStep(s, id, nonce))
  {
  }

  // ----- identity, capacity -----------------------------------------------------------

  ghost predicate IdsMatch(s: System) {
    forall id :: id in s.roster.providers ==>
        s.roster.providers[id].id == id && id in s.connected && id in s.outcomes && id in s.trackers
  }

  /** However heartbeats move the limit, no provider ever carries more than the largest tier's 12 requests. */
  ghost predicate WithinCapacity(s: System) {
    forall id :: id in s.roster.providers ==> |s.roster.providers[id].pending| <= 12
  }

  lemma ChosenHasRoom(s: System, model: Model, pr: Pending, exclude: set<Id>, chosen: Option<Id>)
    requires Chooses(s, model, pr, exclude, chosen) && chosen.Some?
    ensures chosen.value in s.roster.providers
    ensures Eligible(s.policy, s.roster.providers[chosen.value], s.clock, model, pr)
    ensures |s.roster.providers[chosen.value].pending| < 12
  {
  }

  lemma ReservedSize(p: Provider, pr: Pending)
    ensures |Reserved(p, pr).pending| <= |p.pending| + 1
  {
    assert Reserved(p, pr).pending.Keys == p.pending.Keys + {pr.id};
    assert |p.pending.Keys + {pr.id}| <= |p.pending.Keys| + 1;
    assert |Reserved(p, pr).pending| == |Reserved(p, pr).pending.Keys| && |p.pending| == |p.pending.Keys|;
  }

  lemma ReleasedSize(p: Provider, x: ReqId)
    ensures |Released(p, x).pending| <= |p.pending|
  {
    assert Released(p, x).pending.Keys == p.pending.Keys - {x};
    SubsetCardinality(p.pending.Keys - {x}, p.pending.Keys);
    assert |Released(p, x).pending| == |Released(p, x).pending.Keys| && |p.pending| == |p.pending.Keys|;
  }

  lemma ReserveRoom(s: System, model: Model, pr: Pending, exclude: set<Id>, chosen: Option<Id>)
    requires Chooses(s, model, pr, exclude, chosen) && WithinCapacity(s)
    ensures WithinCapacity(ReserveStep(s, pr, chosen))
  {
    if chosen.Some? {
      ChosenHasRoom(s, model, pr, exclude, chosen);
      ReservedSize(s.roster.providers[chosen.value], pr);
    }
    hide Chooses, Reserved;
  }

  lemma RemoveCapacity(s: System, id: Id, x: ReqId, taker: Taker)
    requires WithinCapacity(s)
    ensures WithinCapacity(RemoveStep(s, id, x, taker))
  {
    if id in s.roster.providers {
      ReleasedSize(s.roster.providers[id], x);
    }
    hide Released, Bump;
  }

  lemma RequestCapacity(s: System, q: RequestEvent)
    requires RequestEnabled(s, q) && WithinCapacity(s)
    ensures WithinCapacity(RequestStep(s, q))
  {
    match q
    case Reserve(model, pr, exclude, chosen) =>
      hide WithinCapacity, ReserveStep, Chooses;
      ReserveRoom(s, model, Normalize(pr, model), exclude, chosen);
    case ReserveHeld(x, model, chosen) =>
      hide Chooses, PendingOf, Reserved;
      ReserveRoom(s, model, PendingOf(s.hand[x], model), {}, chosen);
    case Remove(id, x, taker) =>
      hide WithinCapacity, RemoveStep;
      RemoveCapacity(s, id, x, taker);
    case _ =>
      QueueStepRoster(s, q);
      hide RequestStep;
  }

  lemma QueueStepRoster(s: System, q: RequestEvent)
    requires RequestEnabled(s, q) && !q.Reserve? && !q.ReserveHeld? && !q.Remove?
    ensures RequestStep(s, q).roster == s.roster
  {
    hide Chooses, CleanStep, AppendStep, WithdrawStep, PopStep, PutBackStep, ReserveStep, ReserveHeldStep, RemoveStep;
  }

  /** A provider is filed under its own id and within the largest tier. */
  ghost predicate Filed(ps: map<Id, Provider>) {
    forall id :: id in ps ==> ps[id].id == id && |ps[id].pending| <= 12
  }

  lemma JoinedFiled(r: Roster, id: Id, models: seq<Model>, msg: RegisterMessage)
    requires Filed(r.providers)
    ensures Filed(Joined(r, NewProvider(id, models, msg)).providers)
  {
    hide IncAll, NewProvider;
  }

  lemma LeftFiled(r: Roster, id: Id)
    requires Filed(r.providers)
    ensures Filed(Left(r, id).providers) && Left(r, id).providers.Keys <= r.providers.Keys
  {
    hide DecAll;
  }

  lemma DistrustedFiled(r: Roster, id: Id)
    requires Filed(r.providers)
    ensures Filed(Distrusted(r, id).providers) && Distrusted(r, id).providers.Keys == r.providers.Keys
  {
    hide DecAll;
  }

  lemma TouchedFiled(r: Roster, id: Id, change: Change, now: int)
    requires Filed(r.providers)
    ensures Filed(TouchedRoster(r, id, change, now).providers)
    ensures TouchedRoster(r, id, change, now).providers.Keys == r.providers.Keys
  {
    hide Touched;
    if id in r.providers {
      TouchedKeeps(r.providers[id], change, now);
    }
  }

  lemma JoinCapacity(s: System, id: Id, models: seq<Model>, msg: RegisterMessage)
    requires WithinCapacity(s) && IdsMatch(s)
    ensures var t := JoinStep(s, NewProvider(id, models, msg)); WithinCapacity(t) && IdsMatch(t)
  {
    assert Filed(s.roster.providers);
    JoinedFiled(s.roster, id, models, msg);
    hide IncAll, NewProvider;
    assert Filed(JoinStep(s, NewProvider(id, models, msg)).roster.providers);
  }

  /** No new providers, and what follows them does not shrink. */
  lemma RefiledCapacity(s: System, t: System)
    requires IdsMatch(s) && Filed(t.roster.providers) && t.roster.providers.Keys <= s.roster.providers.Keys
    requires t.connected == s.connected && t.trackers == s.trackers && s.outcomes.Keys <= t.outcomes.Keys
    ensures WithinCapacity(t) && IdsMatch(t)
  {
  }

  lemma LeaveCapacity(s: System, id: Id)
    requires WithinCapacity(s) && IdsMatch(s)
    ensures WithinCapacity(LeaveStep(s, id)) && IdsMatch(LeaveStep(s, id))
  {
    if id in s.roster.providers {
      assert Filed(s.roster.providers);
      LeftFiled(s.roster, id);
      hide Left, Relabel, Bump, Filed;
      RefiledCapacity(s, LeaveStep(s, id));
    }
  }

  lemma UntrustCapacity(s: System, id: Id)
    requires WithinCapacity(s) && IdsMatch(s)
    ensures var t := s.(roster := Distrusted(s.roster, id)); WithinCapacity(t) && IdsMatch(t)
  {
    assert Filed(s.roster.providers);
    DistrustedFiled(s.roster, id);
    hide Distrusted, Filed;
    RefiledCapacity(s, s.(roster := Distrusted(s.roster, id)));
  }

  lemma TouchCapacity(s: System, id: Id, change: Change)
    requires WithinCapacity(s) && IdsMatch(s)
    ensures WithinCapacity(TouchStep(s, id, change)) && IdsMatch(TouchStep(s, id, change))
  {
    assert Filed(s.roster.providers);
    TouchedFiled(s.roster, id, change, s.clock);
    hide TouchedRoster, Filed, SpentBy, ChallengeVerdict;
    RefiledCapacity(s, TouchStep(s, id, change));
  }

  lemma FleetCapacity(s: System, f: FleetEvent)
    requires WithinCapacity(s) && IdsMatch(s)
    ensures WithinCapacity(FleetStep(s, f)) && IdsMatch(FleetStep(s, f))
  {
    hide WithinCapacity, IdsMatch, JoinStep, LeaveStep, TouchStep, Distrusted, NewProvider;
    match f
    case Join(id, models, msg) => JoinCapacity(s, id, models, msg);
    case Leave(id) => LeaveCapacity(s, id);
    case Untrust(id) => UntrustCapacity(s, id);
    case Touch(id, change) => TouchCapacity(s, id, change);
  }

  lemma CapacityStep(s: System, e: Event)
    requires Enabled(s, e) && WithinCapacity(s) && IdsMatch(s)
    ensures WithinCapacity(Step(s, e)) && IdsMatch(Step(s, e))
  {
    hide RequestEnabled, RequestStep, TrackerStep, FleetStep;
    match e
    case Tick(_) =>
    case Fleets(f) => FleetCapacity(s, f);
    case Trackers(t) => TrackerKeeps(s, t);
    case Requests(q) =>
      RequestKeeps(s, q);
      RequestCapacity(s, q);
  }

  // ----- cached counters -----------------------------------------------------------------

  lemma TouchedKeeps(p: Provider, change: Change, now: int)
    ensures var q := Touched(p, change, now);
      && q.id == p.id && q.models == p.models && q.pending == p.pending
      && (q.status == Untrusted <==> p.status == Untrusted)
  {
  }

  lemma FleetCounters(s: System, f: FleetEvent)
    requires Enabled(s, Fleets(f)) && CountersMatch(s.roster) && IdsMatch(s)
    ensures CountersMatch(FleetStep(s, f).roster)
  {
    hide CountersMatch, Touched, Joined, Left, Distrusted, Relabel, Bump;
    match f
    case Join(id, models, msg) => JoinedKeepsCounters(s.roster, NewProvider(id, models, msg));
    case Leave(id) =>
      if id in s.roster.providers {
        LeftKeepsCounters(s.roster, id);
      }
    case Untrust(id) => DistrustedKeepsCounters(s.roster, id);
    case Touch(id, change) =>
      if id in s.roster.providers {
        TouchedKeeps(s.roster.providers[id], change, s.clock);
        ChangedKeepsCounters(s.roster, id, Touched(s.roster.providers[id], change, s.clock));
      }
  }

  lemma FrameCounters(s: System, t: System)
    requires RequestFrame(s, t) && CountersMatch(s.roster)
    ensures CountersMatch(t.roster)
  {
    var a, b := s.roster.providers, t.roster.providers;
    forall id | id in a
      ensures b[id].models == a[id].models && (b[id].status == Untrusted <==> a[id].status == Untrusted)
    {
      assert SameButLoad(a[id], b[id]);
    }
    assert Trusted(a) == Trusted(b);
    forall m ensures Listed(b, m) == Listed(a, m) {
      ListedSame(b, a, m);
    }
  }

  lemma CountersStep(s: System, e: Event)
    requires Enabled(s, e) && CountersMatch(s.roster) && IdsMatch(s)
    ensures CountersMatch(Step(s, e).roster)
  {
    hide RequestEnabled, RequestStep, TrackerStep, FleetStep, CountersMatch, RequestFrame;
    match e
    case Tick(_) =>
    case Fleets(f) => FleetCounters(s, f);
    case Trackers(t) => TrackerKeeps(s, t);
    case Requests(q) =>
      RequestKeeps(s, q);
      FrameCounters(s, RequestStep(s, q));
  }

  // ----- challenges -------------------------------------------------------------------------

  /**
   * A provider with coordinator-verified SIP has passed its latest challenge on this
   * connection, and the time stamp routing looks at is never later than that pass.
   */
  ghost predicate Sound(p: Provider, outcome: Outcome, clock: int) {
    p.sipVerified ==>
      && outcome.Passed?
      && outcome.at <= clock
      && (p.lastChallenge.Some? ==> p.lastChallenge.value <= outcome.at)
  }

  ghost predicate ChallengesSound(s: System) {
    forall id :: id in s.roster.providers && id in s.outcomes ==> Sound(s.roster.providers[id], s.outcomes[id], s.clock)
  }

  /** Time stamps are never in the future. */
  ghost predicate StampPast(p: Provider, clock: int) {
    p.lastChallenge.Some? ==> p.lastChallenge.value <= clock
  }

  ghost predicate StampsPast(s: System) {
    forall id :: id in s.roster.providers ==> StampPast(s.roster.providers[id], s.clock)
  }

  lemma TouchedSound(s: System, p: Provider, outcome: Outcome, id: Id, change: Change)
    requires ChangeEnabled(s, id, change) && Sound(p, outcome, s.clock) && StampPast(p, s.clock)
    requires id in s.outcomes && s.outcomes[id] == outcome
    ensures var verdict := ChallengeVerdict(change, s.clock);
      Sound(Touched(p, change, s.clock), if verdict.Some? then verdict.value else outcome, s.clock)
    ensures StampPast(Touched(p, change, s.clock), s.clock)
  {
  }

  lemma TouchChallenges(s: System, id: Id, change: Change)
    requires ChangeEnabled(s, id, change) && ChallengesSound(s) && StampsPast(s) && IdsMatch(s)
    ensures ChallengesSound(TouchStep(s, id, change)) && StampsPast(TouchStep(s, id, change))
  {
    hide Sound, StampPast, Touched, ChallengeVerdict, ChangeEnabled;
    if id in s.roster.providers {
      TouchedSound(s, s.roster.providers[id], s.outcomes[id], id, change);
    }
  }

  lemma DistrustedSound(p: Provider, outcome: Outcome, clock: int)
    requires Sound(p, outcome, clock) && StampPast(p, clock)
    ensures Sound(p.(status := Untrusted), outcome, clock) && StampPast(p.(status := Untrusted), clock)
  {
  }

  lemma FleetChallenges(s: System, f: FleetEvent)
    requires Enabled(s, Fleets(f)) && ChallengesSound(s) && StampsPast(s) && IdsMatch(s)
    ensures ChallengesSound(FleetStep(s, f)) && StampsPast(FleetStep(s, f))
  {
    match f
    case Join(id, models, msg) =>
      var p := NewProvider(id, models, msg);
      assert Sound(p, Unchallenged, s.clock) && StampPast(p, s.clock);
      hide Sound, StampPast, IncAll, NewProvider;
    case Leave(id) => hide Sound, StampPast, DecAll, Relabel, Bump;
    case Untrust(id) =>
      hide Sound, StampPast, DecAll;
      if id in s.roster.providers {
        DistrustedSound(s.roster.providers[id], s.outcomes[id], s.clock);
      }
    case Touch(id, change) =>
      hide TouchStep, ChallengesSound, StampsPast, ChangeEnabled;
      TouchChallenges(s, id, change);
  }

  lemma FrameChallenges(s: System, t: System)
    requires RequestFrame(s, t) && ChallengesSound(s) && StampsPast(s)
    ensures ChallengesSound(t) && StampsPast(t)
  {
    forall id | id in t.roster.providers
      ensures StampPast(t.roster.providers[id], t.clock)
      ensures id in t.outcomes ==> Sound(t.roster.providers[id], t.outcomes[id], t.clock)
    {
      assert SameButLoad(s.roster.providers[id], t.roster.providers[id]);
    }
  }

  lemma ChallengesStep(s: System, e: Event)
    requires Enabled(s, e) && ChallengesSound(s) && StampsPast(s) && IdsMatch(s)
    ensures ChallengesSound(Step(s, e)) && StampsPast(Step(s, e))
  {
    hide RequestEnabled, RequestStep, TrackerStep, FleetStep, ChangeEnabled, RequestFrame, IdsMatch;
    match e
    case Tick(_) =>
    case Fleets(f) => FleetChallenges(s, f);
    case Trackers(t) => TrackerKeeps(s, t);
    case Requests(q) =>
      RequestKeeps(s, q);
      FrameChallenges(s, RequestStep(s, q));
  }

  /**
   * What a reservation guarantees about the provider it picks: trusted, and it answered a challenge
   * within the last six minutes.
   */
  ghost predicate SafeChoice(s: System, id: Id) {
    && id in s.roster.providers && id in s.outcomes
    && s.roster.providers[id].status != Untrusted
    && TrustRank(s.roster.providers[id].trust) >= TrustRank(s.policy.minTrust)
    && s.outcomes[id].Passed?
    && s.clock - s.outcomes[id].at <= CHALLENGE_MAX_AGE
    && NonceAnswered(s, id, s.outcomes[id].nonce)
  }

  lemma ChoiceIsSafe(s: System, model: Model, pr: Pending, exclude: set<Id>, chosen: Option<Id>)
    requires ChallengesSound(s) && IdsMatch(s) && NoncesOnce(s)
    requires Chooses(s, model, pr, exclude, chosen) && chosen.Some?
    ensures SafeChoice(s, chosen.value)
  {
    ChosenHasRoom(s, model, pr, exclude, chosen);
    assert ChallengeFresh(s.roster.providers[chosen.value], s.clock);
  }

  // ----- nonces ---------------------------------------------------------------------------------

  /** Every outstanding nonce was sent to this connection and has not been answered. */
  ghost predicate Outstanding(nonces: set<Nonce>, id: Id, sent: map<Nonce, Id>, answers: map<Nonce, int>) {
    forall n :: n in nonces ==> n in sent && sent[n] == id && n !in answers
  }

  /** No nonce is answered twice, and every pass answered a nonce sent to that connection. */
  ghost predicate NoncesOnce(s: System) {
    && s.trackers.Keys <= s.connected
    && (forall id :: id in s.trackers ==> Outstanding(s.trackers[id], id, s.sent, s.answers))
    && (forall n :: n in s.answers ==> n in s.sent && s.answers[n] == 1)
    && (forall id :: id in s.outcomes && s.outcomes[id].Passed? ==> NonceAnswered(s, id, s.outcomes[id].nonce))
  }

  lemma TouchNonces(s: System, id: Id, change: Change)
    requires ChangeEnabled(s, id, change) && NoncesOnce(s)
    ensures NoncesOnce(TouchStep(s, id, change))
  {
    hide TouchedRoster, Outstanding, SpentBy;
    var t := TouchStep(s, id, change);
    forall k | k in t.outcomes && t.outcomes[k].Passed? ensures NonceAnswered(t, k, t.outcomes[k].nonce) {
      assert k == id || (k in s.outcomes && t.outcomes[k] == s.outcomes[k]);
    }
  }

  lemma FleetNonces(s: System, f: FleetEvent)
    requires Enabled(s, Fleets(f)) && NoncesOnce(s)
    ensures NoncesOnce(FleetStep(s, f))
  {
    hide Relabel, Bump, TouchStep, ChangeEnabled, Joined, Left, Distrusted, NewProvider;
    match f
    case Join(id, models, msg) =>
    case Leave(id) =>
    case Untrust(id) =>
    case Touch(id, change) =>
      hide NoncesOnce;
      TouchNonces(s, id, change);
  }

  lemma SendOutstanding(s: System, id: Id, nonce: Nonce)
    requires nonce !in s.sent && NoncesOnce(s)
    ensures forall k :: k in s.trackers ==> Outstanding(s.trackers[k], k, s.sent[nonce := id], s.answers)
    ensures id in s.trackers ==> Outstanding(s.trackers[id] + {nonce}, id, s.sent[nonce := id], s.answers)
  {
    forall k | k in s.trackers ensures Outstanding(s.trackers[k], k, s.sent[nonce := id], s.answers) {
      assert Outstanding(s.trackers[k], k, s.sent, s.answers);
    }
  }

  lemma AnswerOutstanding(s: System, id: Id, nonce: Nonce)
    requires NoncesOnce(s) && id in s.trackers && nonce in s.trackers[id]
    ensures nonce !in s.answers && nonce in s.sent
    ensures forall k :: k in s.trackers && k != id ==> Outstanding(s.trackers[k], k, s.sent, s.answers[nonce := 1])
    ensures Outstanding(s.trackers[id] - {nonce}, id, s.sent, s.answers[nonce := 1])
  {
    assert Outstanding(s.trackers[id], id, s.sent, s.answers);
    forall k | k in s.trackers && k != id ensures Outstanding(s.trackers[k], k, s.sent, s.answers[nonce := 1]) {
      assert Outstanding(s.trackers[k], k, s.sent, s.answers);
    }
  }

  lemma TrackerNonces(s: System, t: TrackerEvent)
    requires Enabled(s, Trackers(t)) && NoncesOnce(s)
    ensures NoncesOnce(TrackerStep(s, t))
  {
    match t
    case Send(id, nonce) =>
      SendOutstanding(s, id, nonce);
      hide Outstanding;
    case Answer(id, nonce) =>
      if id in s.trackers && nonce in s.trackers[id] {
        AnswerOutstanding(s, id, nonce);
      }
      hide Outstanding;
    case Forget(id, nonce) =>
  }

  lemma NoncesStep(s: System, e: Event)
    requires Enabled(s, e) && NoncesOnce(s)
    ensures NoncesOnce(Step(s, e))
  {
    hide RequestEnabled, RequestStep, TrackerStep, FleetStep, ChangeEnabled;
    match e
    case Tick(_) =>
    case Fleets(f) => FleetNonces(s, f);
    case Trackers(t) => TrackerNonces(s, t);
    case Requests(q) => RequestKeeps(s, q);
  }

  // ----- every run --------------------------------------------------------------------------------------

  ghost predicate Invariant(s: System) {
    && IdsMatch(s) && WithinCapacity(s) && CountersMatch(s.roster)
    && ChallengesSound(s) && StampsPast(s) && NoncesOnce(s)
  }

  lemma InvariantIds(s: System)
    requires Invariant(s)
    ensures IdsMatch(s)
  {
    hide IdsMatch, WithinCapacity, CountersMatch, ChallengesSound, StampsPast, NoncesOnce;
  }

  lemma StartInvariant(policy: Policy, maxWait: int, clock: int)
    ensures Invariant(Start(policy, maxWait, clock))
  {
    var s := Start(policy, maxWait, clock);
    assert Trusted(s.roster.providers) == {};
  }

  lemma InvariantStep(s: System, e: Event)
    requires Enabled(s, e) && Invariant(s)
    ensures Invariant(Step(s, e))
  {
    hide Enabled, Step, CountersMatch, NoncesOnce, ChallengesSound, StampsPast, WithinCapacity, IdsMatch;
    CapacityStep(s, e);
    CountersStep(s, e);
    ChallengesStep(s, e);
    NoncesStep(s, e);
  }

  /** The inductive invariant holds in every state of every run. */
  lemma {:induction false} RunInvariant(ss: seq<System>, es: seq<Event>, i: nat)
    requires Run(ss, es) && i < |ss|
    ensures Invariant(ss[i])
  {
    hide Invariant, Step, Enabled;
    if i == 0 {
      StartInvariant(ss[0].policy, ss[0].maxWait, ss[0].clock);
    } else {
      RunInvariant(ss, es, i - 1);
      assert Enabled(ss[i - 1], es[i - 1]);
      InvariantStep(ss[i - 1], es[i - 1]);
    }
  }

  /** The step hands a request to this provider. */
  ghost predicate Picks(e: Event, id: Id) {
    e.Requests? && match e.q
                   case Reserve(_, _, _, chosen) => chosen == Some(id)
                   case ReserveHeld(_, _, chosen) => chosen == Some(id)
                   case _ => false
  }

  /** Every provider that a reservation picks, in any run, is trusted and freshly challenged. */
  lemma RoutingSafety(ss: seq<System>, es: seq<Event>, i: nat, id: Id)
    requires Run(ss, es) && i < |es| && Picks(es[i], id)
    ensures SafeChoice(ss[i], id)
  {
    RunInvariant(ss, es, i);
    assert Enabled(ss[i], es[i]);
    hide CountersMatch, NoncesOnce, WithinCapacity, ChallengesSound, IdsMatch, SafeChoice, Chooses, Run;
    match es[i].q
    case Reserve(model, pr, exclude, chosen) => ChoiceIsSafe(ss[i], model, Normalize(pr, model), exclude, chosen);
    case ReserveHeld(x, model, chosen) => ChoiceIsSafe(ss[i], model, PendingOf(ss[i].hand[x], model), {}, chosen);
  }

  ghost predicate NeverBack(s: System, id: Id) {
    id in s.connected && (id in s.roster.providers ==> s.roster.providers[id].status == Untrusted)
  }

  lemma FleetUntrusted(s: System, f: FleetEvent, id: Id)
    requires Enabled(s, Fleets(f)) && NeverBack(s, id)
    ensures NeverBack(FleetStep(s, f), id)
  {
    hide IncAll, DecAll, Relabel, Bump, Touched;
    if f.Touch? && f.id in s.roster.providers {
      TouchedKeeps(s.roster.providers[f.id], f.change, s.clock);
    }
  }

  lemma UntrustedStep(s: System, e: Event, id: Id)
    requires Enabled(s, e) && NeverBack(s, id)
    ensures NeverBack(Step(s, e), id)
  {
    hide RequestEnabled, RequestStep, TrackerStep, FleetStep, ChangeEnabled;
    match e
    case Tick(_) =>
    case Fleets(f) => FleetUntrusted(s, f, id);
    case Trackers(t) => TrackerKeeps(s, t);
    case Requests(q) => RequestKeeps(s, q);
  }

  /** Distrust is final: once a provider is untrusted, no later step trusts it or picks it again. */
  lemma {:induction false} UntrustedIsAbsorbing(ss: seq<System>, es: seq<Event>, id: Id, i: nat, j: nat)
    requires Run(ss, es) && i <= j < |ss|
    requires id in ss[i].roster.providers && ss[i].roster.providers[id].status == Untrusted
    ensures NeverBack(ss[j], id)
    ensures j < |es| ==> !Picks(es[j], id)
  {
    hide Step, Enabled, Picks, Start;
    if i < j {
      UntrustedIsAbsorbing(ss, es, id, i, j - 1);
      assert Enabled(ss[j - 1], es[j - 1]);
      UntrustedStep(ss[j - 1], es[j - 1], id);
    } else {
      RunInvariant(ss, es, i);
    }
    if j < |es| && Picks(es[j], id) {
      RoutingSafety(ss, es, j, id);
      assert false;
    }
  }

  /** Counters, capacity and nonces, read off the invariant. */
  lemma RunCounters(ss: seq<System>, es: seq<Event>, i: nat)
    requires Run(ss, es) && i < |ss|
    ensures CountersMatch(ss[i].roster)
    ensures WithinCapacity(ss[i])
    ensures forall n :: n in ss[i].answers ==> ss[i].answers[n] == 1
  {
    RunInvariant(ss, es, i);
  }

  // ----- one verification per answer -------------------------------------------------------------

  /** The step is the verification of the answer to a nonce, or the recording of its success. */
  ghost predicate Spends(e: Event, nonce: Nonce, stage: Verification) {
    e.Fleets? && e.f.Touch? && match e.f.change
                               case VerifyResponse(n, _) => n == nonce && stage == Verified
                               case RecordSuccess(n) => n == nonce && stage == Recorded
                               case _ => false
  }

  ghost predicate StageReached(s: System, nonce: Nonce, stage: Verification) {
    nonce in s.spent && (stage == Recorded ==> s.spent[nonce] == Recorded)
  }

  lemma TouchSpends(s: System, id: Id, change: Change, nonce: Nonce, stage: Verification)
    requires ChangeEnabled(s, id, change)
    ensures var e := Fleets(Touch(id, change));
      && (StageReached(s, nonce, stage) || Spends(e, nonce, stage) ==>
          StageReached(TouchStep(s, id, change), nonce, stage))
      && (StageReached(s, nonce, stage) ==> !Spends(e, nonce, stage))
  {
    hide TouchedRoster, Judged;
  }

  lemma SpentKept(s: System, f: FleetEvent)
    requires !f.Touch?
    ensures FleetStep(s, f).spent == s.spent
  {
    hide Joined, Left, Distrusted, Relabel, Bump, NewProvider;
  }

  lemma SpentStep(s: System, e: Event, nonce: Nonce, stage: Verification)
    requires Enabled(s, e)
    ensures StageReached(s, nonce, stage) || Spends(e, nonce, stage) ==> StageReached(Step(s, e), nonce, stage)
    ensures StageReached(s, nonce, stage) ==> !Spends(e, nonce, stage)
  {
    hide RequestEnabled, RequestStep, TouchStep, ChangeEnabled, TrackerStep;
    match e
    case Tick(_) =>
    case Fleets(f) =>
      if f.Touch? {
        TouchSpends(s, f.id, f.change, nonce, stage);
      } else {
        SpentKept(s, f);
        hide FleetStep;
      }
    case Trackers(t) => TrackerKeeps(s, t);
    case Requests(q) => RequestKeeps(s, q);
  }

  lemma {:induction false} StageLasts(ss: seq<System>, es: seq<Event>, i: nat, j: nat, nonce: Nonce,
                            stage: Verification)
    requires Run(ss, es) && i < j < |ss| && Spends(es[i], nonce, stage)
    ensures StageReached(ss[j], nonce, stage)
  {
    hide Step, Enabled, Start, StageReached, Spends;
    assert Enabled(ss[j - 1], es[j - 1]) && ss[j] == Step(ss[j - 1], es[j - 1]);
    SpentStep(ss[j - 1], es[j - 1], nonce, stage);
    if i < j - 1 {
      StageLasts(ss, es, i, j - 1, nonce, stage);
    }
  }

  /**
   * Distinct passes answer distinct nonces: in any run an answer is verified at most once and
   * recorded as a success at most once, and only after the provider it was sent to answered it.
   */
  lemma PassesAreDistinct(ss: seq<System>, es: seq<Event>, i: nat, j: nat, m: Nonce, n: Nonce, stage: Verification)
    requires Run(ss, es) && i < j < |es| && Spends(es[i], m, stage) && Spends(es[j], n, stage)
    ensures m != n
    ensures NonceAnswered(ss[j], es[j].f.id, n)
  {
    StageLasts(ss, es, i, j, m, stage);
    assert Enabled(ss[j], es[j]);
    SpentStep(ss[j], es[j], m, stage);
  }
}
