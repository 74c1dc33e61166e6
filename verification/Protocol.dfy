/**
 * The routing protocol as a state machine. Every critical section of the registry, the
 * queue, the challenge tracker and the provider handlers is one step; runs interleave
 * steps of any number of drains, dispatchers and provider connections.
 */
module Protocol {
  import opened Options
  import opened Fleet
  import opened Queueing
  import opened Draining
  import opened Membership
  import opened Sums

  type Nonce = string

  /** The latest verdict on a connection's challenges, and the nonce a pass answered. */
  datatype Outcome = Unchallenged | Passed(at: int, nonce: Nonce) | Failed

  /** How far the one verification that an answer is handed to has come. */
  datatype Verification = Verified | Recorded

  /** Where a request is. */
  datatype Owner = InQueue(model: Model) | InHand | PendingAt(provider: Id) | Taken | Dropped

  /** Who removes a pending entry. */
  datatype Taker = Completion | ProviderError | Dispatcher

  /**
   * `hand` holds the requests popped by some drain and not yet placed or put back.
   * `owner`, `takes`, `closes`, `connected`, `outcomes`, `sent`, `answers` and `spent` are history:
   * they enter only guards: fresh ids and nonces, the order of attestation, and that a pass follows an answer.
   */
  datatype System = System(
    policy: Policy,
    maxWait: int,
    clock: int,
    roster: Roster,
    queues: Queues,
    hand: map<ReqId, QueuedRequest>,
    trackers: map<Id, set<Nonce>>,
    owner: map<ReqId, Owner>,
    takes: map<ReqId, int>,
    closes: map<ReqId, int>,
    connected: set<Id>,
    outcomes: map<Id, Outcome>,
    sent: map<Nonce, Id>,
    answers: map<Nonce, int>,
    spent: map<Nonce, Verification>)

  /** Steps that change which providers are connected, or one provider's record. */
  datatype FleetEvent =
    | Join(id: Id, models: seq<Model>, msg: RegisterMessage)
    | Leave(id: Id)
    | Untrust(id: Id)
    | Touch(id: Id, change: Change)

  datatype Change =
    | Beat(beat: HeartbeatMessage)
    | SetTrust(trust: Trust, serial: Option<string>, mda: Option<string>)
    | SetRuntime(verified: bool, checked: bool)
    | Attest(at: int)
    | VerifyResponse(nonce: Nonce, sip: bool)
    | RecordSuccess(nonce: Nonce)
    | RecordFailure
    | BecomeIdle

  datatype TrackerEvent = Send(id: Id, nonce: Nonce) | Answer(id: Id, nonce: Nonce) | Forget(id: Id, nonce: Nonce)

  datatype RequestEvent =
    | Reserve(model: Model, pr: Pending, exclude: set<Id>, chosen: Option<Id>)
    | ReserveHeld(x: ReqId, model: Model, chosen: Option<Id>)
    | Remove(id: Id, x: ReqId, taker: Taker)
    | Clean(model: Model)
    | Append(r: QueuedRequest)
    | Withdraw(model: Model, i: nat)
    | Pop(model: Model)
    | PutBack(x: ReqId)

  datatype Event = Tick(to: int) | Fleets(f: FleetEvent) | Trackers(t: TrackerEvent) | Requests(q: RequestEvent)

  function Start(policy: Policy, maxWait: int, clock: int): System {
    System(policy, maxWait, clock, Roster(map[], 0, map[]),
           map[], map[], map[], map[], map[], map[], {}, map[], map[], map[], map[])
  }

  function Count<K>(m: map<K, int>, k: K): int { if k in m then m[k] else 0 }

  // ----- guards ------------------------------------------------------------------

  /** The scheduler's choice for a request, in the current state. */
  ghost predicate Chooses(s: System, model: Model, pr: Pending, exclude: set<Id>, chosen: Option<Id>) {
    if chosen.Some? then
      pr.id != "" && MayServe(s.policy, s.roster.providers, s.clock, model, pr, exclude, chosen.value)
    else
      !Reservable(s.policy, s.roster.providers, s.clock, model, pr, exclude)
  }

  ghost predicate Enabled(s: System, e: Event) {
    match e
    case Tick(to) => to >= s.clock
    case Fleets(Join(id, models, msg)) => id !in s.connected           // one Register per fresh connection id
    case Fleets(Touch(id, change)) => ChangeEnabled(s, id, change)
    case Trackers(Send(id, nonce)) => nonce !in s.sent                  // 32 random bytes
    case Requests(q) => RequestEnabled(s, q)
    case _ => true
  }

  /**
   * Attestation runs before the challenge loop starts. The tracker hands each answer to one
   * verification, which sets the SIP flag and then records the success.
   */
  ghost predicate ChangeEnabled(s: System, id: Id, change: Change) {
    match change
    case Attest(at) => at <= s.clock && id in s.outcomes && s.outcomes[id].Unchallenged?
    case VerifyResponse(nonce, _) => NonceAnswered(s, id, nonce) && nonce !in s.spent
    case RecordSuccess(nonce) => NonceAnswered(s, id, nonce) && nonce in s.spent && s.spent[nonce] == Verified
    case _ => true
  }

  ghost predicate NonceAnswered(s: System, id: Id, nonce: Nonce) {
    nonce in s.sent && s.sent[nonce] == id && nonce in s.answers
  }

  ghost predicate RequestEnabled(s: System, q: RequestEvent) {
    match q
    case Reserve(model, pr, exclude, chosen) =>
      pr.id !in s.owner && Chooses(s, model, Normalize(pr, model), exclude, chosen)
    case Append(r) =>
      r.id !in s.owner && (r.pending.Some? ==> r.pending.value.id == r.id)
    case Withdraw(model, i) => i < |QueueOf(s.queues, model)|
    case ReserveHeld(x, model, chosen) =>
      x in s.hand && s.hand[x].model == model && Chooses(s, model, PendingOf(s.hand[x], model), {}, chosen)
    case PutBack(x) => x in s.hand
    case _ => true
  }

  // ----- transitions ---------------------------------------------------------------

  function Relabel(owner: map<ReqId, Owner>, ids: set<ReqId>, to: Owner): map<ReqId, Owner> {
    map x | x in owner :: if x in ids then to else owner[x]
  }

  function Bump(m: map<ReqId, int>, ids: set<ReqId>): map<ReqId, int> {
    map x | x in m.Keys + ids :: Count(m, x) + if x in ids then 1 else 0
  }

  function JoinStep(s: System, p: Provider): System {
    s.(roster := Joined(s.roster, p),
       connected := s.connected + {p.id},
       outcomes := s.outcomes[p.id := Unchallenged],
       trackers := s.trackers[p.id := {}])
  }

  function LeaveStep(s: System, id: Id): System {
    if id !in s.roster.providers then s
    else
      var failed := s.roster.providers[id].pending.Keys;
      s.(roster := Left(s.roster, id),
         owner := Relabel(s.owner, failed, Taken),
         takes := Bump(s.takes, failed),
         closes := Bump(s.closes, failed))
  }

  function AnswerStep(s: System, id: Id, nonce: Nonce): System {
    if id in s.trackers && nonce in s.trackers[id] then
      s.(trackers := s.trackers[id := s.trackers[id] - {nonce}],
          answers := s.answers[nonce := Count(s.answers, nonce) + 1])
    else s
  }

  function ForgetStep(s: System, id: Id, nonce: Nonce): System {
    if id in s.trackers then s.(trackers := s.trackers[id := s.trackers[id] - {nonce}]) else s
  }

  function ReserveStep(s: System, pr: Pending, chosen: Option<Id>): System {
    if chosen.Some? && chosen.value in s.roster.providers then
      s.(roster := Changed(s.roster, chosen.value, Reserved(s.roster.providers[chosen.value], pr)),
         owner := s.owner[pr.id := PendingAt(chosen.value)])
    else s
  }

  function RemoveStep(s: System, id: Id, x: ReqId, taker: Taker): System {
    if id in s.roster.providers && x in s.roster.providers[id].pending then
      s.(roster := Changed(s.roster, id, Released(s.roster.providers[id], x)),
         owner := s.owner[x := Taken],
         takes := Bump(s.takes, {x}),
         closes := if taker == Dispatcher then s.closes else Bump(s.closes, {x}))
    else s
  }

  ghost function CleanStep(s: System, model: Model): (t: System)
    ensures t.roster == s.roster
  {
    var q := QueueOf(s.queues, model);
    s.(queues := s.queues[model := Fresh(q, s.clock, s.maxWait)],
       owner := Relabel(s.owner, Expired(q, s.clock, s.maxWait), Dropped))
  }

  function AppendStep(s: System, r: QueuedRequest): (t: System)
    ensures t.roster == s.roster
  {
    s.(queues := s.queues[r.model := QueueOf(s.queues, r.model) + [r.(enqueuedAt := s.clock)]],
       owner := s.owner[r.id := InQueue(r.model)])
  }

  function WithdrawStep(s: System, model: Model, i: nat): (t: System)
    requires i < |QueueOf(s.queues, model)|
    ensures t.roster == s.roster
  {
    var q := QueueOf(s.queues, model);
    s.(queues := s.queues[model := q[..i] + q[i + 1..]], owner := s.owner[q[i].id := Dropped])
  }

  /** The labels after a pop: the expired requests are dropped, the first unexpired one is in a drain's hand. */
  ghost function PopOwner(owner: map<ReqId, Owner>, q: seq<QueuedRequest>, n: nat): map<ReqId, Owner>
    requires n <= |q|
  {
    var dropped := Relabel(owner, IdsOf(q[..n]), Dropped);
    if n < |q| then dropped[q[n].id := InHand] else dropped
  }

  ghost function PopStep(s: System, model: Model): (t: System)
    ensures t.roster == s.roster
  {
    var q := QueueOf(s.queues, model);
    var n := FirstFresh(q, s.clock, s.maxWait);
    s.(queues := s.queues[model := if n < |q| then q[n + 1..] else []],
       hand := if n < |q| then s.hand[q[n].id := Prepared(q[n], model)] else s.hand,
       owner := PopOwner(s.owner, q, n))
  }

  function ReserveHeldStep(s: System, x: ReqId, pr: Pending, chosen: Option<Id>): System {
    if chosen.Some? then ReserveStep(s.(hand := s.hand - {x}), pr, chosen) else s
  }

  function PutBackStep(s: System, x: ReqId): (t: System)
    requires x in s.hand
    ensures t.roster == s.roster
  {
    var r := s.hand[x];
    s.(queues := s.queues[r.model := [r] + QueueOf(s.queues, r.model)],
       hand := s.hand - {x},
       owner := s.owner[x := InQueue(r.model)])
  }

  function Touched(p: Provider, change: Change, now: int): Provider {
    match change
    case Beat(beat) => Heartbeaten(p, beat)
    case SetTrust(trust, serial, mda) => p.(trust := trust, attestedSerial := serial, mdaSerial := mda)
    case SetRuntime(verified, checked) => p.(runtimeVerified := verified, manifestChecked := checked)
    case Attest(at) => p.(lastChallenge := Some(at))
    case VerifyResponse(_, sip) => p.(sipVerified := sip)
    case RecordSuccess(_) => ChallengePassed(p, now)
    case RecordFailure => ChallengeFailed(p)
    case BecomeIdle => Idled(p)
  }

  /** The verdict a change records, if any. */
  function ChallengeVerdict(change: Change, now: int): Option<Outcome> {
    match change
    case VerifyResponse(nonce, _) => Some(Passed(now, nonce))
    case RecordSuccess(nonce) => Some(Passed(now, nonce))
    case RecordFailure => Some(Failed)
    case _ => None
  }

  function SpentBy(spent: map<Nonce, Verification>, change: Change): map<Nonce, Verification> {
    match change
    case VerifyResponse(nonce, _) => spent[nonce := Verified]
    case RecordSuccess(nonce) => spent[nonce := Recorded]
    case _ => spent
  }

  function TouchedRoster(r: Roster, id: Id, change: Change, now: int): Roster {
    if id in r.providers then Changed(r, id, Touched(r.providers[id], change, now)) else r
  }

  function Judged(s: System, id: Id, change: Change): map<Id, Outcome> {
    var verdict := ChallengeVerdict(change, s.clock);
    if id in s.roster.providers && verdict.Some? then s.outcomes[id := verdict.value] else s.outcomes
  }

  function TouchStep(s: System, id: Id, change: Change): System {
    s.(roster := TouchedRoster(s.roster, id, change, s.clock),
       outcomes := Judged(s, id, change),
       spent := SpentBy(s.spent, change))
  }

  function FleetStep(s: System, f: FleetEvent): System {
    match f
    case Join(id, models, msg) => JoinStep(s, NewProvider(id, models, msg))
    case Leave(id) => LeaveStep(s, id)
    case Untrust(id) => s.(roster := Distrusted(s.roster, id))
    case Touch(id, change) => TouchStep(s, id, change)
  }

  function SendStep(s: System, id: Id, nonce: Nonce): System {
    s.(trackers := if id in s.trackers then s.trackers[id := s.trackers[id] + {nonce}] else s.trackers,
       sent := s.sent[nonce := id])
  }

  function TrackerStep(s: System, t: TrackerEvent): System {
    match t
    case Send(id, nonce) => SendStep(s, id, nonce)
    case Answer(id, nonce) => AnswerStep(s, id, nonce)
    case Forget(id, nonce) => ForgetStep(s, id, nonce)
  }

  ghost function RequestStep(s: System, q: RequestEvent): System
    requires RequestEnabled(s, q)
  {
    match q
    case Reserve(model, pr, exclude, chosen) => ReserveStep(s, Normalize(pr, model), chosen)
    case ReserveHeld(x, model, chosen) => ReserveHeldStep(s, x, PendingOf(s.hand[x], model), chosen)
    case Remove(id, x, taker) => RemoveStep(s, id, x, taker)
    case Clean(model) => CleanStep(s, model)
    case Append(r) => AppendStep(s, r)
    case Withdraw(model, i) => WithdrawStep(s, model, i)
    case Pop(model) => PopStep(s, model)
    case PutBack(x) => PutBackStep(s, x)
  }

  ghost function Step(s: System, e: Event): System
    requires Enabled(s, e)
  {
    match e
    case Tick(to) => s.(clock := to)
    case Fleets(f) => FleetStep(s, f)
    case Trackers(t) => TrackerStep(s, t)
    case Requests(q) => RequestStep(s, q)
  }

  // ----- runs -------------------------------------------------------------------------

  /** A run: a state after every event, from the empty system. */
  ghost predicate Run(ss: seq<System>, es: seq<Event>) {
    && |ss| == |es| + 1
    && ss[0] == Start(ss[0].policy, ss[0].maxWait, ss[0].clock)
    && forall i :: 0 <= i < |es| ==> Enabled(ss[i], es[i]) && ss[i + 1] == Step(ss[i], es[i])
  }
}
