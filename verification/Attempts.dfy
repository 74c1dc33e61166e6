/**
 * The attempts of the billing lifecycle against the pending entries of the routing protocol: every
 * step that takes an entry away is the protocol's removal, and it finds the entry exactly while
 * the attempt is still open.
 */
module Attempts {
  import opened Options
  import opened Fleet
  import opened Draining
  import opened Membership
  import opened Protocol
  import Dispatch

  /** The request id and the provider of an attempt. */
  datatype Route = Route(x: ReqId, provider: Id)

  predicate Listed(ps: map<Id, Provider>, route: Route) {
    route.provider in ps && route.x in ps[route.provider].pending
  }

  /** Every attempt has an id of its own, and its entry is listed exactly while it is present. */
  ghost predicate Linked(d: Dispatch.Request, s: System, routes: seq<Route>) {
    && |routes| == |d.attempts|
    && (forall i, j :: 0 <= i < j < |routes| ==> routes[i].x != routes[j].x)
    && (forall i :: 0 <= i < |routes| ==>
          (d.attempts[i].entry == Dispatch.Present <==> Listed(s.roster.providers, routes[i])))
  }

  /** The attempt that a step takes off its provider, and who does it. */
  function Removal(d: Dispatch.Request, e: Dispatch.Event): Option<(int, Taker)> {
    match e
    case Remove => Some((|d.attempts| - 1, Dispatcher))
    case Finish => Some((|d.attempts| - 1, Dispatcher))
    case Complete(i) => Some((i, Completion))
    case Fail(i) => Some((i, ProviderError))
    case _ => None
  }

  /** The step reserves a provider: a further attempt. */
  predicate Places(e: Dispatch.Event) {
    e == Dispatch.Route || e == Dispatch.GiveUp(true)
  }

  /** A removal touches the entry it names and no other. */
  lemma ReleaseListed(ps: map<Id, Provider>, gone: Route, route: Route)
    requires Listed(ps, gone) && (route.x != gone.x || route == gone)
    ensures Listed(ps[gone.provider := Released(ps[gone.provider], gone.x)], route) <==>
            Listed(ps, route) && route != gone
  {
  }

  lemma RemoveFleet(s: System, gone: Route, taker: Taker)
    ensures var t, ps := RemoveStep(s, gone.provider, gone.x, taker), s.roster.providers;
      if Listed(ps, gone) then
        t.roster.providers == ps[gone.provider := Released(ps[gone.provider], gone.x)]
      else t == s
  {
    hide Bump, Released;
  }

  lemma ReserveListed(ps: map<Id, Provider>, pr: Pending, id: Id, route: Route)
    requires id in ps
    ensures Listed(ps[id := Reserved(ps[id], pr)], Route(pr.id, id))
    ensures route.x != pr.id ==> (Listed(ps[id := Reserved(ps[id], pr)], route) <==> Listed(ps, route))
  {
  }

  lemma ReserveFleet(s: System, pr: Pending, id: Id)
    requires id in s.roster.providers
    ensures ReserveStep(s, pr, Some(id)).roster.providers ==
            s.roster.providers[id := Reserved(s.roster.providers[id], pr)]
  {
    hide Reserved;
  }

  lemma LeaveFleet(s: System, id: Id)
    ensures LeaveStep(s, id).roster.providers == s.roster.providers - {id}
  {
    hide Bump, Relabel;
    if id !in s.roster.providers {
      assert s.roster.providers - {id} == s.roster.providers;
    }
  }

  lemma RemovedEntries(d: Dispatch.Request, e: Dispatch.Event)
    requires Dispatch.Enabled(d, e) && Removal(d, e).Some?
    ensures var i := Removal(d, e).value.0;
      var t := Dispatch.Step(d, e);
      && 0 <= i < |d.attempts| == |t.attempts| && t.attempts[i].entry != Dispatch.Present
      && (d.attempts[i].entry != Dispatch.Present ==> t.attempts == d.attempts)
      && forall k :: 0 <= k < |d.attempts| && k != i ==> t.attempts[k] == d.attempts[k]
    ensures !(e.Remove? || e.Finish?) ==> d.attempts[Removal(d, e).value.0].entry == Dispatch.Present
  {
    var i := Removal(d, e).value.0;
    assert d.attempts[i := d.attempts[i]] == d.attempts;
  }

  /**
   * Whoever takes an attempt off its provider performs the protocol's removal. A completion or an
   * error finds the entry; the dispatcher finds it exactly when neither came first, and otherwise
   * changes nothing on either side.
   */
  lemma RemovalAgrees(d: Dispatch.Request, e: Dispatch.Event, s: System, routes: seq<Route>)
    requires Linked(d, s, routes) && Dispatch.Enabled(d, e) && Removal(d, e).Some?
    ensures var (i, taker) := Removal(d, e).value;
      && 0 <= i < |routes|
      && var r := Requests(Remove(routes[i].provider, routes[i].x, taker));
      && Enabled(s, r) && Linked(Dispatch.Step(d, e), Step(s, r), routes)
      && (taker != Dispatcher ==> Listed(s.roster.providers, routes[i]))
      && (!Listed(s.roster.providers, routes[i]) ==> Step(s, r) == s && Dispatch.Step(d, e).attempts == d.attempts)
  {
    RemovedEntries(d, e);
    var (i, taker) := Removal(d, e).value;
    var ps := s.roster.providers;
    hide Dispatch.Step, Dispatch.Enabled, RemoveStep, Listed, Released;
    RemoveFleet(s, routes[i], taker);
    if Listed(ps, routes[i]) {
      forall k | 0 <= k < |routes|
        ensures Listed(ps[routes[i].provider := Released(ps[routes[i].provider], routes[i].x)], routes[k]) <==>
                Listed(ps, routes[k]) && k != i
      {
        ReleaseListed(ps, routes[i], routes[k]);
      }
    }
  }

  /** A reservation for the request opens a further attempt, under an id that no attempt has. */
  lemma PlacementAgrees(d: Dispatch.Request, e: Dispatch.Event, s: System, routes: seq<Route>, pr: Pending, id: Id)
    requires Linked(d, s, routes) && Dispatch.Enabled(d, e) && Places(e) && id in s.roster.providers
    requires forall i :: 0 <= i < |routes| ==> routes[i].x != pr.id
    ensures Linked(Dispatch.Step(d, e), ReserveStep(s, pr, Some(id)), routes + [Route(pr.id, id)])
  {
    hide Listed, ReserveStep, Reserved;
    var ps, longer := s.roster.providers, routes + [Route(pr.id, id)];
    ReserveFleet(s, pr, id);
    ReserveListed(ps, pr, id, Route(pr.id, id));
    forall i | 0 <= i < |routes|
      ensures longer[i] == routes[i] && (Listed(ps[id := Reserved(ps[id], pr)], routes[i]) <==> Listed(ps, routes[i]))
    {
      ReserveListed(ps, pr, id, routes[i]);
    }
  }

  /** Every other step leaves all entries where they are. */
  lemma OthersAgree(d: Dispatch.Request, e: Dispatch.Event, s: System, routes: seq<Route>)
    requires Linked(d, s, routes) && Dispatch.Enabled(d, e) && Removal(d, e).None? && !Places(e)
    ensures Linked(Dispatch.Step(d, e), s, routes)
  {
    hide Listed;
  }

  /** A disconnect fails every attempt that is still listed on the provider. */
  function FailUpTo(d: Dispatch.Request, routes: seq<Route>, id: Id, n: nat): (t: Dispatch.Request)
    requires n <= |routes| == |d.attempts|
    ensures |t.attempts| == |d.attempts|
    ensures forall k :: 0 <= k < |routes| ==>
      (t.attempts[k].entry == Dispatch.Present <==>
       d.attempts[k].entry == Dispatch.Present && !(k < n && routes[k].provider == id))
  {
    if n == 0 then d
    else
      var t := FailUpTo(d, routes, id, n - 1);
      if routes[n - 1].provider == id && Dispatch.Enabled(t, Dispatch.Fail(n - 1)) then
        Dispatch.Step(t, Dispatch.Fail(n - 1))
      else t
  }

  lemma DisconnectAgrees(d: Dispatch.Request, s: System, routes: seq<Route>, id: Id)
    requires Linked(d, s, routes)
    ensures Linked(FailUpTo(d, routes, id, |routes|), LeaveStep(s, id), routes)
  {
    hide LeaveStep;
    LeaveFleet(s, id);
  }
}
