/**
 * The two-pass choice among routing candidates: collect the cheapest and everything
 * within the near-tie window of it, keep those with the least queue depth and then
 * the least total pending, and draw one of them at random.
 */
module Selection {
  import opened Options
  import opened Fleet

  const NEAR_TIE_WINDOW := 3000.0

  function Abs(x: real): real { if x < 0.0 then -x else x }

  ghost function Members(cs: seq<Candidate>): set<Candidate> { set c | c in cs }

  /** c costs at most the window more than every other candidate. */
  ghost predicate Near(c: Candidate, all: set<Candidate>) {
    forall d :: d in all ==> c.costMs <= d.costMs + NEAR_TIE_WINDOW
  }

  predicate NoMoreLoaded(c: Candidate, d: Candidate) {
    c.effectiveQueue < d.effectiveQueue || (c.effectiveQueue == d.effectiveQueue && c.totalPending <= d.totalPending)
  }

  /** Reference definition of an admissible winner, on the unordered set of candidates. */
  ghost predicate Wins(c: Candidate, all: set<Candidate>) {
    c in all && Near(c, all) && forall d :: d in all && Near(d, all) ==> NoMoreLoaded(c, d)
  }

  /** The candidates satisfying f, in order. */
  ghost function Keep(cs: seq<Candidate>, f: Candidate -> bool): (ks: seq<Candidate>)
    ensures forall c :: c in ks <==> c in cs && f(c)
  {
    if cs == [] then []
    else
      var n := |cs| - 1;
      Keep(cs[..n], f) + if f(cs[n]) then [cs[n]] else []
  }

  ghost function Winners(cs: seq<Candidate>): seq<Candidate> {
    Keep(cs, (c: Candidate) => Wins(c, Members(cs)))
  }

  /** The candidates within the window of the cheapest, in order. */
  ghost function Ties(cs: seq<Candidate>): seq<Candidate> {
    Keep(cs, (c: Candidate) => Near(c, Members(cs)))
  }

  /** A draw from a non-empty list, as rand.Intn makes it. */
  function Drawn(ws: seq<Candidate>, draw: nat): (c: Candidate)
    requires ws != []
    ensures c in ws
    ensures |ws| == 1 ==> c == ws[0]
    ensures draw < |ws| ==> c == ws[draw]
  {
    ws[draw % |ws|]
  }

  lemma {:induction false} KeepStep(cs: seq<Candidate>, f: Candidate -> bool, i: nat)
    requires i < |cs|
    ensures Keep(cs[..i + 1], f) == Keep(cs[..i], f) + if f(cs[i]) then [cs[i]] else []
  {
    assert cs[..i + 1][..i] == cs[..i];
  }

  lemma {:induction false} KeepAgree(cs: seq<Candidate>, f: Candidate -> bool, g: Candidate -> bool)
    requires forall c :: c in cs ==> f(c) == g(c)
    ensures Keep(cs, f) == Keep(cs, g)
  {
    if cs != [] {
      KeepAgree(cs[..|cs| - 1], f, g);
    }
  }

  lemma {:induction false} KeepKeep(cs: seq<Candidate>, f: Candidate -> bool, g: Candidate -> bool)
    ensures Keep(Keep(cs, f), g) == Keep(cs, (c: Candidate) => f(c) && g(c))
  {
    if cs != [] {
      var n := |cs| - 1;
      KeepKeep(cs[..n], f, g);
      if f(cs[n]) {
        assert Keep(cs, f)[..|Keep(cs, f)| - 1] == Keep(cs[..n], f);
      } else {
        assert Keep(cs, f) == Keep(cs[..n], f);
      }
    }
  }

  /** First pass: the cheapest candidate, first in order among equals. */
  method Cheapest(cs: seq<Candidate>) returns (best: Candidate)
    requires cs != []
    ensures best in cs
    ensures forall d :: d in cs ==> best.costMs <= d.costMs
  {
    best := cs[0];
    for i := 0 to |cs|
      invariant best in cs
      invariant forall j :: 0 <= j < i ==> best.costMs <= cs[j].costMs
    {
      if cs[i].costMs < best.costMs {
        best := cs[i];
      }
    }
  }

  method NearTies(cs: seq<Candidate>, best: Candidate) returns (ties: seq<Candidate>)
    requires best in cs && forall d :: d in cs ==> best.costMs <= d.costMs
    ensures ties == Ties(cs)
  {
    ties := [];
    ghost var near := (c: Candidate) => Near(c, Members(cs));
    for i := 0 to |cs|
      invariant ties == Keep(cs[..i], near)
    {
      KeepStep(cs, near, i);
      assert Near(cs[i], Members(cs)) <==> cs[i].costMs <= best.costMs + NEAR_TIE_WINDOW;
      if Abs(cs[i].costMs - best.costMs) <= NEAR_TIE_WINDOW {
        ties := ties + [cs[i]];
      }
    }
    assert cs[..|cs|] == cs;
    KeepAgree(cs, near, (c: Candidate) => Near(c, Members(cs)));
  }

  method LeastLoaded(ties: seq<Candidate>) returns (winner: Candidate)
    requires ties != []
    ensures winner in ties
    ensures forall d :: d in ties ==> NoMoreLoaded(winner, d)
  {
    winner := ties[0];
    for i := 1 to |ties|
      invariant winner in ties
      invariant forall j :: 0 <= j < i ==> NoMoreLoaded(winner, ties[j])
    {
      var c := ties[i];
      if c.effectiveQueue < winner.effectiveQueue {
        winner := c;
      } else if c.effectiveQueue == winner.effectiveQueue && c.totalPending < winner.totalPending {
        winner := c;
      }
    }
  }

  /**
   * The candidates tied with the least loaded one. All near ties lie in the window above
   * the minimum cost, so the source's last test never excludes any of them.
   */
  method Equivalents(cs: seq<Candidate>, ties: seq<Candidate>, least: Candidate) returns (equivalent: seq<Candidate>)
    requires ties == Ties(cs)
    requires least in ties && forall d :: d in ties ==> NoMoreLoaded(least, d)
    ensures equivalent == Winners(cs)
    ensures least in equivalent
  {
    equivalent := [];
    ghost var same := (c: Candidate) =>
      c.effectiveQueue == least.effectiveQueue && c.totalPending == least.totalPending;
    for i := 0 to |ties|
      invariant equivalent == Keep(ties[..i], same)
    {
      KeepStep(ties, same, i);
      WindowTestRedundant(cs, ties, ties[i], least);
      if && ties[i].effectiveQueue == least.effectiveQueue
         && ties[i].totalPending == least.totalPending
         && Abs(ties[i].costMs - least.costMs) <= NEAR_TIE_WINDOW {
        equivalent := equivalent + [ties[i]];
      }
    }
    assert ties[..|ties|] == ties;
    EquivalentAreWinners(cs, ties, least, same);
  }

  lemma WindowTestRedundant(cs: seq<Candidate>, ties: seq<Candidate>, c: Candidate, d: Candidate)
    requires ties == Ties(cs)
    requires c in ties && d in ties
    ensures Abs(c.costMs - d.costMs) <= NEAR_TIE_WINDOW
  {
    assert c in Members(cs) && d in Members(cs);
  }

  /**
   * The whole choice. Whatever order the candidates come in, the result is drawn from
   * exactly the candidates that Wins describes.
   */
  method SelectBest(cs: seq<Candidate>, draw: nat) returns (winner: Option<Candidate>)
    ensures winner.None? <==> cs == []
    ensures cs != [] ==> |Winners(cs)| > 0 && winner == Some(Drawn(Winners(cs), draw))
  {
    if cs == [] {
      return None;
    }
    var best := Cheapest(cs);
    var ties := NearTies(cs, best);
    CheapestIsNear(cs, best);
    hide Winners, Ties, Drawn;
    if |ties| <= 1 {
      SoleTieWins(cs, ties, best);
      return Some(best);
    }
    var least := LeastLoaded(ties);
    var equivalent := Equivalents(cs, ties, least);
    if |equivalent| > 1 {
      return Some(Drawn(equivalent, draw));
    } else {
      assert equivalent == [least];
      return Some(least);
    }
  }

  lemma CheapestIsNear(cs: seq<Candidate>, best: Candidate)
    requires best in cs && forall d :: d in cs ==> best.costMs <= d.costMs
    ensures best in Ties(cs)
  {
    assert Near(best, Members(cs));
  }

  lemma SoleTieWins(cs: seq<Candidate>, ties: seq<Candidate>, best: Candidate)
    requires ties == Ties(cs)
    requires best in ties && |ties| <= 1
    ensures Winners(cs) == [best]
  {
    assert ties == [best];
    forall c | c in cs ensures Wins(c, Members(cs)) == Near(c, Members(cs)) {
      if Near(c, Members(cs)) {
        assert c in ties;
        forall d | d in Members(cs) && Near(d, Members(cs)) ensures NoMoreLoaded(c, d) {
          assert d in ties;
        }
      }
    }
    KeepAgree(cs, (c: Candidate) => Near(c, Members(cs)), (c: Candidate) => Wins(c, Members(cs)));
  }

  lemma EquivalentAreWinners(cs: seq<Candidate>, ties: seq<Candidate>, least: Candidate, same: Candidate -> bool)
    requires ties == Ties(cs)
    requires least in ties && forall d :: d in ties ==> NoMoreLoaded(least, d)
    requires forall c :: same(c) == (c.effectiveQueue == least.effectiveQueue && c.totalPending == least.totalPending)
    ensures Keep(ties, same) == Winners(cs)
    ensures least in Keep(ties, same)
  {
    var near := (c: Candidate) => Near(c, Members(cs));
    KeepKeep(cs, near, same);
    forall c | c in cs ensures (near(c) && same(c)) == Wins(c, Members(cs)) {
      if near(c) && same(c) {
        forall d | d in Members(cs) && Near(d, Members(cs)) ensures NoMoreLoaded(c, d) {
          assert d in ties;
        }
      }
      if Wins(c, Members(cs)) {
        assert c in ties && least in Members(cs);
        assert NoMoreLoaded(c, least) && NoMoreLoaded(least, c);
      }
    }
    KeepAgree(cs, (c: Candidate) => near(c) && same(c), (c: Candidate) => Wins(c, Members(cs)));
  }

  /** The candidate the code returns for an iteration order and a random draw. */
  ghost function Choice(cs: seq<Candidate>, draw: nat): Candidate
    requires |Winners(cs)| > 0
  {
    Drawn(Winners(cs), draw)
  }

  lemma {:induction false} SomeCheapest(cs: seq<Candidate>) returns (best: Candidate)
    requires cs != []
    ensures best in cs && forall d :: d in cs ==> best.costMs <= d.costMs
  {
    best := cs[0];
    if |cs| > 1 {
      var rest := SomeCheapest(cs[1..]);
      if rest.costMs < cs[0].costMs { best := rest; }
    }
  }

  lemma {:induction false} SomeLeastLoaded(cs: seq<Candidate>) returns (least: Candidate)
    requires cs != []
    ensures least in cs && forall d :: d in cs ==> NoMoreLoaded(least, d)
  {
    least := cs[0];
    if |cs| > 1 {
      var rest := SomeLeastLoaded(cs[1..]);
      if !NoMoreLoaded(cs[0], rest) { least := rest; }
      forall d | d in cs ensures NoMoreLoaded(least, d) {
        assert d == cs[0] || d in cs[1..];
      }
    }
  }

  lemma WinnerExists(cs: seq<Candidate>)
    requires cs != []
    ensures |Winners(cs)| > 0
  {
    var best := SomeCheapest(cs);
    var near := Keep(cs, (c: Candidate) => Near(c, Members(cs)));
    assert Near(best, Members(cs)) && best in near;
    var least := SomeLeastLoaded(near);
    forall d | d in Members(cs) && Near(d, Members(cs)) ensures NoMoreLoaded(least, d) {
      assert d in near;
    }
    assert least in Winners(cs);
  }

  lemma WinnersWin(cs: seq<Candidate>, c: Candidate)
    ensures c in Winners(cs) <==> Wins(c, Members(cs))
  {
    hide Near, NoMoreLoaded;
  }

  lemma ChoicesAreWinners(cs: seq<Candidate>, draw: nat)
    requires |Winners(cs)| > 0
    ensures Choice(cs, draw) in Winners(cs)
    ensures draw < |Winners(cs)| ==> Choice(cs, draw) == Winners(cs)[draw]
  {
    hide Winners, Drawn;
  }

  /**
   * Order independence, both ways: over all draws, the providers the code can return for
   * an iteration order are exactly the winners of the candidate set, so two orders of the
   * same candidates have the same possible outcomes.
   */
  lemma PossibleOutcomes(cs: seq<Candidate>, c: Candidate)
    requires cs != []
    ensures |Winners(cs)| > 0
    ensures Wins(c, Members(cs)) <==> exists draw: nat :: Choice(cs, draw) == c
  {
    hide Winners, Wins, Choice, Members;
    WinnerExists(cs);
    WinnersWin(cs, c);
    if c in Winners(cs) {
      var k: nat :| k < |Winners(cs)| && Winners(cs)[k] == c;
      ChoicesAreWinners(cs, k);
    }
    if draw: nat :| Choice(cs, draw) == c {
      ChoicesAreWinners(cs, draw);
    }
  }

  lemma OrderIndependent(cs: seq<Candidate>, ds: seq<Candidate>, c: Candidate)
    requires cs != [] && multiset(cs) == multiset(ds)
    ensures |Winners(cs)| > 0 && |Winners(ds)| > 0
    ensures (exists i: nat :: Choice(cs, i) == c) <==> (exists j: nat :: Choice(ds, j) == c)
  {
    forall x ensures x in cs <==> x in ds {
      assert x in cs <==> x in multiset(cs);
      assert x in ds <==> x in multiset(ds);
    }
    assert Members(cs) == Members(ds);
    assert cs[0] in ds;
    hide Winners, Wins, Choice, Members;
    PossibleOutcomes(cs, c);
    PossibleOutcomes(ds, c);
  }

  /** Of two near ties the shorter queue wins, whatever else is pending; beyond the window nothing helps. */
  lemma ShorterQueueWins(a: Candidate, b: Candidate, c: Candidate)
    requires a.costMs + 3000.0 == b.costMs && b.costMs < c.costMs
    requires b.effectiveQueue < a.effectiveQueue
    ensures !Wins(a, {a, b, c}) && Wins(b, {a, b, c}) && !Wins(c, {a, b, c})
  {
    assert Near(a, {a, b, c}) && Near(b, {a, b, c}) && !Near(c, {a, b, c});
  }

  /** With equal queues the one with less pending wins; only full ties leave a choice. */
  lemma LessPendingWins(a: Candidate, b: Candidate)
    requires a.costMs - 3000.0 <= b.costMs <= a.costMs + 3000.0 && a.effectiveQueue == b.effectiveQueue
    ensures Wins(a, {a, b}) <==> a.totalPending <= b.totalPending
    ensures Wins(b, {a, b}) <==> b.totalPending <= a.totalPending
  {
    assert Near(a, {a, b}) && Near(b, {a, b});
  }
}
