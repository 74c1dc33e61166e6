/**
 * The writer that seals a response on its way to the client: one sealed frame per server-sent
 * event, or one sealed envelope for any other body. Sealing is abstract: the n-th call seals
 * with its own nonce, and may fail.
 */
module Sealing {
  import opened Options

  newtype Byte = x: int | 0 <= x < 256

  type Bytes = seq<Byte>

  const LF: Byte := 10
  const BREAK: Bytes := [LF, LF]
  const DATA: Bytes := [100, 97, 116, 97, 58, 32]  // "data: "

  // ----- cutting a stream into events -----------------------------------------------

  predicate BreakAt(s: Bytes, i: int) {
    0 <= i && i + 1 < |s| && s[i] == LF && s[i + 1] == LF
  }

  ghost predicate Unbroken(s: Bytes) {
    forall i :: !BreakAt(s, i)
  }

  /** The position of the first LF LF, if there is one. */
  function FirstBreak(s: Bytes): (r: Option<nat>)
    ensures r.Some? ==> BreakAt(s, r.value) && forall i :: 0 <= i < r.value ==> !BreakAt(s, i)
    ensures r.None? ==> Unbroken(s)
  {
    if |s| < 2 then None
    else if BreakAt(s, 0) then Some(0)
    else
      var r := FirstBreak(s[1..]);
      assert forall i :: 1 <= i ==> BreakAt(s, i) == BreakAt(s[1..], i - 1);
      if r.Some? then Some(r.value + 1) else None
  }

  lemma FirstBreakIs(s: Bytes, i: nat)
    requires BreakAt(s, i) && forall j :: 0 <= j < i ==> !BreakAt(s, j)
    ensures FirstBreak(s) == Some(i)
  {
    assert FirstBreak(s).Some?;
  }

  /** The complete events of a stream, cut greedily from the left. */
  function Events(s: Bytes): seq<Bytes>
    decreases |s|
  {
    var r := FirstBreak(s);
    if r.None? then [] else [s[..r.value]] + Events(s[r.value + 2..])
  }

  /** What follows the last complete event. */
  function Tail(s: Bytes): Bytes
    decreases |s|
  {
    var r := FirstBreak(s);
    if r.None? then s else Tail(s[r.value + 2..])
  }

  function Frames(s: Bytes): seq<Bytes> {
    if Tail(s) == [] then Events(s) else Events(s) + [Tail(s)]
  }

  lemma BreakExtends(s: Bytes, t: Bytes, i: nat)
    requires FirstBreak(s) == Some(i)
    ensures FirstBreak(s + t) == Some(i)
  {
    assert BreakAt(s, i);
    forall j | 0 <= j < i ensures !BreakAt(s + t, j) {
      assert !BreakAt(s, j);
    }
    FirstBreakIs(s + t, i);
  }

  lemma NoEvents(s: Bytes)
    requires Unbroken(s)
    ensures Events(s) == [] && Tail(s) == s
  {
  }

  lemma BreakSplits(s: Bytes, i: nat)
    requires BreakAt(s, i)
    ensures s == s[..i] + BREAK + s[i + 2..]
  {
    assert s[i..i + 2] == BREAK;
    assert s == s[..i] + s[i..i + 2] + s[i + 2..];
  }

  lemma CutFirst(s: Bytes, i: nat)
    requires FirstBreak(s) == Some(i)
    ensures i + 2 <= |s| && s == s[..i] + BREAK + s[i + 2..]
    ensures Events(s) == [s[..i]] + Events(s[i + 2..]) && Tail(s) == Tail(s[i + 2..])
  {
    assert BreakAt(s, i);
    BreakSplits(s, i);
    hide FirstBreak;
  }

  /** More input never changes the events already found: only the tail is looked at again. */
  lemma {:induction false} EventsExtend(s: Bytes, t: Bytes)
    ensures Events(s + t) == Events(s) + Events(Tail(s) + t)
    ensures Tail(s + t) == Tail(Tail(s) + t)
    decreases |s|
  {
    var r := FirstBreak(s);
    if r.Some? {
      var i := r.value;
      BreakExtends(s, t, i);
      assert (s + t)[..i] == s[..i] && (s + t)[i + 2..] == s[i + 2..] + t;
      EventsExtend(s[i + 2..], t);
    }
  }

  // ----- what the cut means -----------------------------------------------------------

  function Join(es: seq<Bytes>): Bytes {
    if es == [] then [] else es[0] + BREAK + Join(es[1..])
  }

  /** An event ends at the first break after it starts. */
  ghost predicate Minimal(e: Bytes) {
    FirstBreak(e + BREAK) == Some(|e|)
  }

  lemma TakeThroughBreak(s: Bytes, i: nat)
    requires BreakAt(s, i)
    ensures s[..i + 2] == s[..i] + BREAK
  {
  }

  lemma FirstIsMinimal(s: Bytes, i: nat)
    requires FirstBreak(s) == Some(i)
    ensures i <= |s| && Minimal(s[..i])
  {
    assert BreakAt(s, i);
    TakeThroughBreak(s, i);
    var t := s[..i + 2];
    hide FirstBreak;
    forall j | 0 <= j < i ensures !BreakAt(t, j) {
      assert !BreakAt(s, j);
      assert t[j] == s[j] && t[j + 1] == s[j + 1];
    }
    assert t[i] == s[i] && t[i + 1] == s[i + 1];
    FirstBreakIs(t, i);
  }

  lemma JoinCons(e: Bytes, es: seq<Bytes>, t: Bytes)
    ensures Join([e] + es) + t == e + BREAK + (Join(es) + t)
  {
    assert ([e] + es)[1..] == es;
    assert e + BREAK + Join(es) + t == e + BREAK + (Join(es) + t);
  }

  lemma {:induction false} EventsRejoin(s: Bytes)
    ensures Join(Events(s)) + Tail(s) == s
    decreases |s|
  {
    var r := FirstBreak(s);
    if r.None? {
      NoEvents(s);
      assert Join([]) + s == s;
    } else {
      hide FirstBreak, Events, Tail, Join;
      CutFirst(s, r.value);
      var e, rest := s[..r.value], s[r.value + 2..];
      EventsRejoin(rest);
      JoinCons(e, Events(rest), Tail(rest));
    }
  }

  lemma {:induction false} EventsAreMinimal(s: Bytes)
    ensures Unbroken(Tail(s))
    ensures forall i :: 0 <= i < |Events(s)| ==> Minimal(Events(s)[i])
    decreases |s|
  {
    var r := FirstBreak(s);
    if r.Some? {
      FirstIsMinimal(s, r.value);
      CutFirst(s, r.value);
      EventsAreMinimal(s[r.value + 2..]);
      hide Minimal, FirstBreak, Events, Tail, Unbroken;
    }
  }

  /** The cut is the only one: minimal events and an unbroken tail determine it. */
  lemma {:induction false} CutIsUnique(es: seq<Bytes>, t: Bytes)
    requires Unbroken(t) && forall i :: 0 <= i < |es| ==> Minimal(es[i])
    ensures Events(Join(es) + t) == es && Tail(Join(es) + t) == t
    decreases |es|
  {
    if es == [] {
      assert Join(es) + t == t;
      NoEvents(t);
    } else {
      var e, rest := es[0], Join(es[1..]) + t;
      assert es == [e] + es[1..];
      JoinCons(e, es[1..], t);
      assert Minimal(e);
      BreakExtends(e + BREAK, rest, |e|);
      CutIsUnique(es[1..], t);
      hide Join, Minimal, FirstBreak, Unbroken;
      CutFirst(e + BREAK + rest, |e|);
      FrontAndBack(e, rest);
      hide Events, Tail;
    }
  }

  lemma FrontAndBack(e: Bytes, rest: Bytes)
    ensures (e + BREAK + rest)[..|e|] == e && (e + BREAK + rest)[|e| + 2..] == rest
  {
  }

  lemma {:induction false} JoinSnoc(es: seq<Bytes>, e: Bytes)
    ensures Join(es + [e]) == Join(es) + (e + BREAK)
    decreases |es|
  {
    if es == [] {
      assert es + [e] == [e] && Join([e][1..]) == [];
    } else {
      assert (es + [e])[1..] == es[1..] + [e];
      JoinSnoc(es[1..], e);
    }
  }

  /** A client that puts the frames back together gets the stream, up to a break after an unfinished last event. */
  lemma Rejoin(s: Bytes)
    ensures Join(Frames(s)) == if Tail(s) == [] then s else s + BREAK
  {
    EventsRejoin(s);
    hide Events, Tail, Join;
    if Tail(s) != [] {
      JoinSnoc(Events(s), Tail(s));
      Associate(Join(Events(s)), Tail(s), BREAK);
    } else {
      assert Join(Events(s)) + [] == Join(Events(s));
    }
  }

  // ----- sealed frames on the wire -------------------------------------------------------

  /** The n-th sealing, base64 text included; None when the source of randomness fails. */
  type Sealer = (nat, Bytes) -> Option<Bytes>

  function Framed(sealed: Option<Bytes>): Bytes {
    if sealed.Some? then DATA + sealed.value + BREAK else []
  }

  /** What is written for a list of events, the first of them sealed by call n. */
  function Wire(seal: Sealer, n: nat, es: seq<Bytes>): Bytes
    decreases |es|
  {
    if es == [] then [] else Framed(seal(n, es[0])) + Wire(seal, n + 1, es[1..])
  }

  lemma WireCons(seal: Sealer, n: nat, e: Bytes, es: seq<Bytes>)
    ensures Wire(seal, n, [e] + es) == Framed(seal(n, e)) + Wire(seal, n + 1, es)
  {
    assert ([e] + es)[1..] == es;
    hide Framed;
  }

  lemma {:induction false} WireConcat(seal: Sealer, n: nat, es: seq<Bytes>, fs: seq<Bytes>)
    ensures Wire(seal, n, es + fs) == Wire(seal, n, es) + Wire(seal, n + |es|, fs)
    decreases |es|
  {
    hide Wire, Framed;
    if es == [] {
      assert es + fs == fs;
      NothingWritten(seal, n);
    } else {
      var e, rest := es[0], es[1..];
      ConsAppend(es, fs);
      WireCons(seal, n, e, rest);
      WireCons(seal, n, e, rest + fs);
      WireConcat(seal, n + 1, rest, fs);
      assert n + 1 + |rest| == n + |es|;
      Associate(Framed(seal(n, e)), Wire(seal, n + 1, rest), Wire(seal, n + |es|, fs));
    }
  }

  lemma ConsAppend(es: seq<Bytes>, fs: seq<Bytes>)
    requires es != []
    ensures es == [es[0]] + es[1..] && es + fs == [es[0]] + (es[1..] + fs)
  {
  }

  lemma Associate(a: Bytes, b: Bytes, c: Bytes)
    ensures a + b + c == a + (b + c)
  {
  }

  lemma NothingWritten(seal: Sealer, n: nat)
    ensures Wire(seal, n, []) == []
  {
  }

  lemma WireSnoc(seal: Sealer, n: nat, es: seq<Bytes>, e: Bytes)
    ensures Wire(seal, n, es + [e]) == Wire(seal, n, es) + Framed(seal(n + |es|, e))
  {
    WireConcat(seal, n, es, [e]);
    WireOne(seal, n + |es|, e);
  }

  lemma WireOne(seal: Sealer, n: nat, e: Bytes)
    ensures Wire(seal, n, [e]) == Framed(seal(n, e))
  {
    assert [e][1..] == [];
  }

  // ----- the client -----------------------------------------------------------------------

  /** Opening undoes sealing, and sealed text has no line feeds. */
  ghost predicate Opens(seal: Sealer, open: Bytes -> Bytes) {
    forall n, e :: seal(n, e).Some? ==> open(seal(n, e).value) == e && LF !in seal(n, e).value
  }

  /** The frames whose sealing succeeded, in order. */
  function Survivors(seal: Sealer, n: nat, es: seq<Bytes>): seq<Bytes>
    decreases |es|
  {
    if es == [] then []
    else (if seal(n, es[0]).Some? then [es[0]] else []) + Survivors(seal, n + 1, es[1..])
  }

  /** What the client reads: each event's payload after its field name, opened. */
  function Read(lines: seq<Bytes>, open: Bytes -> Bytes): seq<Bytes> {
    if lines == [] then []
    else
      var field := |lines[0]| >= |DATA| && lines[0][..|DATA|] == DATA;
      (if field then [open(lines[0][|DATA|..])] else []) + Read(lines[1..], open)
  }

  function Lines(seal: Sealer, n: nat, es: seq<Bytes>): seq<Bytes>
    decreases |es|
  {
    if es == [] then []
    else (if seal(n, es[0]).Some? then [DATA + seal(n, es[0]).value] else []) + Lines(seal, n + 1, es[1..])
  }

  lemma {:induction false} WireIsLines(seal: Sealer, n: nat, es: seq<Bytes>)
    ensures Wire(seal, n, es) == Join(Lines(seal, n, es))
    decreases |es|
  {
    if es != [] {
      WireIsLines(seal, n + 1, es[1..]);
      var rest := Lines(seal, n + 1, es[1..]);
      if seal(n, es[0]).Some? {
        var line := DATA + seal(n, es[0]).value;
        assert ([line] + rest)[1..] == rest;
      } else {
        assert [] + rest == rest;
      }
    }
  }

  lemma NoFeedIsMinimal(e: Bytes)
    requires LF !in e
    ensures Minimal(e)
  {
    forall j | 0 <= j < |e| ensures !BreakAt(e + BREAK, j) {
      assert (e + BREAK)[j] == e[j] && e[j] in e;
    }
    assert BreakAt(e + BREAK, |e|);
    FirstBreakIs(e + BREAK, |e|);
  }

  lemma {:induction false} LinesAreMinimal(seal: Sealer, open: Bytes -> Bytes, n: nat, es: seq<Bytes>)
    requires Opens(seal, open)
    ensures forall i :: 0 <= i < |Lines(seal, n, es)| ==> Minimal(Lines(seal, n, es)[i])
    decreases |es|
  {
    if es != [] {
      LinesAreMinimal(seal, open, n + 1, es[1..]);
      if seal(n, es[0]).Some? {
        NoFeedIsMinimal(DATA + seal(n, es[0]).value);
      }
    }
  }

  lemma {:induction false} LinesAreRead(seal: Sealer, open: Bytes -> Bytes, n: nat, es: seq<Bytes>)
    requires Opens(seal, open)
    ensures Read(Lines(seal, n, es), open) == Survivors(seal, n, es)
    decreases |es|
  {
    if es != [] {
      LinesAreRead(seal, open, n + 1, es[1..]);
      var rest := Lines(seal, n + 1, es[1..]);
      if seal(n, es[0]).Some? {
        var sealed := seal(n, es[0]).value;
        assert (DATA + sealed)[..|DATA|] == DATA && (DATA + sealed)[|DATA|..] == sealed;
        assert ([DATA + sealed] + rest)[1..] == rest;
      } else {
        assert [] + rest == rest;
      }
    }
  }

  /**
   * The client's own event parser, run over the sealed stream, yields the frames of the
   * original stream, in order, but for those whose sealing failed.
   */
  lemma ClientReadsFrames(seal: Sealer, open: Bytes -> Bytes, s: Bytes)
    requires Opens(seal, open)
    ensures var wire := Wire(seal, 0, Frames(s));
      Read(Events(wire), open) == Survivors(seal, 0, Frames(s)) && Tail(wire) == []
  {
    var lines := Lines(seal, 0, Frames(s));
    WireIsLines(seal, 0, Frames(s));
    LinesAreMinimal(seal, open, 0, Frames(s));
    CutIsUnique(lines, []);
    assert Join(lines) + [] == Join(lines);
    LinesAreRead(seal, open, 0, Frames(s));
  }

  lemma {:induction false} AllSurvive(seal: Sealer, n: nat, es: seq<Bytes>)
    requires forall k, e :: seal(k, e).Some?
    ensures Survivors(seal, n, es) == es
    decreases |es|
  {
    if es != [] {
      AllSurvive(seal, n + 1, es[1..]);
    }
  }

  // ----- the writer ---------------------------------------------------------------------------

  datatype Mode = Undecided | Buffered | EventStream

  class SealingWriter {
    const seal: Sealer
    const canFlush: bool
    var mode: Mode
    var status: int
    var body: Bytes
    var scratch: Bytes
    var calls: nat
    var out: Bytes
    var outStatus: Option<int>
    ghost var written: Bytes

    /** However the bytes arrived, the sealed events are those of everything written so far. */
    ghost predicate Valid()
      reads this
    {
      match mode
      case Undecided => written == [] && body == [] && scratch == [] && out == [] && calls == 0
      case Buffered => body == written && out == [] && calls == 0
      case EventStream =>
        && scratch == Tail(written) && calls == |Events(written)|
        && out == Wire(seal, 0, Events(written))
    }

    constructor (seal: Sealer, canFlush: bool)
      ensures Valid() && mode == Undecided && written == []
      ensures this.seal == seal && this.canFlush == canFlush && outStatus == None && status == 200
    {
      this.seal, this.canFlush := seal, canFlush;
      mode, status, body, scratch, calls, out, outStatus := Undecided, 200, [], [], 0, [], None;
      written := [];
    }

    /** The first header decides the mode, by the content type set at that moment. */
    method WriteHeader(code: int, eventStream: bool)
      requires Valid()
      modifies this
      ensures Valid() && written == old(written) && out == old(out) && body == old(body) && scratch == old(scratch)
      ensures old(mode) != Undecided ==> mode == old(mode) && status == old(status) && outStatus == old(outStatus)
      ensures old(mode) == Undecided ==>
        && mode == (if eventStream then EventStream else Buffered) && status == code
        && outStatus == if eventStream then Some(code) else old(outStatus)
    {
      if mode != Undecided {
        return;
      }
      status := code;
      if eventStream {
        mode := EventStream;
        outStatus := Some(code);
        return;
      }
      mode := Buffered;
    }

    method FlushCompleteEvents()
      modifies this`scratch, this`calls, this`out
      ensures scratch == Tail(old(scratch)) && calls == old(calls) + |Events(old(scratch))|
      ensures out == old(out) + Wire(seal, old(calls), Events(old(scratch)))
    {
      hide Events, Tail, Wire, Framed;
      ghost var done: seq<Bytes> := [];
      NothingWritten(seal, calls);
      while true
        invariant Events(old(scratch)) == done + Events(scratch) && Tail(old(scratch)) == Tail(scratch)
        invariant calls == old(calls) + |done| && out == old(out) + Wire(seal, old(calls), done)
        decreases |scratch|
      {
        var idx := FirstBreak(scratch);
        if idx.None? {
          NoEvents(scratch);
          assert done + [] == done;
          return;
        }
        CutFirst(scratch, idx.value);
        var event := scratch[..idx.value];
        scratch := scratch[idx.value + 2..];
        var sealed := seal(calls, event);
        WireSnoc(seal, old(calls), done, event);
        calls := calls + 1;
        out := out + Framed(sealed);
        assert done + ([event] + Events(scratch)) == (done + [event]) + Events(scratch);
        done := done + [event];
      }
    }

    method WriteSSE(p: Bytes)
      requires Valid() && mode == EventStream
      modifies this`scratch, this`calls, this`out, this`written
      ensures Valid() && written == old(written) + p
    {
      hide Events, Tail, Wire;
      ghost var events := Events(scratch + p);
      EventsExtend(written, p);
      WireConcat(seal, 0, Events(written), events);
      scratch := scratch + p;
      FlushCompleteEvents();
      written := written + p;
    }

    method Write(p: Bytes, eventStream: bool) returns (n: nat)
      requires Valid()
      modifies this
      ensures Valid() && written == old(written) + p && n == |p|
      ensures mode == if old(mode) != Undecided then old(mode) else if eventStream then EventStream else Buffered
      ensures status == if old(mode) != Undecided then old(status) else 200
    {
      hide Events, Tail, Wire;
      if mode == Undecided {
        WriteHeader(200, eventStream);
      }
      if mode == EventStream {
        WriteSSE(p);
      } else {
        body := body + p;
        written := written + p;
      }
      n := |p|;
    }

    /** A flush never cuts an event short: it changes nothing that the client will see. */
    method Flush()
      requires Valid()
      modifies this`scratch, this`calls, this`out
      ensures Valid() && out == old(out) && scratch == old(scratch) && calls == old(calls)
    {
      if !canFlush {
        return;
      }
      if mode == EventStream {
        EventsAreMinimal(written);
        assert Events(scratch) == [] && Tail(scratch) == scratch;
        FlushCompleteEvents();
      }
    }

    /**
     * The client gets one sealed frame per event of the whole stream and one for an unfinished tail,
     * or one sealed body.
     */
    method Finish()
      requires Valid()
      modifies this
      ensures written == old(written) && mode == old(mode)
      ensures mode == EventStream ==> out == Wire(seal, 0, Frames(written)) && outStatus == old(outStatus)
      ensures mode == Undecided ==> out == [] && outStatus == old(outStatus)
      ensures mode == Buffered ==>
        if seal(0, written).Some? then out == seal(0, written).value && outStatus == Some(old(status))
        else out == [] && outStatus == Some(500)
    {
      hide Events, Tail, Wire;
      if mode == EventStream {
        if |scratch| > 0 {
          WireSnoc(seal, 0, Events(written), scratch);
          var sealed := seal(calls, scratch);
          scratch, calls := [], calls + 1;
          out := out + Framed(sealed);
        }
      } else if mode == Buffered {
        var sealed := seal(calls, body);
        calls := calls + 1;
        if sealed.None? {
          outStatus := Some(500);
          return;
        }
        outStatus := Some(status);
        out := sealed.value;
      }
    }
  }
}
