/** What the mode parser guarantees across chunks, cuts and replays. */
module Resync {
  import opened Wrappers
  import opened Bytes
  import opened Modes

  // ------------------------------------------------- chunk independence

  lemma {:induction false} RunConcat(p: Parser, a: seq<byte>, b: seq<byte>)
    ensures Run(p, a + b) == Run(Run(p, a), b)
    ensures Writes(p, a + b) == Writes(p, a) + Writes(Run(p, a), b)
  {
    hide Emit, Step;
    if b == [] {
      assert a + b == a;
    } else {
      var init, last := b[..|b| - 1], b[|b| - 1];
      RunConcat(p, a, init);
      assert b == init + [last];
      Assoc(a, init, [last]);
      RunSnoc(p, a + init, last);
      RunSnoc(Run(p, a), init, last);
      Assoc(Writes(p, a), Writes(Run(p, a), init), Emit(Run(p, a + init), last));
    }
  }

  lemma RunSnoc(p: Parser, s: seq<byte>, b: byte)
    ensures Run(p, s + [b]) == Step(Run(p, s), b)
    ensures Writes(p, s + [b]) == Writes(p, s) + Emit(Run(p, s), b)
  {
    hide Emit, Step;
    assert (s + [b])[..|s + [b]| - 1] == s;
  }

  lemma {:induction false} ApplyConcat(m: Modes, x: seq<Write>, y: seq<Write>)
    ensures ApplyAll(m, x + y) == ApplyAll(ApplyAll(m, x), y)
  {
    if y == [] {
      assert x + y == x;
    } else {
      assert (x + y)[..|x + y| - 1] == x + y[..|y| - 1];
      ApplyConcat(m, x, y[..|y| - 1]);
    }
  }

  /** The mode state after `s`, read from parser state `p` and mode state `m`. */
  function After(m: Modes, p: Parser, s: seq<byte>): Modes {
    ApplyAll(m, Writes(p, s))
  }

  lemma {:induction false} AfterConcat(m: Modes, p: Parser, a: seq<byte>, b: seq<byte>)
    ensures After(m, p, a + b) == After(After(m, p, a), Run(p, a), b)
  {
    RunConcat(p, a, b);
    ApplyConcat(m, Writes(p, a), Writes(Run(p, a), b));
  }

  lemma {:induction false} RunKeepsOk(p: Parser, s: seq<byte>)
    requires ParserOk(p)
    ensures ParserOk(Run(p, s))
  {
    if s != [] { RunKeepsOk(p, s[..|s| - 1]); }
  }

  // ------------------------------------------------- last writer wins

  function NewVal(w: Write): int {
    match SlotOf(w.mode)
    case Some(Alt) => if w.on then w.mode else 0
    case Some(Tracking) => if w.on then w.mode else 0
    case Some(Encoding) => if w.on then w.mode else 0
    case _ => if w.on then 1 else 0
  }

  /** The value the last write to slot `s` leaves, or `d` when nothing writes it. */
  function LastVal(ws: seq<Write>, s: Slot, d: int): int {
    if ws == [] then d
    else if SlotOf(ws[|ws| - 1].mode) == Some(s) then NewVal(ws[|ws| - 1])
    else LastVal(ws[..|ws| - 1], s, d)
  }

  /** Applying writes is last-writer-wins in every slot, independently. */
  lemma {:induction false} LastWriterWins(m: Modes, ws: seq<Write>, s: Slot)
    ensures Val(ApplyAll(m, ws), s) == LastVal(ws, s, Val(m, s))
  {
    if ws != [] { LastWriterWins(m, ws[..|ws| - 1], s); }
  }

  lemma {:induction false} LastValConcat(x: seq<Write>, y: seq<Write>, s: Slot, d: int)
    ensures LastVal(x + y, s, d) == LastVal(y, s, LastVal(x, s, d))
  {
    if y == [] {
      assert x + y == x;
    } else {
      assert (x + y)[..|x + y| - 1] == x + y[..|y| - 1];
      LastValConcat(x, y[..|y| - 1], s, d);
    }
  }

  lemma {:induction false} LastValAbsorbs(y: seq<Write>, s: Slot, d: int)
    ensures LastVal(y, s, LastVal(y, s, d)) == LastVal(y, s, d)
  {
    if y != [] { LastValAbsorbs(y[..|y| - 1], s, d); }
  }

  lemma ApplySame(a: Modes, b: Modes, ws: seq<Write>)
    requires SameModes(a, b)
    ensures SameModes(ApplyAll(a, ws), ApplyAll(b, ws))
  {
    forall s: Slot ensures Val(ApplyAll(a, ws), s) == Val(ApplyAll(b, ws), s) {
      LastWriterWins(a, ws, s);
      LastWriterWins(b, ws, s);
    }
  }

  /** Replaying a suffix of the writes that led to a state does not change it. */
  lemma ReplayIsIdempotent(m: Modes, ws: seq<Write>, tail: seq<Write>)
    requires IsSuffix(tail, ws)
    ensures SameModes(ApplyAll(ApplyAll(m, ws), tail), ApplyAll(m, ws))
  {
    var head := ws[..|ws| - |tail|];
    assert ws == head + tail;
    forall s: Slot ensures Val(ApplyAll(ApplyAll(m, ws), tail), s) == Val(ApplyAll(m, ws), s) {
      LastWriterWins(ApplyAll(m, ws), tail, s);
      LastWriterWins(m, ws, s);
      LastValConcat(head, tail, s, Val(m, s));
      LastValAbsorbs(tail, s, LastVal(head, s, Val(m, s)));
    }
  }

  // ------------------------------------------------- resynchronisation

  /** Two parsers, one of them started in ground, are in step or the grounded
      one has seen no ESC and written nothing. */
  lemma {:induction false} InStepOrSilent(p: Parser, w: seq<byte>)
    ensures Run(p, w) == Run(Ground, w) || (Run(Ground, w) == Ground && Writes(Ground, w) == [])
    ensures IsSuffix(Writes(Ground, w), Writes(p, w))
  {
    hide Expand;
    if w != [] { InStepOrSilent(p, w[..|w| - 1]); }
  }

  /** Parsing any suffix of an output from ground finds a suffix of its writes,
      wherever the cut falls. */
  lemma {:induction false} SuffixWrites(o: seq<byte>, w: seq<byte>)
    requires IsSuffix(w, o)
    ensures IsSuffix(Writes(Ground, w), Writes(Ground, o))
  {
    var head := o[..|o| - |w|];
    assert o == head + w;
    hide Run, Writes, IsSuffix;
    RunConcat(Ground, head, w);
    InStepOrSilent(Run(Ground, head), w);
    SuffixOfSum(Writes(Ground, w), Writes(Run(Ground, head), w), Writes(Ground, head));
  }

  lemma SuffixOfSum(x: seq<Write>, y: seq<Write>, z: seq<Write>)
    requires IsSuffix(x, y)
    ensures IsSuffix(x, z + y)
  {
    assert (z + y)[|z + y| - |x|..] == y[|y| - |x|..];
  }

  // ------------------------------------------------- preamble round trip

  lemma {:induction false} ApplyKeepsOk(m: Modes, ws: seq<Write>)
    requires ModesOk(m)
    ensures ModesOk(ApplyAll(m, ws))
  {
    hide ModesOk, Apply;
    if ws != [] {
      ApplyKeepsOk(m, ws[..|ws| - 1]);
      WriteKeepsOk(ApplyAll(m, ws[..|ws| - 1]), ws[|ws| - 1]);
    }
  }

  lemma WriteKeepsOk(m: Modes, w: Write)
    requires ModesOk(m)
    ensures ModesOk(Apply(m, w))
  {
  }

  lemma {:induction false} ItoaDigits(n: nat)
    ensures |Itoa(n)| >= 1 && AllDigits(Itoa(n)) && Number(Itoa(n)) == n
  {
    var s := Itoa(n);
    if n < 10 {
      assert s[..0] == [];
    } else {
      ItoaDigits(n / 10);
      assert s[..|s| - 1] == Itoa(n / 10);
      assert s[|s| - 1] == Digit(n % 10);
    }
  }

  lemma {:induction false} ItoaShort(n: nat)
    ensures n < 10000 ==> |Itoa(n)| <= 4
    ensures n < 1000 ==> |Itoa(n)| <= 3
    ensures n < 100 ==> |Itoa(n)| <= 2
    ensures n < 10 ==> |Itoa(n)| <= 1
  {
    if n >= 10 { ItoaShort(n / 10); }
  }

  lemma {:induction false} SplitUnseparated(s: seq<byte>)
    requires SEMICOLON !in s
    ensures Split(s) == [s]
  {
    if s != [] {
      SplitUnseparated(s[1..]);
      assert [s[0]] + s[1..] == s;
    }
  }

  function Join(parts: seq<seq<byte>>): seq<byte>
    requires |parts| >= 1
  {
    if |parts| == 1 then parts[0] else parts[0] + [SEMICOLON] + Join(parts[1..])
  }

  /** Split is the inverse of joining separator-free parts. */
  lemma {:induction false} SplitJoin(s: seq<byte>)
    ensures Join(Split(s)) == s
    ensures forall i :: 0 <= i < |Split(s)| ==> SEMICOLON !in Split(s)[i]
  {
    if s != [] {
      var rest := Split(s[1..]);
      SplitJoin(s[1..]);
      var parts := Split(s);
      if s[0] == SEMICOLON {
        assert parts[1..] == rest;
        assert Join(parts) == [] + [SEMICOLON] + Join(rest);
      } else {
        assert parts[1..] == rest[1..];
        assert parts[0] == [s[0]] + rest[0];
      }
    }
  }

  /** A parameter run of up to 32 bytes is collected without overflow. */
  lemma {:induction false} Collect(params: seq<byte>, s: seq<byte>)
    requires |params| + |s| <= MAX_CSI_PARAMS
    requires forall i :: 0 <= i < |s| ==> s[i] != ESC && !IsFinal(s[i])
    ensures Run(Csi(params, false), s) == Csi(params + s, false)
    ensures Writes(Csi(params, false), s) == []
  {
    if s == [] {
      assert params + s == params;
    } else {
      Collect(params, s[..|s| - 1]);
      assert params + s[..|s| - 1] + [s[|s| - 1]] == params + s;
    }
  }

  lemma Introducer()
    ensures Run(Ground, [ESC, BRACKET]) == Csi([], false)
    ensures Writes(Ground, [ESC, BRACKET]) == []
  {
    assert [ESC, BRACKET][..1] == [ESC];
    assert [ESC][..0] == [];
    assert Run(Ground, [ESC]) == Escape;
    assert Writes(Ground, [ESC]) == [] + [];
  }

  lemma {:induction false} ParamsParse(params: seq<byte>)
    requires |params| <= MAX_CSI_PARAMS
    requires forall i :: 0 <= i < |params| ==> params[i] != ESC && !IsFinal(params[i])
    ensures Run(Ground, [ESC, BRACKET] + params) == Csi(params, false)
    ensures Writes(Ground, [ESC, BRACKET] + params) == []
  {
    Introducer();
    Collect([], params);
    assert [] + params == params;
    RunConcat(Ground, [ESC, BRACKET], params);
  }

  lemma SequenceShape(w: Write) returns (params: seq<byte>)
    requires 0 <= w.mode < 10000
    ensures params == [QUESTION] + Itoa(w.mode) && |params| <= MAX_CSI_PARAMS
    ensures forall i :: 0 <= i < |params| ==> params[i] != ESC && !IsFinal(params[i])
    ensures Sequence(w) == ([ESC, BRACKET] + params) + [if w.on then SET else RESET]
  {
    params := [QUESTION] + Itoa(w.mode);
    ItoaDigits(w.mode);
    ItoaShort(w.mode);
    assert forall i :: 0 < i < |params| ==> params[i] == Itoa(w.mode)[i - 1] && IsDigit(params[i]);
  }

  /** The parser reads one emitted sequence back as the write it encodes. */
  lemma SequenceParses(w: Write)
    requires 0 <= w.mode < 10000
    ensures Run(Ground, Sequence(w)) == Ground
    ensures Writes(Ground, Sequence(w)) == [w]
  {
    var params := SequenceShape(w);
    var b := if w.on then SET else RESET;
    ParamsParse(params);
    ExpandOne(w);
    RunSnoc(Ground, [ESC, BRACKET] + params, b);
    assert Emit(Csi(params, false), b) == [w];
  }

  lemma ExpandOne(w: Write)
    requires 0 <= w.mode < 10000
    ensures Expand([QUESTION] + Itoa(w.mode), w.on) == [w]
  {
    var digits := Itoa(w.mode);
    ItoaDigits(w.mode);
    SplitUnseparated(digits);
    assert ([QUESTION] + digits)[1..] == digits;
    assert PartsWrites([], w.on) == [];
    assert PartsWrites([digits], w.on) == [] + PartWrites(digits, w.on);
    assert digits[0] != MINUS && digits[0] != PLUS;
    assert Atoi(digits) == Some(w.mode);
  }

  predicate Encodable(ws: seq<Write>) {
    forall i :: 0 <= i < |ws| ==> 0 <= ws[i].mode < 10000
  }

  lemma {:induction false} SequencesParse(ws: seq<Write>)
    requires Encodable(ws)
    ensures Run(Ground, Sequences(ws)) == Ground
    ensures Writes(Ground, Sequences(ws)) == ws
  {
    if ws != [] {
      var init, w := ws[..|ws| - 1], ws[|ws| - 1];
      assert ws == init + [w];
      SequencesParse(init);
      SequencesSnoc(init, w);
    }
  }

  lemma SequencesSnoc(ws: seq<Write>, w: Write)
    requires Encodable(ws) && 0 <= w.mode < 10000
    requires Run(Ground, Sequences(ws)) == Ground && Writes(Ground, Sequences(ws)) == ws
    ensures Run(Ground, Sequences(ws + [w])) == Ground && Writes(Ground, Sequences(ws + [w])) == ws + [w]
  {
    assert (ws + [w])[..|ws + [w]| - 1] == ws;
    assert Sequences(ws + [w]) == Sequences(ws) + Sequence(w);
    SequenceParses(w);
    ParsesSnoc(Sequences(ws), ws, Sequence(w), w);
  }

  lemma {:induction false} ParsesSnoc(x: seq<byte>, xs: seq<Write>, y: seq<byte>, w: Write)
    requires Run(Ground, x) == Ground && Writes(Ground, x) == xs
    requires Run(Ground, y) == Ground && Writes(Ground, y) == [w]
    ensures Run(Ground, x + y) == Ground && Writes(Ground, x + y) == xs + [w]
  {
    RunConcat(Ground, x, y);
  }

  lemma PreambleEncodable(m: Modes)
    requires ModesOk(m)
    ensures Encodable(PreambleWrites(m))
  {
    SwitchesEncodable(m, TRACKED_BOOL_MODES);
  }

  lemma {:induction false} SwitchesEncodable(m: Modes, modes: seq<int>)
    requires forall i :: 0 <= i < |modes| ==> 0 <= modes[i] < 10000
    ensures Encodable(SwitchWrites(m, modes))
  {
    if modes != [] { SwitchesEncodable(m, modes[..|modes| - 1]); }
  }

  /** Only the write emitted for slot `s` decides what the preamble leaves in `s`. */
  lemma PreambleDecides(m: Modes, s: Slot)
    requires ModesOk(m)
    ensures LastVal(PreambleWrites(m), s, Val(FRESH, s)) == Val(m, s)
  {
    var d := Val(FRESH, s);
    var sw := SwitchWrites(m, TRACKED_BOOL_MODES);
    SwitchesDecide(m, TRACKED_BOOL_MODES, s);
    SwitchesMentioned(s);
    GroupsDecide(m, sw, s, d);
  }

  lemma SwitchesMentioned(s: Slot)
    ensures Mentions(TRACKED_BOOL_MODES, s) <==> s !in {Alt, Tracking, Encoding}
  {
    var t := TRACKED_BOOL_MODES;
    assert t[0] == 1 && t[1] == 7 && t[2] == 25 && t[3] == 1004 && t[4] == 2004;
    assert SlotOf(t[0]) == Some(CursorKeys) && SlotOf(t[1]) == Some(Autowrap) && SlotOf(t[2]) == Some(Cursor)
        && SlotOf(t[3]) == Some(Focus) && SlotOf(t[4]) == Some(Paste);
  }

  lemma GroupsDecide(m: Modes, sw: seq<Write>, s: Slot, d: int)
    requires ModesOk(m)
    ensures LastVal(sw + GroupWrite(m.alt) + GroupWrite(m.tracking) + GroupWrite(m.encoding), s, d) ==
            if s == Alt && m.alt != 0 then m.alt
            else if s == Tracking && m.tracking != 0 then m.tracking
            else if s == Encoding && m.encoding != 0 then m.encoding
            else LastVal(sw, s, d)
  {
    GroupDecides(sw, m.alt, Alt, s, d);
    GroupDecides(sw + GroupWrite(m.alt), m.tracking, Tracking, s, d);
    GroupDecides(sw + GroupWrite(m.alt) + GroupWrite(m.tracking), m.encoding, Encoding, s, d);
  }

  lemma GroupDecides(ws: seq<Write>, value: nat, group: Slot, s: Slot, d: int)
    requires value == 0 || SlotOf(value) == Some(group)
    requires group in {Alt, Tracking, Encoding}
    ensures LastVal(ws + GroupWrite(value), s, d) == if value != 0 && s == group then value else LastVal(ws, s, d)
  {
    LastValConcat(ws, GroupWrite(value), s, d);
    LastValOne(GroupWrite(value), s, LastVal(ws, s, d));
  }

  lemma LastValOne(ws: seq<Write>, s: Slot, d: int)
    requires |ws| <= 1
    ensures LastVal(ws, s, d) == if |ws| == 1 && SlotOf(ws[0].mode) == Some(s) then NewVal(ws[0]) else d
  {
    if |ws| == 1 { assert ws[..0] == []; }
  }

  lemma SwitchDecides(ws: seq<Write>, m: Modes, mode: int, s: Slot, d: int)
    requires mode in {1, 7, 25, 1004, 2004}
    ensures LastVal(ws + SwitchWrite(m, mode), s, d) ==
            if SlotOf(mode) == Some(s) && SwitchWrite(m, mode) != [] then Switch(m, mode) else LastVal(ws, s, d)
  {
    LastValConcat(ws, SwitchWrite(m, mode), s, d);
    LastValOne(SwitchWrite(m, mode), s, LastVal(ws, s, d));
  }

  predicate AllTracked(modes: seq<int>) {
    forall i :: 0 <= i < |modes| ==> modes[i] in {1, 7, 25, 1004, 2004}
  }

  predicate Mentions(modes: seq<int>, s: Slot) {
    exists i :: 0 <= i < |modes| && SlotOf(modes[i]) == Some(s)
  }

  lemma {:induction false} SwitchesDecide(m: Modes, modes: seq<int>, s: Slot)
    requires AllTracked(modes)
    ensures LastVal(SwitchWrites(m, modes), s, Val(FRESH, s)) ==
            if Mentions(modes, s) then Val(m, s) else Val(FRESH, s)
  {
    if modes != [] {
      var init, mode := modes[..|modes| - 1], modes[|modes| - 1];
      SwitchesDecide(m, init, s);
      SwitchDecides(SwitchWrites(m, init), m, mode, s, Val(FRESH, s));
      SwitchIsVal(m, mode, s);
      MentionsSnoc(modes, s);
    }
  }

  lemma MentionsSnoc(modes: seq<int>, s: Slot)
    requires modes != []
    ensures Mentions(modes, s) <==> Mentions(modes[..|modes| - 1], s) || SlotOf(modes[|modes| - 1]) == Some(s)
  {
    var init := modes[..|modes| - 1];
    assert modes == init + [modes[|modes| - 1]];
    if Mentions(init, s) {
      var i :| 0 <= i < |init| && SlotOf(init[i]) == Some(s);
      assert SlotOf(modes[i]) == Some(s);
    }
  }

  lemma SwitchIsVal(m: Modes, mode: int, s: Slot)
    requires mode in {1, 7, 25, 1004, 2004}
    ensures SlotOf(mode) == Some(s) ==> Val(m, s) == Switch(m, mode)
    ensures SlotOf(mode) == Some(s) && SwitchWrite(m, mode) == [] ==> Val(m, s) == Val(FRESH, s)
  {
  }

  /** The preamble brings a fresh terminal to the same effective modes and
      leaves its parser in ground. */
  lemma PreambleRestores(m: Modes)
    requires ModesOk(m)
    ensures Run(Ground, Preamble(m)) == Ground
    ensures SameModes(After(FRESH, Ground, Preamble(m)), m)
  {
    PreambleEncodable(m);
    SequencesParse(PreambleWrites(m));
    var got := ApplyAll(FRESH, PreambleWrites(m));
    forall s: Slot ensures Val(got, s) == Val(m, s) {
      LastWriterWins(FRESH, PreambleWrites(m), s);
      PreambleDecides(m, s);
    }
  }

  /** The preamble depends on the effective modes only. */
  lemma PreambleOfSame(a: Modes, b: Modes)
    requires SameModes(a, b)
    ensures Preamble(a) == Preamble(b)
  {
    SwitchWritesAre(a);
    SwitchWritesAre(b);
    assert Val(a, CursorKeys) == Val(b, CursorKeys);
    assert Val(a, Autowrap) == Val(b, Autowrap);
    assert Val(a, Cursor) == Val(b, Cursor);
    assert Val(a, Focus) == Val(b, Focus);
    assert Val(a, Paste) == Val(b, Paste);
    assert Val(a, Alt) == Val(b, Alt);
    assert Val(a, Tracking) == Val(b, Tracking);
    assert Val(a, Encoding) == Val(b, Encoding);
    assert PreambleWrites(a) == PreambleWrites(b);
  }

  /** Round trip for every reachable tracker state: a fresh tracker fed the
      preamble has the same effective modes and prints the identical preamble. */
  lemma {:induction false} PreambleRoundTrip(output: seq<byte>)
    ensures var m := After(FRESH, Ground, output);
            ModesOk(m) &&
            var back := After(FRESH, Ground, Preamble(m));
            ModesOk(back) && SameModes(back, m) && Preamble(back) == Preamble(m)
            && Run(Ground, Preamble(m)) == Ground
  {
    var m := After(FRESH, Ground, output);
    ApplyKeepsOk(FRESH, Writes(Ground, output));
    PreambleRestores(m);
    ApplyKeepsOk(FRESH, Writes(Ground, Preamble(m)));
    PreambleOfSame(After(FRESH, Ground, Preamble(m)), m);
  }

  /** Attach replay: preamble plus any suffix of the output ends in the
      effective modes of the whole output. */
  lemma {:induction false} ReplayRestoresModes(o: seq<byte>, w: seq<byte>)
    requires IsSuffix(w, o)
    ensures var m := After(FRESH, Ground, o);
            ModesOk(m) && SameModes(After(FRESH, Ground, Preamble(m) + w), m)
  {
    var m := After(FRESH, Ground, o);
    PreambleRoundTrip(o);
    var t := After(FRESH, Ground, Preamble(m));
    AfterConcat(FRESH, Ground, Preamble(m), w);
    SuffixWrites(o, w);
    ApplySame(t, m, Writes(Ground, w));
    ReplayIsIdempotent(FRESH, Writes(Ground, o), Writes(Ground, w));
  }
}
