/** The modeTracker of internal/session/modes.go, updated in place, against the
    functions of Modes. */
module Tracker {
  import opened Bytes
  import opened Modes
  import opened Resync

  datatype State = InGround | InEscape | InCsi

  class ModeTracker {
    // parser state, kept across chunks
    var state: State
    var params: seq<byte>
    var overflow: bool
    // tracked modes
    var altBuffer: nat
    var mouseTracking: nat
    var mouseEncoding: nat
    var bools: map<int, bool>

    constructor ()
      ensures P() == Ground && M() == FRESH
    {
      state, params, overflow := InGround, [], false;
      altBuffer, mouseTracking, mouseEncoding, bools := 0, 0, 0, map[];
    }

    /** The parser state; what params holds outside a sequence is irrelevant. */
    function P(): Parser
      reads this
    {
      match state
      case InGround => Ground
      case InEscape => Escape
      case InCsi => Csi(params, overflow)
    }

    function M(): Modes
      reads this
    {
      Modes(altBuffer, mouseTracking, mouseEncoding, bools)
    }

    /** Scans a chunk of terminal output for mode changes. */
    method Process(data: Chunk)
      modifies this
      ensures P() == Run(old(P()), data)
      ensures M() == After(old(M()), old(P()), data)
    {
      hide P, M, Step, Emit, Apply;
      ghost var p0, m0 := P(), M();
      assert data[..0] == [];
      for i := 0 to |data|
        invariant P() == Run(p0, data[..i])
        invariant M() == After(m0, p0, data[..i])
      {
        ByteAfter(m0, p0, data, i);
        hide Run, After;
        ProcessByte(data[i]);
      }
      assert data[..|data|] == data;
    }

    /** The switch on the parser state, for one byte. */
    method ProcessByte(b: byte)
      modifies this
      ensures P() == Step(old(P()), b)
      ensures M() == ApplyAll(old(M()), Emit(old(P()), b))
    {
      ghost var m := M();
      assert ApplyAll(m, []) == m;
      hide Apply, Expand;
      match state {
        case InGround =>
          if b == ESC { state := InEscape; }
        case InEscape =>
          if b == BRACKET {
            state, params, overflow := InCsi, [], false;
          } else if b != ESC {
            state := InGround;
          }
        case InCsi =>
          if b == ESC {
            state := InEscape;
          } else if IsFinal(b) {
            if !overflow && (b == SET || b == RESET) {
              ApplyParams(params, b == SET);
            }
            state := InGround;
          } else if |params| < MAX_CSI_PARAMS {
            params := params + [b];
          } else {
            overflow := true;
          }
      }
    }

    /** Updates the tracked modes for a complete `CSI ? Pm h/l`. */
    method ApplyParams(params: seq<byte>, enabled: bool)
      modifies this`altBuffer, this`mouseTracking, this`mouseEncoding, this`bools
      ensures M() == ApplyAll(old(M()), Expand(params, enabled))
    {
      if |params| == 0 || params[0] != QUESTION {
        return;
      }
      var parts := Split(params[1..]);
      ghost var m0 := M();
      hide Expand, Split, PartsWrites, Apply, ApplyAll, Took;
      NoParts(m0, parts, enabled);
      for i := 0 to |parts|
        invariant M() == ApplyAll(m0, PartsWrites(parts[..i], enabled))
      {
        PartAfter(m0, parts, i, enabled);
        var mode := Atoi(parts[i]);
        if mode.Some? {
          ApplyMode(mode.value, enabled);
        }
      }
      assert parts[..|parts|] == parts;
      ExpandsTo(params, enabled);
    }

    /** The switch over mode numbers: untracked ones are ignored. */
    method ApplyMode(mode: int, enabled: bool)
      modifies this`altBuffer, this`mouseTracking, this`mouseEncoding, this`bools
      ensures M() == Apply(old(M()), Write(mode, enabled))
      ensures Took(mode, enabled, altBuffer, mouseTracking, mouseEncoding, bools)
    {
      if mode in {47, 1047, 1049} {
        altBuffer := Pick(enabled, mode);
      } else if mode in {1000, 1001, 1002, 1003} {
        mouseTracking := Pick(enabled, mode);
      } else if mode in {1005, 1006, 1015} {
        mouseEncoding := Pick(enabled, mode);
      } else if mode in {1, 7, 25, 1004, 2004} {
        bools := bools[mode := enabled];
      }
    }

    /** Escape sequences that bring a fresh terminal to the tracked modes. */
    method GetPreamble() returns (b: seq<byte>)
      ensures b == Preamble(M())
    {
      b := [];
      ghost var m := M();
      PreambleBytes(m);
      hide Preamble, Sequence;
      assert TRACKED_BOOL_MODES[..0] == [];
      for i := 0 to |TRACKED_BOOL_MODES|
        invariant b == SwitchesBytes(m, TRACKED_BOOL_MODES[..i])
      {
        var mode := TRACKED_BOOL_MODES[i];
        assert TRACKED_BOOL_MODES[..i + 1][..i] == TRACKED_BOOL_MODES[..i];
        if mode in bools && bools[mode] != DefaultOn(mode) {
          b := b + Sequence(Write(mode, bools[mode]));
        }
      }
      assert TRACKED_BOOL_MODES[..|TRACKED_BOOL_MODES|] == TRACKED_BOOL_MODES;
      if altBuffer != 0 { b := b + Sequence(Write(altBuffer, true)); }
      if mouseTracking != 0 { b := b + Sequence(Write(mouseTracking, true)); }
      if mouseEncoding != 0 { b := b + Sequence(Write(mouseEncoding, true)); }
    }
  }

  /** A tracked number is what its own field now holds, or 0 when it was reset. */
  predicate Took(mode: int, on: bool, alt: int, tracking: int, encoding: int, bools: map<int, bool>) {
    && (mode in {47, 1047, 1049} ==> alt == if on then mode else 0)
    && (mode in {1000, 1001, 1002, 1003} ==> tracking == if on then mode else 0)
    && (mode in {1005, 1006, 1015} ==> encoding == if on then mode else 0)
    && (mode in {1, 7, 25, 1004, 2004} ==> mode in bools && bools[mode] == on)
  }

  lemma NoParts(m: Modes, parts: seq<seq<byte>>, on: bool)
    ensures ApplyAll(m, PartsWrites(parts[..0], on)) == m
  {
  }

  lemma ExpandsTo(params: seq<byte>, on: bool)
    requires |params| > 0 && params[0] == QUESTION
    ensures Expand(params, on) == PartsWrites(Split(params[1..]), on)
  {
  }

  lemma ByteAfter(m: Modes, p: Parser, data: Chunk, i: nat)
    requires i < |data|
    ensures Run(p, data[..i + 1]) == Step(Run(p, data[..i]), data[i])
    ensures After(m, p, data[..i + 1]) == ApplyAll(After(m, p, data[..i]), Emit(Run(p, data[..i]), data[i]))
  {
    assert data[..i + 1] == data[..i] + [data[i]];
    RunSnoc(p, data[..i], data[i]);
    ApplyConcat(m, Writes(p, data[..i]), Emit(Run(p, data[..i]), data[i]));
  }

  lemma {:induction false} PartAfter(m: Modes, parts: seq<seq<byte>>, i: nat, on: bool)
    requires i < |parts|
    ensures ApplyAll(m, PartsWrites(parts[..i + 1], on)) ==
            ApplyAll(ApplyAll(m, PartsWrites(parts[..i], on)), PartWrites(parts[i], on))
    ensures match Atoi(parts[i])
            case None => ApplyAll(m, PartsWrites(parts[..i + 1], on)) == ApplyAll(m, PartsWrites(parts[..i], on))
            case Some(mode) => ApplyAll(m, PartsWrites(parts[..i + 1], on)) ==
                               Apply(ApplyAll(m, PartsWrites(parts[..i], on)), Write(mode, on))
  {
    assert parts[..i + 1][..i] == parts[..i];
    ApplyConcat(m, PartsWrites(parts[..i], on), PartWrites(parts[i], on));
    ApplyOne(ApplyAll(m, PartsWrites(parts[..i], on)), PartWrites(parts[i], on));
  }

  lemma ApplyOne(m: Modes, ws: seq<Write>)
    requires |ws| <= 1
    ensures ApplyAll(m, ws) == if |ws| == 1 then Apply(m, ws[0]) else m
  {
    if |ws| == 1 { assert ws[..0] == []; }
  }

  function SwitchBytes(m: Modes, mode: int): seq<byte> {
    if mode in m.bools && m.bools[mode] != DefaultOn(mode) && mode >= 0
    then Sequence(Write(mode, m.bools[mode]))
    else []
  }

  function SwitchesBytes(m: Modes, modes: seq<int>): seq<byte> {
    if modes == [] then [] else SwitchesBytes(m, modes[..|modes| - 1]) + SwitchBytes(m, modes[|modes| - 1])
  }

  function GroupBytes(value: nat): seq<byte> {
    if value != 0 then Sequence(Write(value, true)) else []
  }

  predicate Printable(ws: seq<Write>) {
    forall i :: 0 <= i < |ws| ==> ws[i].mode >= 0
  }

  lemma {:induction false} SwitchesPrint(m: Modes, modes: seq<int>)
    requires forall i :: 0 <= i < |modes| ==> modes[i] >= 0
    ensures Printable(SwitchWrites(m, modes)) && Sequences(SwitchWrites(m, modes)) == SwitchesBytes(m, modes)
  {
    if modes != [] {
      var init := modes[..|modes| - 1];
      SwitchesPrint(m, init);
      OneMore(SwitchWrites(m, init), SwitchWrite(m, modes[|modes| - 1]));
    }
  }

  lemma OneMore(ws: seq<Write>, one: seq<Write>)
    requires Printable(ws) && Printable(one) && |one| <= 1
    ensures Printable(ws + one)
    ensures Sequences(ws + one) == Sequences(ws) + (if one == [] then [] else Sequence(one[0]))
  {
    if one != [] { assert (ws + one)[..|ws|] == ws; } else { assert ws + one == ws; }
  }

  lemma OneGroup(ws: seq<Write>, value: nat)
    requires Printable(ws)
    ensures Printable(ws + GroupWrite(value)) && Sequences(ws + GroupWrite(value)) == Sequences(ws) + GroupBytes(value)
  {
    OneMore(ws, GroupWrite(value));
  }

  lemma PreambleBytes(m: Modes)
    ensures Preamble(m) ==
            SwitchesBytes(m, TRACKED_BOOL_MODES)
            + GroupBytes(m.alt) + GroupBytes(m.tracking) + GroupBytes(m.encoding)
  {
    hide Sequence, SwitchWrites, Sequences, GroupWrite, GroupBytes, SwitchesBytes;
    SwitchesPrint(m, TRACKED_BOOL_MODES);
    var sw := SwitchWrites(m, TRACKED_BOOL_MODES);
    OneGroup(sw, m.alt);
    OneGroup(sw + GroupWrite(m.alt), m.tracking);
    OneGroup(sw + GroupWrite(m.alt) + GroupWrite(m.tracking), m.encoding);
  }
}
