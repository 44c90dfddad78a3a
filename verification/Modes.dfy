/** The DEC private mode parser of internal/session/modes.go as pure functions:
    what one byte does, what a byte string writes, and what the preamble of a
    mode state writes back.  Control sequences follow ECMA-48 section 5.4. */
module Modes {
  import opened Wrappers
  import opened Bytes

  const BRACKET: byte := '[' as byte
  const QUESTION: byte := '?' as byte
  const SEMICOLON: byte := ';' as byte
  const SET: byte := 'h' as byte
  const RESET: byte := 'l' as byte
  const MINUS: byte := '-' as byte
  const PLUS: byte := '+' as byte

  // ---------------------------------------------------------------- parser

  /** Parser state.  `params` and `overflow` only matter inside a sequence. */
  datatype Parser = Ground | Escape | Csi(params: seq<byte>, overflow: bool)

  const MAX_CSI_PARAMS := 32

  /** A single mode assignment: one number of one `CSI ? Pm h/l`. */
  datatype Write = Write(mode: int, on: bool)

  predicate ParserOk(p: Parser) {
    p.Csi? ==> |p.params| <= MAX_CSI_PARAMS
  }

  predicate IsFinal(b: byte) { 0x40 <= b <= 0x7e }

  function Step(p: Parser, b: byte): (q: Parser) {
    if b == ESC then Escape
    else match p
      case Ground => Ground
      case Escape => if b == BRACKET then Csi([], false) else Ground
      case Csi(params, overflow) =>
        if IsFinal(b) then Ground
        else if |params| < MAX_CSI_PARAMS then Csi(params + [b], overflow)
        else Csi(params, true)
  }

  /** The assignments made by the byte `b` read in state `p`. */
  function Emit(p: Parser, b: byte): seq<Write> {
    if p.Csi? && !p.overflow && (b == SET || b == RESET)
    then Expand(p.params, b == SET)
    else []
  }

  function Run(p: Parser, s: seq<byte>): Parser {
    if s == [] then p else Step(Run(p, s[..|s| - 1]), s[|s| - 1])
  }

  /** All assignments made by the byte string `s` read from state `p`. */
  function Writes(p: Parser, s: seq<byte>): seq<Write> {
    if s == [] then []
    else Writes(p, s[..|s| - 1]) + Emit(Run(p, s[..|s| - 1]), s[|s| - 1])
  }

  // ------------------------------------------------------- parameter lists

  /** strings.Split(s, ";"): never empty, the parts hold no separator. */
  function Split(s: seq<byte>): (parts: seq<seq<byte>>)
    ensures |parts| >= 1
  {
    if s == [] then [[]]
    else
      var rest := Split(s[1..]);
      if s[0] == SEMICOLON then [[]] + rest else [[s[0]] + rest[0]] + rest[1..]
  }

  predicate IsDigit(b: byte) { 0x30 <= b <= 0x39 }

  predicate AllDigits(s: seq<byte>) {
    forall i :: 0 <= i < |s| ==> IsDigit(s[i])
  }

  function DigitValue(b: byte): nat
    requires IsDigit(b)
  {
    b as int - 0x30
  }

  function Number(s: seq<byte>): (n: nat)
    requires AllDigits(s)
  {
    if s == [] then 0 else 10 * Number(s[..|s| - 1]) + DigitValue(s[|s| - 1])
  }

  /** strconv.Atoi on a 64-bit platform: one optional sign, at least one digit,
      nothing else, and a value that fits in 64 bits. */
  function Atoi(s: seq<byte>): Option<int> {
    var signed := s != [] && (s[0] == MINUS || s[0] == PLUS);
    var digits := if signed then s[1..] else s;
    if digits == [] || !AllDigits(digits) then None
    else
      var magnitude: int := Number(digits);
      var n := if signed && s[0] == MINUS then -magnitude else magnitude;
      if -0x8000_0000_0000_0000 <= n < 0x8000_0000_0000_0000 then Some(n) else None
  }

  function PartWrites(part: seq<byte>, on: bool): seq<Write> {
    match Atoi(part)
    case Some(mode) => [Write(mode, on)]
    case None => []
  }

  function PartsWrites(parts: seq<seq<byte>>, on: bool): seq<Write> {
    if parts == [] then []
    else PartsWrites(parts[..|parts| - 1], on) + PartWrites(parts[|parts| - 1], on)
  }

  /** The assignments of one complete `CSI params h/l`; none unless private. */
  function Expand(params: seq<byte>, on: bool): seq<Write> {
    if params == [] || params[0] != QUESTION then []
    else PartsWrites(Split(params[1..]), on)
  }

  // ------------------------------------------------------------ mode state

  datatype Modes = Modes(alt: nat, tracking: nat, encoding: nat, bools: map<int, bool>)

  const FRESH := Modes(0, 0, 0, map[])

  /** The things a terminal can be asked about: three exclusive groups, five switches. */
  datatype Slot = Alt | Tracking | Encoding | CursorKeys | Autowrap | Cursor | Focus | Paste

  function SlotOf(mode: int): Option<Slot> {
    match mode
    case 47 => Some(Alt) case 1047 => Some(Alt) case 1049 => Some(Alt)
    case 1000 => Some(Tracking) case 1001 => Some(Tracking)
    case 1002 => Some(Tracking) case 1003 => Some(Tracking)
    case 1005 => Some(Encoding) case 1006 => Some(Encoding) case 1015 => Some(Encoding)
    case 1 => Some(CursorKeys) case 7 => Some(Autowrap) case 25 => Some(Cursor)
    case 1004 => Some(Focus) case 2004 => Some(Paste)
    case _ => None
  }

  function Pick(on: bool, mode: int): int { if on then mode else 0 }

  function Apply(m: Modes, w: Write): Modes {
    match SlotOf(w.mode)
    case None => m
    case Some(Alt) => m.(alt := Pick(w.on, w.mode))
    case Some(Tracking) => m.(tracking := Pick(w.on, w.mode))
    case Some(Encoding) => m.(encoding := Pick(w.on, w.mode))
    case Some(_) => m.(bools := m.bools[w.mode := w.on])
  }

  function ApplyAll(m: Modes, ws: seq<Write>): Modes {
    if ws == [] then m else Apply(ApplyAll(m, ws[..|ws| - 1]), ws[|ws| - 1])
  }

  function DefaultOn(mode: int): bool { mode == 7 || mode == 25 }

  /** A switch never written is at the default of a fresh terminal. */
  function Switch(m: Modes, mode: int): int {
    if (if mode in m.bools then m.bools[mode] else DefaultOn(mode)) then 1 else 0
  }

  /** The effective value of a slot: what a terminal in this state behaves like. */
  function Val(m: Modes, s: Slot): int {
    match s
    case Alt => m.alt
    case Tracking => m.tracking
    case Encoding => m.encoding
    case CursorKeys => Switch(m, 1)
    case Autowrap => Switch(m, 7)
    case Cursor => Switch(m, 25)
    case Focus => Switch(m, 1004)
    case Paste => Switch(m, 2004)
  }

  ghost predicate SameModes(a: Modes, b: Modes) {
    forall s: Slot :: Val(a, s) == Val(b, s)
  }

  /** What every reachable mode state satisfies. */
  predicate ModesOk(m: Modes) {
    && m.alt in {0, 47, 1047, 1049}
    && m.tracking in {0, 1000, 1001, 1002, 1003}
    && m.encoding in {0, 1005, 1006, 1015}
  }

  // -------------------------------------------------------------- preamble

  function Digit(n: nat): byte requires n < 10 { (0x30 + n) as byte }

  function Itoa(n: nat): (s: seq<byte>) {
    if n < 10 then [Digit(n)] else Itoa(n / 10) + [Digit(n % 10)]
  }

  /** `ESC [ ? mode h` or `ESC [ ? mode l`. */
  function Sequence(w: Write): seq<byte> requires w.mode >= 0 {
    [ESC, BRACKET, QUESTION] + Itoa(w.mode) + [if w.on then SET else RESET]
  }

  const TRACKED_BOOL_MODES: seq<int> := [1, 7, 25, 1004, 2004]

  function SwitchWrite(m: Modes, mode: int): seq<Write> {
    if mode in m.bools && m.bools[mode] != DefaultOn(mode) then [Write(mode, m.bools[mode])] else []
  }

  function SwitchWrites(m: Modes, modes: seq<int>): seq<Write> {
    if modes == [] then []
    else SwitchWrites(m, modes[..|modes| - 1]) + SwitchWrite(m, modes[|modes| - 1])
  }

  function GroupWrite(value: nat): seq<Write> {
    if value != 0 then [Write(value, true)] else []
  }

  function PreambleWrites(m: Modes): seq<Write> {
    SwitchWrites(m, TRACKED_BOOL_MODES) + GroupWrite(m.alt) + GroupWrite(m.tracking) + GroupWrite(m.encoding)
  }

  function Sequences(ws: seq<Write>): seq<byte>
    requires forall i :: 0 <= i < |ws| ==> ws[i].mode >= 0
  {
    if ws == [] then [] else Sequences(ws[..|ws| - 1]) + Sequence(ws[|ws| - 1])
  }

  function Preamble(m: Modes): seq<byte> {
    PreambleModes(m);
    Sequences(PreambleWrites(m))
  }

  lemma PreambleModes(m: Modes)
    ensures forall i :: 0 <= i < |PreambleWrites(m)| ==> PreambleWrites(m)[i].mode >= 0
  {
    SwitchModes(m, TRACKED_BOOL_MODES);
  }

  lemma {:induction false} SwitchModes(m: Modes, modes: seq<int>)
    requires forall i :: 0 <= i < |modes| ==> modes[i] >= 0
    ensures forall i :: 0 <= i < |SwitchWrites(m, modes)| ==> SwitchWrites(m, modes)[i].mode >= 0
  {
    if modes != [] { SwitchModes(m, modes[..|modes| - 1]); }
  }

  lemma SwitchWritesAre(m: Modes)
    ensures SwitchWrites(m, TRACKED_BOOL_MODES) ==
            SwitchWrite(m, 1) + SwitchWrite(m, 7) + SwitchWrite(m, 25) + SwitchWrite(m, 1004) + SwitchWrite(m, 2004)
  {
    assert TRACKED_BOOL_MODES[..4] == [1, 7, 25, 1004];
    assert [1, 7, 25, 1004][..3] == [1, 7, 25];
    assert [1, 7, 25][..2] == [1, 7];
    assert [1, 7][..1] == [1];
    assert [1][..0] == [];
    assert SwitchWrites(m, [1]) == [] + SwitchWrite(m, 1);
    assert SwitchWrites(m, [1, 7]) == SwitchWrites(m, [1]) + SwitchWrite(m, 7);
    assert SwitchWrites(m, [1, 7, 25]) == SwitchWrites(m, [1, 7]) + SwitchWrite(m, 25);
    assert SwitchWrites(m, [1, 7, 25, 1004]) == SwitchWrites(m, [1, 7, 25]) + SwitchWrite(m, 1004);
  }
}
