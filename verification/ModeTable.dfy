/** What the mode tracker of internal/session/modes.go makes of the bytes of DEC
    private mode sequences, stated with literal bytes and numbers: which numbers
    are tracked and what setting and resetting each of them leaves, which switches
    start on, and which sequences change nothing at all. */
module ModeTable {
  import opened Wrappers
  import opened Bytes
  import opened Modes
  import opened Resync

  /** The tracked modes after the whole output. */
  function Seen(o: seq<byte>): Modes { After(FRESH, Ground, o) }

  /** The output is not in the middle of a sequence. */
  predicate Whole(o: seq<byte>) { Run(Ground, o) == Ground }

  function Text(s: string): seq<byte>
    requires forall i :: 0 <= i < |s| ==> s[i] as int < 128
  {
    seq(|s|, i requires 0 <= i < |s| => s[i] as byte)
  }

  /** A complete control sequence: introducer, parameter bytes, final byte. */
  function Sequenced(params: seq<byte>, final: byte): seq<byte> { [0x1b, 0x5b] + params + [final] }

  /** Bytes that stay inside a sequence: neither ESC nor a final byte. */
  predicate Inner(params: seq<byte>) {
    forall i :: 0 <= i < |params| ==> params[i] != 0x1b && !(0x40 <= params[i] <= 0x7e)
  }

  // --------------------------------------------------- one whole sequence

  lemma {:induction false} CsiWrites(params: seq<byte>, final: byte)
    requires Inner(params) && |params| <= 32 && 0x40 <= final <= 0x7e
    ensures Run(Ground, Sequenced(params, final)) == Ground
    ensures Writes(Ground, Sequenced(params, final)) ==
              if final == 0x68 then Expand(params, true) else if final == 0x6c then Expand(params, false) else []
  {
    hide Expand;
    ParamsParse(params);
    RunSnoc(Ground, [0x1b, 0x5b] + params, final);
  }

  lemma SeenMore(o: seq<byte>, s: seq<byte>)
    requires Whole(o)
    ensures Seen(o + s) == ApplyAll(Seen(o), Writes(Ground, s))
    ensures Run(Ground, o + s) == Run(Ground, s)
  {
    hide ApplyAll, Writes, Run;
    AfterConcat(FRESH, Ground, o, s);
    RunConcat(Ground, o, s);
  }

  // ------------------------------------------------------------- the table

  /** A tracked number as it is written, and the slot it belongs to. */
  predicate Row(text: string, n: nat, s: Slot) {
    || (s == Alt && ((text, n) == ("47", 47) || (text, n) == ("1047", 1047) || (text, n) == ("1049", 1049)))
    || (s == Tracking &&
        ((text, n) == ("1000", 1000) || (text, n) == ("1001", 1001) || (text, n) == ("1002", 1002) ||
         (text, n) == ("1003", 1003)))
    || (s == Encoding && ((text, n) == ("1005", 1005) || (text, n) == ("1006", 1006) || (text, n) == ("1015", 1015)))
    || (s == CursorKeys && (text, n) == ("1", 1))
    || (s == Autowrap && (text, n) == ("7", 7))
    || (s == Cursor && (text, n) == ("25", 25))
    || (s == Focus && (text, n) == ("1004", 1004))
    || (s == Paste && (text, n) == ("2004", 2004))
  }

  predicate Digits(s: string) {
    forall i :: 0 <= i < |s| ==> '0' <= s[i] <= '9'
  }

  function Value(a: char): nat
    requires '0' <= a <= '9'
  {
    a as int - '0' as int
  }

  lemma TextDigits(s: string)
    requires Digits(s)
    ensures |Text(s)| == |s| && AllDigits(Text(s))
  {
  }

  lemma {:induction false} NextDigit(s: string, k: nat)
    requires Digits(s) && k < |s|
    ensures AllDigits(Text(s[..k])) && AllDigits(Text(s[..k + 1]))
    ensures Number(Text(s[..k + 1])) == 10 * Number(Text(s[..k])) + Value(s[k])
  {
    TextDigits(s[..k]);
    TextDigits(s[..k + 1]);
    assert Text(s[..k + 1])[..k] == Text(s[..k]);
  }

  /** The value of up to four digits. */
  lemma {:induction false} ShortNumber(s: string)
    requires Digits(s) && 1 <= |s| <= 4
    ensures AllDigits(Text(s))
    ensures |s| == 1 ==> Number(Text(s)) == Value(s[0])
    ensures |s| == 2 ==> Number(Text(s)) == 10 * Value(s[0]) + Value(s[1])
    ensures |s| == 4 ==>
              Number(Text(s)) == 1000 * Value(s[0]) + 100 * Value(s[1]) + 10 * Value(s[2]) + Value(s[3])
  {
    assert Number(Text(s[..0])) == 0;
    hide Text, Number, Value, Digits, AllDigits;
    NextDigit(s, 0);
    if |s| == 1 {
      assert s[..1] == s;
    } else if |s| == 2 {
      NextDigit(s, 1);
      assert s[..2] == s;
    } else {
      NextDigit(s, 1);
      NextDigit(s, 2);
      if |s| == 4 { NextDigit(s, 3); }
      assert s[..|s|] == s;
    }
  }

  lemma RowNumber(text: string, n: nat, s: Slot)
    requires Row(text, n, s)
    ensures Digits(text) && 1 <= |text| <= 4 && AllDigits(Text(text)) && Number(Text(text)) == n < 10000
  {
    assert Digits(text) && 1 <= |text| <= 4;
    hide Number, Text;
    ShortNumber(text);
  }

  lemma {:induction false} NumberWrites(digits: seq<byte>, on: bool)
    requires digits != [] && AllDigits(digits) && Number(digits) < 10000
    ensures Expand([0x3f] + digits, on) == [Write(Number(digits), on)]
  {
    SplitUnseparated(digits);
    assert ([0x3f] + digits)[1..] == digits;
    assert PartsWrites([], on) == [];
    assert PartsWrites([digits], on) == [] + PartWrites(digits, on);
    assert digits[0] != MINUS && digits[0] != PLUS;
    hide Number;
    assert Atoi(digits) == Some(Number(digits));
  }

  lemma RowWrites(text: string, n: nat, s: Slot, on: bool)
    requires Row(text, n, s)
    ensures Digits(text)
    ensures Run(Ground, Sequenced([0x3f] + Text(text), if on then 0x68 else 0x6c)) == Ground
    ensures Writes(Ground, Sequenced([0x3f] + Text(text), if on then 0x68 else 0x6c)) == [Write(n, on)]
  {
    hide Row, Text, Number, Run, Writes, Sequenced, Expand, AllDigits, Inner;
    RowNumber(text, n, s);
    TextDigits(text);
    hide Digits;
    DigitsInside(Text(text));
    CsiWrites([0x3f] + Text(text), if on then 0x68 else 0x6c);
    NumberWrites(Text(text), on);
  }

  lemma DigitsInside(digits: seq<byte>)
    requires AllDigits(digits)
    ensures Inner([0x3f] + digits)
  {
  }

  lemma OneWrite(m: Modes, n: nat, on: bool, text: string, s: Slot, t: Slot)
    requires Row(text, n, s)
    ensures var m' := ApplyAll(m, [Write(n, on)]);
            Val(m', t) ==
              if t != s then Val(m, t)
              else if s == Alt || s == Tracking || s == Encoding then (if on then n else 0)
              else if on then 1 else 0
  {
    assert [Write(n, on)][..0] == [];
    assert ApplyAll(m, [Write(n, on)]) == Apply(m, Write(n, on));
  }

  /** Whatever the output was, a tracked number that is set or reset after it decides
      its slot - a mode of an exclusive group sets it to that number or to 0, a switch
      to 1 or 0 - and no other slot. */
  lemma TableHolds(o: seq<byte>, text: string, n: nat, s: Slot, on: bool, t: Slot)
    requires Whole(o) && Row(text, n, s)
    ensures Digits(text) && Whole(o + Sequenced([0x3f] + Text(text), if on then 0x68 else 0x6c))
    ensures Val(Seen(o + Sequenced([0x3f] + Text(text), if on then 0x68 else 0x6c)), t) ==
              if t != s then Val(Seen(o), t)
              else if s == Alt || s == Tracking || s == Encoding then (if on then n else 0)
              else if on then 1 else 0
  {
    hide Row, Val, ApplyAll, Text;
    RowWrites(text, n, s, on);
    var sequence := Sequenced([0x3f] + Text(text), if on then 0x68 else 0x6c);
    hide Sequenced;
    SeenMore(o, sequence);
    OneWrite(Seen(o), n, on, text, s, t);
  }

  /** The alternate screen, byte by byte: `ESC [ ? 1049 h` turns it on and
      `ESC [ ? 1049 l` off, after any output. */
  lemma AlternateScreen(o: seq<byte>)
    requires Whole(o)
    ensures Val(Seen(o + [0x1b, 0x5b, 0x3f, 0x31, 0x30, 0x34, 0x39, 0x68]), Alt) == 1049
    ensures Val(Seen(o + [0x1b, 0x5b, 0x3f, 0x31, 0x30, 0x34, 0x39, 0x6c]), Alt) == 0
  {
    assert Sequenced([0x3f] + Text("1049"), 0x68) == [0x1b, 0x5b, 0x3f, 0x31, 0x30, 0x34, 0x39, 0x68];
    assert Sequenced([0x3f] + Text("1049"), 0x6c) == [0x1b, 0x5b, 0x3f, 0x31, 0x30, 0x34, 0x39, 0x6c];
    hide Text, Sequenced, Val, Seen;
    TableHolds(o, "1049", 1049, Alt, true, Alt);
    TableHolds(o, "1049", 1049, Alt, false, Alt);
  }

  /** A fresh terminal wraps lines and shows its cursor; everything else is off. */
  lemma StartsOff(s: Slot)
    ensures Val(Seen([]), s) == if s == Autowrap || s == Cursor then 1 else 0
  {
    assert Seen([]) == FRESH;
  }

  /** Nothing is restored exactly when there is nothing to restore: the preamble is
      empty if and only if every slot is as a fresh terminal has it. */
  lemma {:induction false} NothingToRestoreIff(o: seq<byte>)
    ensures Preamble(Seen(o)) == [] <==>
            forall s: Slot :: Val(Seen(o), s) == if s == Autowrap || s == Cursor then 1 else 0
  {
    var m := Seen(o);
    ApplyKeepsOk(FRESH, Writes(Ground, o));
    PreambleRestores(m);
    FreshPreamble();
    forall s: Slot ensures Val(FRESH, s) == if s == Autowrap || s == Cursor then 1 else 0 { StartsOff(s); }
    assert ApplyAll(FRESH, []) == FRESH;
    hide Preamble, Val, Seen, FRESH;
    if Preamble(m) == [] {
      assert SameModes(FRESH, m);
    } else if forall s: Slot :: Val(m, s) == if s == Autowrap || s == Cursor then 1 else 0 {
      assert SameModes(m, FRESH);
      PreambleOfSame(m, FRESH);
    }
  }

  lemma FreshPreamble()
    ensures Preamble(FRESH) == []
  {
    SwitchWritesAre(FRESH);
  }

  // -------------------------------------------------- several parameters

  function Prepend(b: byte, parts: seq<seq<byte>>): seq<seq<byte>>
    requires parts != []
  {
    if b == 0x3b then [[]] + parts else [[b] + parts[0]] + parts[1..]
  }

  lemma SplitStep(s: seq<byte>)
    requires s != []
    ensures Split(s) == Prepend(s[0], Split(s[1..]))
  {
  }

  lemma PrependPair(b: byte, a: seq<seq<byte>>, c: seq<seq<byte>>)
    requires a != []
    ensures Prepend(b, a + c) == Prepend(b, a) + c
  {
    assert (a + c)[1..] == a[1..] + c;
  }

  lemma {:induction false} SplitPair(x: seq<byte>, y: seq<byte>)
    ensures Split(x + [0x3b] + y) == Split(x) + Split(y)
  {
    var all := x + [0x3b] + y;
    SplitStep(all);
    if x == [] {
      assert all[1..] == y;
    } else {
      assert all[0] == x[0] && all[1..] == x[1..] + [0x3b] + y;
      SplitStep(x);
      hide Split, Prepend;
      SplitPair(x[1..], y);
      PrependPair(x[0], Split(x[1..]), Split(y));
    }
  }

  lemma {:induction false} PartsPair(a: seq<seq<byte>>, b: seq<seq<byte>>, on: bool)
    ensures PartsWrites(a + b, on) == PartsWrites(a, on) + PartsWrites(b, on)
  {
    if b == [] {
      assert a + b == a;
    } else {
      assert (a + b)[..|a + b| - 1] == a + b[..|b| - 1];
      PartsPair(a, b[..|b| - 1], on);
    }
  }

  lemma ExpandPair(x: seq<byte>, y: seq<byte>, on: bool)
    ensures Expand([0x3f] + x + [0x3b] + y, on) == Expand([0x3f] + x, on) + Expand([0x3f] + y, on)
  {
    assert ([0x3f] + x + [0x3b] + y)[1..] == x + [0x3b] + y;
    assert ([0x3f] + x)[1..] == x && ([0x3f] + y)[1..] == y;
    SplitPair(x, y);
    hide Split, PartsWrites;
    PartsPair(Split(x), Split(y), on);
  }

  lemma {:induction false} ListWrites(x: seq<byte>, y: seq<byte>, final: byte)
    requires Inner(x) && Inner(y) && |x| + |y| + 2 <= 32 && (final == 0x68 || final == 0x6c)
    ensures var one := Sequenced([0x3f] + x + [0x3b] + y, final);
            var two := Sequenced([0x3f] + x, final) + Sequenced([0x3f] + y, final);
            Run(Ground, one) == Ground == Run(Ground, two) && Writes(Ground, one) == Writes(Ground, two)
  {
    assert Inner([0x3f] + x + [0x3b] + y) && Inner([0x3f] + x) && Inner([0x3f] + y);
    hide Inner, Expand, Run, Writes, Sequenced;
    CsiWrites([0x3f] + x + [0x3b] + y, final);
    CsiWrites([0x3f] + x, final);
    CsiWrites([0x3f] + y, final);
    ExpandPair(x, y, final == 0x68);
    RunConcat(Ground, Sequenced([0x3f] + x, final), Sequenced([0x3f] + y, final));
  }

  /** `ESC [ ? x ; y h` does what `ESC [ ? x h` and then `ESC [ ? y h` do, for any
      parameter bytes x and y - numbers, lists of numbers, or neither; so does `l`. */
  lemma ListsApplyInOrder(o: seq<byte>, x: seq<byte>, y: seq<byte>, final: byte)
    requires Whole(o) && Inner(x) && Inner(y) && |x| + |y| + 2 <= 32 && (final == 0x68 || final == 0x6c)
    ensures var one := Sequenced([0x3f] + x + [0x3b] + y, final);
            var two := Sequenced([0x3f] + x, final) + Sequenced([0x3f] + y, final);
            Seen(o + one) == Seen(o + two) && Whole(o + one) && Whole(o + two)
  {
    hide Inner, Sequenced, Writes, Run, ApplyAll;
    ListWrites(x, y, final);
    SeenMore(o, Sequenced([0x3f] + x + [0x3b] + y, final));
    SeenMore(o, Sequenced([0x3f] + x, final) + Sequenced([0x3f] + y, final));
  }

  // ------------------------------------------------- what changes nothing

  lemma {:induction false} Overflows(params: seq<byte>)
    requires Inner(params) && |params| > 32
    ensures var p := Run(Parser.Csi([], false), params);
            p.Csi? && p.overflow && |p.params| == 32 && Writes(Parser.Csi([], false), params) == []
  {
    var init, b := params[..|params| - 1], params[|params| - 1];
    assert params == init + [b];
    hide Run, Writes;
    RunSnoc(Parser.Csi([], false), init, b);
    if |init| == 32 {
      Collect([], init);
      assert [] + init == init;
    } else {
      Overflows(init);
    }
  }

  /** Longer parameter runs than 32 bytes, sequences without the leading question
      mark, and other final bytes change nothing. */
  lemma {:induction false} OthersChangeNothing(o: seq<byte>, params: seq<byte>, final: byte)
    requires Whole(o) && Inner(params) && 0x40 <= final <= 0x7e
    requires |params| > 32 || params == [] || params[0] != 0x3f || (final != 0x68 && final != 0x6c)
    ensures Seen(o + Sequenced(params, final)) == Seen(o) && Whole(o + Sequenced(params, final))
  {
    var sequence := Sequenced(params, final);
    assert Run(Ground, sequence) == Ground && Writes(Ground, sequence) == [] by {
      if |params| > 32 {
        Overflows(params);
        Introducer();
        RunConcat(Ground, [0x1b, 0x5b], params);
        RunSnoc(Ground, [0x1b, 0x5b] + params, final);
      } else {
        CsiWrites(params, final);
      }
    }
    hide Sequenced, Writes, Run;
    SeenMore(o, sequence);
  }

  /** A sequence cut short by an escape changes nothing; the escape starts anew. */
  lemma {:induction false} AbortedChangesNothing(o: seq<byte>, params: seq<byte>)
    requires Whole(o) && Inner(params)
    ensures Seen(o + ([0x1b, 0x5b] + params + [0x1b])) == Seen(o)
    ensures Run(Ground, o + ([0x1b, 0x5b] + params + [0x1b])) == Escape
  {
    var cut := [0x1b, 0x5b] + params + [0x1b];
    assert Run(Ground, cut) == Escape && Writes(Ground, cut) == [] by {
      Introducer();
      RunConcat(Ground, [0x1b, 0x5b], params);
      RunSnoc(Ground, [0x1b, 0x5b] + params, 0x1b);
      if |params| > 32 { Overflows(params); } else { Collect([], params); }
    }
    hide Writes, Run;
    SeenMore(o, cut);
  }

  /** A part that is not a number is passed over: nothing but digits after one
      optional sign, and at least one digit, makes a number. */
  lemma NotANumber(o: seq<byte>, part: seq<byte>, final: byte, k: nat)
    requires Whole(o) && Inner(part) && 0x3b !in part && |part| + 1 <= 32 && 0x40 <= final <= 0x7e
    requires part == [] || (k < |part| && !(0x30 <= part[k] <= 0x39) && (k > 0 || (part[0] != 0x2d && part[0] != 0x2b)))
    ensures Seen(o + Sequenced([0x3f] + part, final)) == Seen(o)
  {
    assert Inner([0x3f] + part);
    assert Atoi(part) == None by {
      if part != [] && (part[0] == MINUS || part[0] == PLUS) {
        assert part[1..][k - 1] == part[k];
      }
    }
    hide Sequenced, Writes, Run, Atoi, AllDigits, Inner, Whole;
    NothingFrom(part, true);
    NothingFrom(part, false);
    hide Expand;
    CsiWrites([0x3f] + part, final);
    SeenMore(o, Sequenced([0x3f] + part, final));
  }

  lemma NothingFrom(part: seq<byte>, on: bool)
    requires 0x3b !in part && Atoi(part) == None
    ensures Expand([0x3f] + part, on) == []
  {
    hide Atoi;
    SplitUnseparated(part);
    assert ([0x3f] + part)[1..] == part;
    assert PartsWrites([part], on) == [] + PartWrites(part, on);
  }
}
