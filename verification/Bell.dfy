/** The attention detector of internal/session/bell.go: bare BEL characters and
    OSC 9 notifications (OSC as in ECMA-48 section 8.3.89; BEL as its terminator
    is the xterm extension), over any chunking of any stream. */
module Bell {
  import opened Bytes

  const INTRODUCER: byte := ']' as byte
  const TERMINATOR: byte := '\\' as byte
  const MAX_OSC: nat := 512
  const NINE: byte := '9' as byte
  const SEMI: byte := ';' as byte

  /** ToValidUTF8 followed by TrimSpace, of which nothing is assumed. */
  type Sanitizer = seq<byte> -> seq<byte>

  datatype Detector = Detector(afterEscape: bool, inOSC: bool, oscBuf: seq<byte>)

  const IDLE := Detector(false, false, [])

  datatype Result = Result(bell: bool, messages: seq<seq<byte>>)

  const NOTHING := Result(false, [])

  function Both(x: Result, y: Result): Result {
    Result(x.bell || y.bell, x.messages + y.messages)
  }

  // ------------------------------------------------------- one byte at a time

  /** What a finished OSC string reports. */
  function Report(buf: seq<byte>, clean: Sanitizer): Result {
    if |buf| >= 2 && buf[0] == NINE && buf[1] == SEMI && clean(buf[2..]) != []
    then Result(false, [clean(buf[2..])]) else NOTHING
  }

  function Next(d: Detector, b: byte): Detector {
    if d.afterEscape then
      if b == INTRODUCER then Detector(false, true, [])
      else if d.inOSC && b == TERMINATOR then IDLE
      else d.(afterEscape := false)
    else if b == ESC then d.(afterEscape := true)
    else if b == BEL then (if d.inOSC then IDLE else d)
    else if d.inOSC && |d.oscBuf| < MAX_OSC then d.(oscBuf := d.oscBuf + [b])
    else d
  }

  function Seen(d: Detector, b: byte, clean: Sanitizer): Result {
    if d.afterEscape then
      if d.inOSC && b == TERMINATOR then Report(d.oscBuf, clean) else NOTHING
    else if b == BEL then
      if d.inOSC then Report(d.oscBuf, clean) else Result(true, [])
    else NOTHING
  }

  function Scan(d: Detector, s: seq<byte>): Detector {
    if s == [] then d else Next(Scan(d, s[..|s| - 1]), s[|s| - 1])
  }

  function Found(d: Detector, s: seq<byte>, clean: Sanitizer): Result {
    if s == [] then NOTHING
    else Both(Found(d, s[..|s| - 1], clean), Seen(Scan(d, s[..|s| - 1]), s[|s| - 1], clean))
  }

  // --------------------------------------------------------- the detector

  class BellDetector {
    const clean: Sanitizer
    var afterEscape: bool
    var inOSC: bool
    var oscBuf: seq<byte>

    constructor (clean: Sanitizer)
      ensures this.clean == clean && D() == IDLE
    {
      this.clean := clean;
      afterEscape, inOSC, oscBuf := false, false, [];
    }

    function D(): Detector
      reads this
    {
      Detector(afterEscape, inOSC, oscBuf)
    }

    method Process(data: Chunk) returns (res: Result)
      modifies this
      ensures D() == Scan(old(D()), data)
      ensures res == Found(old(D()), data, clean)
    {
      hide Report;
      res := NOTHING;
      ghost var d0 := D();
      for i := 0 to |data|
        invariant D() == Scan(d0, data[..i]) && res == Found(d0, data[..i], clean)
      {
        var b := data[i];
        ByteScanned(d0, data, i, clean);
        if afterEscape {
          afterEscape := false;
          if b == INTRODUCER {
            inOSC, oscBuf := true, [];
          } else if inOSC && b == TERMINATOR {
            res := EndOSC(res);
          }
        } else if b == ESC {
          afterEscape := true;
        } else if b == BEL {
          if inOSC { res := EndOSC(res); } else { res := res.(bell := true); }
        } else if inOSC && |oscBuf| < MAX_OSC {
          oscBuf := oscBuf + [b];
        }
      }
      assert data[..|data|] == data;
    }

    method EndOSC(res: Result) returns (r: Result)
      modifies this`inOSC, this`oscBuf
      ensures !inOSC && oscBuf == []
      ensures r == Both(res, Report(old(oscBuf), clean))
      ensures r.bell == res.bell
      ensures |old(oscBuf)| <= 512 ==> r.messages == res.messages + Notified(old(oscBuf), clean)
    {
      inOSC := false;
      r := res;
      if |oscBuf| >= 2 && oscBuf[0] == NINE && oscBuf[1] == SEMI {
        var msg := clean(oscBuf[2..]);
        if msg != [] { r := r.(messages := r.messages + [msg]); }
      }
      oscBuf := [];
    }
  }

  lemma ByteScanned(d: Detector, data: Chunk, i: nat, clean: Sanitizer)
    requires i < |data|
    ensures Scan(d, data[..i + 1]) == Next(Scan(d, data[..i]), data[i])
    ensures Found(d, data[..i + 1], clean) == Both(Found(d, data[..i], clean), Seen(Scan(d, data[..i]), data[i], clean))
  {
    assert data[..i + 1][..i] == data[..i];
  }

  // ----------------------------------------------------- chunk independence

  lemma {:induction false} ScanConcat(d: Detector, a: seq<byte>, b: seq<byte>, clean: Sanitizer)
    ensures Scan(d, a + b) == Scan(Scan(d, a), b)
    ensures Found(d, a + b, clean) == Both(Found(d, a, clean), Found(Scan(d, a), b, clean))
  {
    hide Next, Seen;
    if b == [] {
      assert a + b == a;
    } else {
      var init := b[..|b| - 1];
      assert (a + b)[..|a + b| - 1] == a + init;
      ScanConcat(d, a, init, clean);
    }
  }

  /** The combined result of processing chunks one by one. */
  function FoundInChunks(d: Detector, chunks: seq<Chunk>, clean: Sanitizer): Result
    decreases |chunks|
  {
    if chunks == [] then NOTHING
    else Both(Found(d, chunks[0], clean), FoundInChunks(Scan(d, chunks[0]), chunks[1..], clean))
  }

  lemma {:induction false} ChunkIndependent(d: Detector, chunks: seq<Chunk>, clean: Sanitizer)
    ensures FoundInChunks(d, chunks, clean) == Found(d, Flat(chunks), clean)
    decreases |chunks|
  {
    hide Next, Seen;
    if chunks != [] {
      ChunkIndependent(Scan(d, chunks[0]), chunks[1..], clean);
      ScanConcat(d, chunks[0], Flat(chunks[1..]), clean);
    }
  }

  // ---------------------------------------------------- tokens of a stream

  /** Inside an OSC string: a plain byte, or ESC and a byte that ends nothing.
      ESC ] starts the string over. */
  datatype Piece = Plain(b: byte) | Escaped(b: byte)

  datatype Token =
    | Text(b: byte)                        // any byte but ESC and BEL
    | Ring                                 // a bare BEL
    | Pair(b: byte)                        // ESC and any byte but ]
    | Osc(pieces: seq<Piece>, bel: bool)   // ended by BEL or by ESC backslash

  predicate PieceOk(p: Piece) {
    match p
    case Plain(b) => b != ESC && b != BEL
    case Escaped(b) => b != TERMINATOR
  }

  predicate TokenOk(t: Token) {
    match t
    case Text(b) => b != ESC && b != BEL
    case Ring => true
    case Pair(b) => b != INTRODUCER
    case Osc(pieces, _) => forall k :: 0 <= k < |pieces| ==> PieceOk(pieces[k])
  }

  predicate PiecesOk(ps: seq<Piece>) { forall k :: 0 <= k < |ps| ==> PieceOk(ps[k]) }

  predicate TokensOk(ts: seq<Token>) { forall k :: 0 <= k < |ts| ==> TokenOk(ts[k]) }

  function PrintPiece(p: Piece): seq<byte> {
    match p case Plain(b) => [b] case Escaped(b) => [0x1b, b]
  }

  function PrintPieces(ps: seq<Piece>): seq<byte> {
    if ps == [] then [] else PrintPieces(ps[..|ps| - 1]) + PrintPiece(ps[|ps| - 1])
  }

  function PrintToken(t: Token): seq<byte> {
    match t
    case Text(b) => [b]
    case Ring => [0x07]
    case Pair(b) => [0x1b, b]
    case Osc(pieces, bel) => [0x1b, 0x5d] + PrintPieces(pieces) + (if bel then [0x07] else [0x1b, 0x5c])
  }

  function Print(ts: seq<Token>): seq<byte> {
    if ts == [] then [] else Print(ts[..|ts| - 1]) + PrintToken(ts[|ts| - 1])
  }

  /** The text of an OSC string: its plain bytes since it was last started over. */
  function Payload(ps: seq<Piece>): seq<byte> {
    if ps == [] then []
    else match ps[|ps| - 1]
      case Plain(b) => Payload(ps[..|ps| - 1]) + [b]
      case Escaped(b) => if b == INTRODUCER then [] else Payload(ps[..|ps| - 1])
  }

  function Capped(s: seq<byte>): seq<byte> { if |s| > 512 then s[..512] else s }

  predicate Rings(ts: seq<Token>) { Ring in ts }

  /** What an OSC string with this text notifies of: its first 512 bytes after a
      leading `9;`, cleaned, unless nothing is left. */
  function Notified(text: seq<byte>, clean: Sanitizer): seq<seq<byte>> {
    var p := Capped(text);
    if |p| >= 2 && p[0] == 0x39 && p[1] == 0x3b && clean(p[2..]) != [] then [clean(p[2..])] else []
  }

  /** The notifications among the tokens, in order. */
  function Notifications(ts: seq<Token>, clean: Sanitizer): seq<seq<byte>> {
    if ts == [] then []
    else
      var t := ts[|ts| - 1];
      Notifications(ts[..|ts| - 1], clean) + if t.Osc? then Notified(Payload(t.pieces), clean) else []
  }

  /** The code's report of a finished string is that notification and no bell. */
  lemma ReportIs(text: seq<byte>, clean: Sanitizer)
    ensures Report(Capped(text), clean) == Result(false, Notified(text, clean))
  {
  }

  lemma CappedTwice(s: seq<byte>)
    requires |s| <= 512
    ensures Capped(s) == s
  {
  }

  /** What is left of a stream after its last whole token. */
  datatype Tail = Done | Dangling | Open(pieces: seq<Piece>) | OpenDangling(pieces: seq<Piece>)

  predicate TailOk(t: Tail) {
    t.Open? || t.OpenDangling? ==> PiecesOk(t.pieces)
  }

  function PrintTail(t: Tail): seq<byte> {
    match t
    case Done => []
    case Dangling => [0x1b]
    case Open(ps) => [0x1b, 0x5d] + PrintPieces(ps)
    case OpenDangling(ps) => [0x1b, 0x5d] + PrintPieces(ps) + [0x1b]
  }

  function StateAfter(t: Tail): Detector {
    match t
    case Done => IDLE
    case Dangling => Detector(true, false, [])
    case Open(ps) => Detector(false, true, Capped(Payload(ps)))
    case OpenDangling(ps) => Detector(true, true, Capped(Payload(ps)))
  }

  // --------------------------------------------------------- the theorem

  lemma ScanOne(d: Detector, b: byte, clean: Sanitizer)
    ensures Scan(d, [b]) == Next(d, b) && Found(d, [b], clean) == Seen(d, b, clean)
  {
    hide Report;
    assert [b][..0] == [];
  }

  lemma ScanTwo(d: Detector, b: byte, c: byte, clean: Sanitizer)
    ensures Scan(d, [b, c]) == Next(Next(d, b), c)
    ensures Found(d, [b, c], clean) == Both(Seen(d, b, clean), Seen(Next(d, b), c, clean))
  {
    hide Report, Next, Seen;
    assert [b, c] == [b] + [c];
    ScanConcat(d, [b], [c], clean);
    ScanOne(d, b, clean);
    ScanOne(Next(d, b), c, clean);
  }

  lemma ScanPiece(d: Detector, p: Piece, clean: Sanitizer)
    requires PieceOk(p) && d.inOSC && !d.afterEscape
    ensures Found(d, PrintPiece(p), clean) == NOTHING
    ensures Scan(d, PrintPiece(p)) ==
            match p
            case Plain(b) => if |d.oscBuf| < MAX_OSC then d.(oscBuf := d.oscBuf + [b]) else d
            case Escaped(b) => if b == INTRODUCER then d.(oscBuf := []) else d
  {
    match p
    case Plain(b) => ScanOne(d, b, clean);
    case Escaped(b) => ScanTwo(d, ESC, b, clean);
  }

  lemma {:induction false} ScanPieces(ps: seq<Piece>, clean: Sanitizer)
    requires PiecesOk(ps)
    ensures Scan(Detector(false, true, []), PrintPieces(ps)) == Detector(false, true, Capped(Payload(ps)))
    ensures Found(Detector(false, true, []), PrintPieces(ps), clean) == NOTHING
  {
    hide Next, Seen, Report;
    if ps != [] {
      var init, p := ps[..|ps| - 1], ps[|ps| - 1];
      ScanPieces(init, clean);
      ScanConcat(Detector(false, true, []), PrintPieces(init), PrintPiece(p), clean);
      hide Scan, Found;
      ScanPiece(Detector(false, true, Capped(Payload(init))), p, clean);
    }
  }

  lemma ScanOpen(ps: seq<Piece>, clean: Sanitizer)
    requires PiecesOk(ps)
    ensures Scan(IDLE, [ESC, INTRODUCER] + PrintPieces(ps)) == Detector(false, true, Capped(Payload(ps)))
    ensures Found(IDLE, [ESC, INTRODUCER] + PrintPieces(ps), clean) == NOTHING
  {
    ScanTwo(IDLE, ESC, INTRODUCER, clean);
    ScanPieces(ps, clean);
    ScanConcat(IDLE, [ESC, INTRODUCER], PrintPieces(ps), clean);
  }

  lemma ScanToken(t: Token, clean: Sanitizer)
    requires TokenOk(t)
    ensures Scan(IDLE, PrintToken(t)) == IDLE
    ensures Found(IDLE, PrintToken(t), clean) ==
            Result(t.Ring?, if t.Osc? then Notified(Payload(t.pieces), clean) else [])
  {
    match t
    case Text(b) => ScanOne(IDLE, b, clean);
    case Ring => ScanOne(IDLE, BEL, clean);
    case Pair(b) => ScanTwo(IDLE, ESC, b, clean);
    case Osc(pieces, bel) => ScanOsc(pieces, bel, clean);
  }

  lemma ScanOsc(ps: seq<Piece>, bel: bool, clean: Sanitizer)
    requires PiecesOk(ps)
    ensures Scan(IDLE, PrintToken(Osc(ps, bel))) == IDLE
    ensures Found(IDLE, PrintToken(Osc(ps, bel)), clean) == Result(false, Notified(Payload(ps), clean))
  {
    ReportIs(Payload(ps), clean);
    hide Scan, Found, Payload, Capped, PrintPieces, Notified;
    var open := [ESC, INTRODUCER] + PrintPieces(ps);
    var d := Detector(false, true, Capped(Payload(ps)));
    ScanOpen(ps, clean);
    ScanConcat(IDLE, open, if bel then [BEL] else [ESC, TERMINATOR], clean);
    if bel { ScanOne(d, BEL, clean); } else { ScanTwo(d, ESC, TERMINATOR, clean); }
  }

  /** One OSC string: no bell; no message unless its first 512 bytes begin with
      `9;`, and then exactly the rest of them, cleaned, if anything is left. */
  lemma OscNotifies(ps: seq<Piece>, bel: bool, clean: Sanitizer)
    requires PiecesOk(ps)
    ensures var text := if |Payload(ps)| > 512 then Payload(ps)[..512] else Payload(ps);
            var found := Found(IDLE, [0x1b, 0x5d] + PrintPieces(ps) + (if bel then [0x07] else [0x1b, 0x5c]), clean);
            && !found.bell
            && (!([0x39, 0x3b] <= text) ==> found.messages == [])
            && ([0x39, 0x3b] <= text ==> found.messages == if clean(text[2..]) == [] then [] else [clean(text[2..])])
  {
    ScanOsc(ps, bel, clean);
    hide Found, Payload, PrintPieces;
    var text := Capped(Payload(ps));
    assert [0x39, 0x3b] <= text <==> |text| >= 2 && text[0] == 0x39 && text[1] == 0x3b;
  }

  lemma {:induction false} ScanTokens(ts: seq<Token>, clean: Sanitizer)
    requires TokensOk(ts)
    ensures Scan(IDLE, Print(ts)) == IDLE
    ensures Found(IDLE, Print(ts), clean) == Result(Rings(ts), Notifications(ts, clean))
  {
    hide Scan, Found, Report, Payload, PrintToken, Notified;
    if ts == [] {
      ScanNothing(clean);
    } else {
      var init, t := ts[..|ts| - 1], ts[|ts| - 1];
      ScanTokens(init, clean);
      ScanToken(t, clean);
      ScanConcat(IDLE, Print(init), PrintToken(t), clean);
      assert ts == init + [t];
    }
  }

  lemma ScanNothing(clean: Sanitizer)
    ensures Scan(IDLE, []) == IDLE && Found(IDLE, [], clean) == NOTHING
  {
  }

  lemma ScanTail(tail: Tail, clean: Sanitizer)
    requires TailOk(tail)
    ensures Scan(IDLE, PrintTail(tail)) == StateAfter(tail)
    ensures Found(IDLE, PrintTail(tail), clean) == NOTHING
  {
    hide Scan, Found, Payload, Capped, PrintPieces;
    match tail
    case Done => ScanNothing(clean);
    case Dangling => ScanOne(IDLE, ESC, clean);
    case Open(ps) => ScanOpen(ps, clean);
    case OpenDangling(ps) =>
      ScanOpen(ps, clean);
      ScanConcat(IDLE, [ESC, INTRODUCER] + PrintPieces(ps), [ESC], clean);
      ScanOne(Detector(false, true, Capped(Payload(ps))), ESC, clean);
  }

  /** The detector inverts the printer, in any chunking: a bell is reported if
      and only if a bare BEL token occurs, and the messages are the OSC 9
      payloads, capped, cleaned and nonempty, in order. */
  lemma DetectsTokens(ts: seq<Token>, tail: Tail, chunks: seq<Chunk>, clean: Sanitizer)
    requires TokensOk(ts) && TailOk(tail)
    requires Flat(chunks) == Print(ts) + PrintTail(tail)
    ensures FoundInChunks(IDLE, chunks, clean) == Result(Rings(ts), Notifications(ts, clean))
    ensures Scan(IDLE, Flat(chunks)) == StateAfter(tail)
  {
    hide Scan, Found, Notifications, Rings;
    ChunkIndependent(IDLE, chunks, clean);
    ScanTokens(ts, clean);
    ScanTail(tail, clean);
    ScanConcat(IDLE, Print(ts), PrintTail(tail), clean);
  }

  /** Every byte stream is tokens and a tail, so the theorem covers all streams. */
  lemma {:induction false} EveryStreamIsTokens(s: seq<byte>) returns (ts: seq<Token>, tail: Tail)
    ensures TokensOk(ts) && TailOk(tail)
    ensures s == Print(ts) + PrintTail(tail)
  {
    hide Print, PrintTail, PrintPieces, TokensOk, TailOk;
    if s == [] {
      ts, tail := [], Done;
      NothingPrinted();
    } else {
      var b := s[|s| - 1];
      var ts0, tail0 := EveryStreamIsTokens(s[..|s| - 1]);
      ts, tail := OneMoreByte(ts0, tail0, b);
      assert s == s[..|s| - 1] + [b];
    }
  }

  lemma NothingPrinted()
    ensures TokensOk([]) && TailOk(Done) && Print([]) + PrintTail(Done) == []
  {
  }

  lemma OneMoreByte(ts: seq<Token>, tail: Tail, b: byte) returns (ts': seq<Token>, tail': Tail)
    requires TokensOk(ts) && TailOk(tail)
    ensures TokensOk(ts') && TailOk(tail')
    ensures Print(ts') + PrintTail(tail') == (Print(ts) + PrintTail(tail)) + [b]
  {
    hide Print, PrintPieces;
    match tail
    case Done =>
      if b == ESC { ts', tail' := ts, Dangling; }
      else { ts' := Emit(ts, if b == BEL then Ring else Text(b)); tail' := Done; }
    case Dangling =>
      if b == INTRODUCER { ts', tail' := ts, Open([]); EmptyPieces(); }
      else { ts' := Emit(ts, Pair(b)); tail' := Done; }
    case Open(ps) =>
      if b == ESC { ts', tail' := ts, OpenDangling(ps); }
      else if b == BEL { ts' := Emit(ts, Osc(ps, true)); tail' := Done; }
      else { ts', tail' := ts, Open(ps + [Plain(b)]); PiecesSnoc(ps, Plain(b)); }
    case OpenDangling(ps) =>
      if b == TERMINATOR { ts' := Emit(ts, Osc(ps, false)); tail' := Done; }
      else { ts', tail' := ts, Open(ps + [Escaped(b)]); PiecesSnoc(ps, Escaped(b)); }
  }

  lemma Emit(ts: seq<Token>, t: Token) returns (more: seq<Token>)
    requires TokensOk(ts) && TokenOk(t)
    ensures TokensOk(more) && Print(more) == Print(ts) + PrintToken(t)
  {
    more := ts + [t];
    assert more[..|more| - 1] == ts;
  }

  lemma PiecesSnoc(ps: seq<Piece>, p: Piece)
    ensures PrintPieces(ps + [p]) == PrintPieces(ps) + PrintPiece(p)
  {
    assert (ps + [p])[..|ps + [p]| - 1] == ps;
  }

  lemma EmptyPieces()
    ensures PrintPieces([]) == []
  {
  }

  /** The OSC buffer never exceeds its cap, on any input. */
  lemma {:induction false} BufferBounded(d: Detector, s: seq<byte>)
    requires |d.oscBuf| <= 512
    ensures |Scan(d, s).oscBuf| <= 512
  {
    if s != [] { BufferBounded(d, s[..|s| - 1]); }
  }
}
