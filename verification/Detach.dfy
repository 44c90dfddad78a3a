/** The detach chord of the CLI (internal/cli/cmd/helpers.go:382-417): Ctrl+B d,
    recognised across stdin reads of any size. */
module Detach {
  import opened Bytes

  const PREFIX: byte := 0x02
  const LEAVE: byte := 'd' as byte

  /** Bytes to forward, whether a prefix is held back, and whether to detach. */
  datatype Out = Out(send: seq<byte>, armed: bool, detach: bool)

  function After(front: seq<byte>, o: Out): Out { o.(send := front + o.send) }

  /** Scanning `s` with or without a prefix held back; the chord stops the scan. */
  function Scan(armed: bool, s: seq<byte>): Out
    decreases |s|
  {
    if s == [] then Out([], armed, false)
    else if armed then
      if s[0] == LEAVE then Out([], false, true)
      else After(if s[0] == PREFIX then [PREFIX] else [PREFIX, s[0]], Scan(false, s[1..]))
    else if s[0] == PREFIX then Scan(true, s[1..])
    else After([s[0]], Scan(false, s[1..]))
  }

  class DetachScanner {
    var armed: bool

    constructor ()
      ensures !armed
    {
      armed := false;
    }

    method ScanBuffer(buf: Chunk) returns (send: seq<byte>, detach: bool)
      modifies this
      ensures Out(send, armed, detach) == Scan(old(armed), buf)
    {
      hide Scan;
      send := [];
      assert buf[0..] == buf;
      for i := 0 to |buf|
        invariant After(send, Scan(armed, buf[i..])) == Scan(old(armed), buf)
      {
        var b := buf[i];
        ByteScanned(armed, buf, i);
        AfterTwice(send, Forwarded(armed, b), Scan(!armed && b == PREFIX, buf[i + 1..]));
        if armed {
          armed := false;
          if b == LEAVE {
            detach := true;
            return;
          } else if b == PREFIX {
            send := send + [PREFIX];
          } else {
            send := send + [PREFIX, b];
          }
        } else if b == PREFIX {
          armed := true;
        } else {
          send := send + [b];
        }
      }
      NothingLeft(armed, buf);
      detach := false;
    }
  }

  /** What a byte that does not complete the chord forwards. */
  function Forwarded(armed: bool, b: byte): seq<byte> {
    if armed then (if b == PREFIX then [PREFIX] else [PREFIX, b])
    else if b == PREFIX then [] else [b]
  }

  lemma ByteScanned(armed: bool, buf: Chunk, i: nat)
    requires i < |buf|
    ensures Scan(armed, buf[i..]) ==
            if armed && buf[i] == LEAVE then Out([], false, true)
            else After(Forwarded(armed, buf[i]), Scan(!armed && buf[i] == PREFIX, buf[i + 1..]))
  {
    assert buf[i..][0] == buf[i] && buf[i..][1..] == buf[i + 1..];
  }

  lemma NothingLeft(armed: bool, buf: Chunk)
    ensures Scan(armed, buf[|buf|..]) == Out([], armed, false)
  {
  }

  lemma AfterTwice(x: seq<byte>, y: seq<byte>, o: Out)
    ensures After(x, After(y, o)) == After(x + y, o)
  {
    Assoc(x, y, o.send);
  }

  // ----------------------------------------------------- chunk independence

  lemma {:induction false} ScanConcat(armed: bool, x: seq<byte>, y: seq<byte>)
    ensures var o := Scan(armed, x);
            Scan(armed, x + y) == if o.detach then o else After(o.send, Scan(o.armed, y))
    decreases |x|
  {
    if x == [] {
      assert x + y == y;
      AfterNothing(Scan(armed, y));
    } else {
      assert (x + y)[0] == x[0] && (x + y)[1..] == x[1..] + y;
      var armed' := !armed && x[0] == PREFIX;
      ScanHead(armed, x);
      ScanHead(armed, x + y);
      ScanConcat(armed', x[1..], y);
      hide Scan, Forwarded;
      AfterTwice(Forwarded(armed, x[0]), Scan(armed', x[1..]).send, Scan(Scan(armed', x[1..]).armed, y));
    }
  }

  lemma ScanHead(armed: bool, s: seq<byte>)
    requires s != []
    ensures Scan(armed, s) ==
            if armed && s[0] == LEAVE then Out([], false, true)
            else After(Forwarded(armed, s[0]), Scan(!armed && s[0] == PREFIX, s[1..]))
  {
    assert s[0..] == s;
    ByteScanned(armed, s, 0);
  }

  lemma AfterNothing(o: Out)
    ensures After([], o) == o
  {
    assert [] + o.send == o.send;
  }

  /** Reading chunk after chunk, until the chord or the end of input. */
  function ScanChunks(armed: bool, chunks: seq<Chunk>): Out
    decreases |chunks|
  {
    if chunks == [] then Out([], armed, false)
    else
      var o := Scan(armed, chunks[0]);
      if o.detach then o else After(o.send, ScanChunks(o.armed, chunks[1..]))
  }

  lemma {:induction false} ChunkIndependent(armed: bool, chunks: seq<Chunk>)
    ensures ScanChunks(armed, chunks) == Scan(armed, Flat(chunks))
    decreases |chunks|
  {
    if chunks != [] {
      ScanConcat(armed, chunks[0], Flat(chunks[1..]));
      ChunkIndependent(Scan(armed, chunks[0]).armed, chunks[1..]);
    }
  }

  // ------------------------------------------------------- any text passes

  /** The way to type `text` so that it arrives unchanged: prefixes doubled. */
  function Doubled(text: seq<byte>): seq<byte> {
    if text == [] then []
    else (if text[0] == 0x02 then [0x02, 0x02] else [text[0]]) + Doubled(text[1..])
  }

  lemma {:induction false} DoubledScans(text: seq<byte>)
    ensures Scan(false, Doubled(text)) == Out(text, false, false)
  {
    if text != [] {
      var rest := Doubled(text[1..]);
      DoubledScans(text[1..]);
      assert text == [text[0]] + text[1..];
      if text[0] == PREFIX {
        var s := [PREFIX, PREFIX] + rest;
        assert s[1..] == [PREFIX] + rest && s[1..][1..] == rest;
        assert Scan(true, s[1..]) == After([PREFIX], Scan(false, rest));
      } else {
        var s := [text[0]] + rest;
        assert s[1..] == rest;
      }
    }
  }

  /** Any bytes, doubled and read in any chunks, are forwarded exactly, with no
      detach and nothing held back. */
  lemma DoubledTextArrives(text: seq<byte>, chunks: seq<Chunk>)
    requires Flat(chunks) == Doubled(text)
    ensures ScanChunks(false, chunks) == Out(text, false, false)
  {
    ChunkIndependent(false, chunks);
    DoubledScans(text);
  }

  // -------------------------------------------------- when input is transparent

  /** No prefix that is not itself the second of a pair is followed by `d` or
      by another prefix. */
  predicate Transparent(s: seq<byte>)
    decreases |s|
  {
    if s == [] || s == [0x02] then true
    else if s[0] == 0x02 then s[1] != 0x64 && s[1] != 0x02 && Transparent(s[2..])
    else Transparent(s[1..])
  }

  function Held(o: Out): seq<byte> { if o.armed then [0x02] else [] }

  lemma {:induction false} NeverLonger(armed: bool, s: seq<byte>)
    ensures |Scan(armed, s).send| + |Held(Scan(armed, s))| <= |s| + (if armed then 1 else 0)
    decreases |s|
  {
    if s != [] { NeverLonger(!armed && s[0] == PREFIX, s[1..]); }
  }

  lemma ScanPair(s: seq<byte>)
    requires |s| >= 2 && s[0] == PREFIX
    ensures Scan(false, s) == if s[1] == LEAVE then Out([], false, true)
                              else After(if s[1] == PREFIX then [PREFIX] else [PREFIX, s[1]], Scan(false, s[2..]))
  {
    assert s[1..][0] == s[1] && s[1..][1..] == s[2..];
  }

  /** Input passes through unchanged, but for a held final prefix, if and only
      if it is transparent. */
  lemma {:induction false} TransparentIff(s: seq<byte>)
    ensures var o := Scan(false, s); (!o.detach && o.send + Held(o) == s) <==> Transparent(s)
    decreases |s|
  {
    if s == [] {
    } else if s == [PREFIX] {
      assert Scan(true, []) == Out([], true, false) && s[1..] == [];
    } else if s[0] == PREFIX {
      ScanPair(s);
      TransparentIff(s[2..]);
      NeverLonger(false, s[2..]);
      var o := Scan(false, s[2..]);
      assert s == [PREFIX, s[1]] + s[2..];
      if s[1] != LEAVE && s[1] != PREFIX {
        Assoc([PREFIX, s[1]], o.send, Held(o));
        Cancel([PREFIX, s[1]], o.send + Held(o), s[2..]);
      }
    } else {
      TransparentIff(s[1..]);
      var o := Scan(false, s[1..]);
      assert s == [s[0]] + s[1..];
      Assoc([s[0]], o.send, Held(o));
      Cancel([s[0]], o.send + Held(o), s[1..]);
    }
  }

  lemma Cancel(p: seq<byte>, x: seq<byte>, y: seq<byte>)
    ensures p + x == p + y <==> x == y
  {
    assert (p + x)[|p|..] == x && (p + y)[|p|..] == y;
  }

  /** The chord detaches wherever it is typed after input that does not detach
      and leaves no prefix held; what follows it is discarded. */
  lemma ChordDetaches(typed: seq<byte>, rest: seq<byte>)
    requires var o := Scan(false, typed); !o.detach && !o.armed
    ensures Scan(false, typed + [0x02, 0x64] + rest) == Out(Scan(false, typed).send, false, true)
  {
    Assoc(typed, [PREFIX, LEAVE], rest);
    ScanConcat(false, typed, [PREFIX, LEAVE] + rest);
    ScanPair([PREFIX, LEAVE] + rest);
  }
}
