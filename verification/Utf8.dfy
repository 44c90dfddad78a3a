/** Where a scrollback begins when the output is UTF-8 (RFC 3629 section 4). */
module Utf8 {
  import opened Bytes
  import opened Scrollback

  /** One encoded character, by the syntax table of RFC 3629 section 4. */
  predicate IsRune(r: seq<byte>) {
    match |r|
    case 1 => r[0] <= 0x7F
    case 2 => 0xC2 <= r[0] <= 0xDF && Cont(r[1])
    case 3 =>
      && Cont(r[1]) && Cont(r[2])
      && (|| (r[0] == 0xE0 && 0xA0 <= r[1])
          || 0xE1 <= r[0] <= 0xEC
          || (r[0] == 0xED && r[1] <= 0x9F)
          || 0xEE <= r[0] <= 0xEF)
    case 4 =>
      && Cont(r[1]) && Cont(r[2]) && Cont(r[3])
      && (|| (r[0] == 0xF0 && 0x90 <= r[1])
          || 0xF1 <= r[0] <= 0xF3
          || (r[0] == 0xF4 && r[1] <= 0x8F))
    case _ => false
  }

  predicate AllRunes(runes: seq<seq<byte>>) {
    forall k :: 0 <= k < |runes| ==> IsRune(runes[k])
  }

  /** Index `i` of the text is between two characters. */
  ghost predicate Boundary(runes: seq<seq<byte>>, i: nat) {
    exists k :: 0 <= k <= |runes| && i == |Flat(runes[..k])|
  }

  lemma BoundaryShift(runes: seq<seq<byte>>, i: nat)
    requires runes != [] && Boundary(runes[1..], i)
    ensures Boundary(runes, |runes[0]| + i)
  {
    var k :| 0 <= k <= |runes[1..]| && i == |Flat(runes[1..][..k])|;
    assert runes[..k + 1][1..] == runes[1..][..k];
    assert |Flat(runes[..k + 1])| == |runes[0]| + i;
  }

  /** A byte that is no continuation byte starts a character, and so does
      whatever follows three continuation bytes. */
  lemma {:induction false} Boundaries(runes: seq<seq<byte>>, i: nat)
    requires AllRunes(runes)
    ensures i < |Flat(runes)| && !Cont(Flat(runes)[i]) ==> Boundary(runes, i)
    ensures i + 3 <= |Flat(runes)| && Cont(Flat(runes)[i]) && Cont(Flat(runes)[i + 1]) && Cont(Flat(runes)[i + 2])
            ==> Boundary(runes, i + 3)
  {
    assert runes[..0] == [];
    assert Flat(runes[..0]) == [];
    if runes != [] {
      var r := runes[0];
      assert IsRune(r);
      assert runes[..1][1..] == [];
      assert Flat(runes[..1]) == r + [];
      if i >= |r| {
        Boundaries(runes[1..], i - |r|);
        assert Flat(runes) == r + Flat(runes[1..]);
        if Boundary(runes[1..], i - |r|) { BoundaryShift(runes, i - |r|); }
        if Boundary(runes[1..], i - |r| + 3) { BoundaryShift(runes, i - |r| + 3); }
      } else {
        FirstRune(runes, i);
      }
    }
  }

  lemma FirstRune(runes: seq<seq<byte>>, i: nat)
    requires AllRunes(runes) && runes != [] && i < |runes[0]|
    ensures !Cont(Flat(runes)[i]) ==> Boundary(runes, i)
    ensures i + 3 <= |Flat(runes)| && Cont(Flat(runes)[i]) && Cont(Flat(runes)[i + 1]) && Cont(Flat(runes)[i + 2])
            ==> Boundary(runes, i + 3)
  {
    var r, x := runes[0], Flat(runes);
    assert IsRune(r);
    assert x[i] == r[i];
    assert !Cont(r[0]);
    assert runes[..0] == [] && Flat(runes[..0]) == [];
    assert runes[..1][1..] == [] && Flat(runes[..1]) == r + [];
    assert Boundary(runes, |r|);
    assert x == r + Flat(runes[1..]);
    if |runes| > 1 {
      // the character after the first one starts with no continuation byte
      assert IsRune(runes[1]) && runes[1..][0] == runes[1];
    }
  }

  /** The scrollback begins on a character boundary of the text. */
  ghost predicate StartsOnRune(runes: seq<seq<byte>>, output: seq<byte>, s: seq<byte>) {
    IsSuffix(s, output) && Boundary(runes, |output| - |s|)
  }

  lemma {:induction false} TrimKeepsRunes(runes: seq<seq<byte>>, chunks: seq<Chunk>, max: nat)
    requires max >= 3 && AllRunes(runes) && Flat(chunks) <= Flat(runes)
    ensures StartsOnRune(runes, Flat(chunks), Scroll(chunks, max))
  {
    if chunks == [] {
      assert Flat(runes[..0]) == [];
    } else {
      var init, c := chunks[..|chunks| - 1], chunks[|chunks| - 1];
      assert init + [c] == chunks;
      FlatSnoc(init, c);
      TrimKeepsRunes(runes, init, max);
      TrimOnRune(runes, Flat(init), Scroll(init, max), c, max);
    }
  }

  lemma TrimOnRune(runes: seq<seq<byte>>, x: seq<byte>, s: seq<byte>, c: Chunk, max: nat)
    requires max >= 3 && AllRunes(runes) && x + c <= Flat(runes)
    requires StartsOnRune(runes, x, s)
    ensures StartsOnRune(runes, x + c, Trim(s + c, max))
  {
    hide AllRunes, Flat, Boundary, SkipCont, Cont;
    var y, b := x + c, s + c;
    var i := |x| - |s|;
    assert b == y[i..];
    if |b| > max {
      var k := SkipCont(b, |b| - max, 3);
      assert y[i + k..] == b[k..];
      SkipEndsOnRune(runes, y, i, |b| - max);
    }
  }

  /** Skipping up to three continuation bytes ends between two characters. */
  lemma SkipEndsOnRune(runes: seq<seq<byte>>, y: seq<byte>, i: nat, start: nat)
    requires AllRunes(runes) && y <= Flat(runes) && i + start + 3 <= |y|
    ensures Boundary(runes, i + SkipCont(y[i..], start, 3))
  {
    hide AllRunes, Flat, Boundary, Cont;
    var b := y[i..];
    var k := SkipCont(b, start, 3);
    assert forall n {:trigger b[n]} :: 0 <= n < |b| ==> b[n] == Flat(runes)[i + n];
    Boundaries(runes, i + k);
    if k == start + 3 {
      Boundaries(runes, i + start);
      assert Cont(b[start]) && Cont(b[start + 1]) && Cont(b[start + 2]);
    }
  }

  /** U+1F600, the four-byte character used to show that the bound is sharp. */
  const GRIN: seq<byte> := [0xF0, 0x9F, 0x98, 0x80]

  lemma TwoChunks(a: Chunk, b: Chunk, max: nat)
    ensures Scroll([a, b], max) == Trim(Trim(a, max) + b, max)
    ensures Flat([a, b]) == a + b
  {
    hide Trim;
    FlatSnoc([a], b);
    FlatSnoc([], a);
    assert [a] + [b] == [a, b] && [] + [a] == [a] && Flat<byte>([]) + a == a;
    assert [a, b][..1] == [a] && [a][..0] == [];
    assert Scroll([], max) + a == a;
    assert Scroll([a], max) == Trim(Scroll([], max) + a, max);
  }

  /** The cut falls on continuation bytes only and leaves nothing. */
  lemma FrontLost(max: nat)
    requires 1 <= max <= 2
    ensures Trim(GRIN[..max + 1], max) == []
  {
    var s := GRIN[..max + 1];
    assert s[1] == 0x9F && (max == 2 ==> s[2] == 0x98);
    assert Cont(0x9F) && Cont(0x98);
    assert SkipCont(s, 1, 3) == max + 1;
  }

  lemma GrinBoundaries(i: nat)
    requires Boundary([GRIN], i)
    ensures i == 0 || i == 4
  {
    var k :| 0 <= k <= 1 && i == |Flat([GRIN][..k])|;
    assert [GRIN][..0] == [] && [GRIN][..1] == [GRIN];
    FlatSnoc([], GRIN);
    assert [] + [GRIN] == [GRIN] && Flat<byte>([]) + GRIN == GRIN;
  }

  lemma SmallBufferSplitsRune(max: nat) returns (chunks: seq<Chunk>)
    requires 1 <= max <= 2
    ensures Flat(chunks) <= Flat([GRIN])
    ensures !StartsOnRune([GRIN], Flat(chunks), Scroll(chunks, max))
  {
    hide Flat, Scroll, Boundary, SkipCont, Cont;
    var first: Chunk, second: Chunk := GRIN[..max + 1], [GRIN[max + 1]];
    chunks := [first, second];
    TwoChunks(first, second, max);
    FrontLost(max);
    assert [] + second == second;
    FlatSnoc([], GRIN);
    assert [] + [GRIN] == [GRIN];
    assert Flat<byte>([]) == [] by { NoBytes(); }
    assert Flat<byte>([]) + GRIN == GRIN;
    if Boundary([GRIN], max + 1) { GrinBoundaries(max + 1); }
  }

  lemma NoBytes()
    ensures Flat<byte>([]) == []
  {
  }

  /** For every buffer size: each UTF-8 output, in any chunking, leaves a
      scrollback that begins on a character boundary, if and only if the
      buffer holds at least 3 bytes. */
  lemma RuneAlignedIff(max: nat)
    requires max >= 1
    ensures (forall runes, chunks {:trigger AllRunes(runes), Scroll(chunks, max)} ::
              AllRunes(runes) && Flat(chunks) <= Flat(runes) ==>
              StartsOnRune(runes, Flat(chunks), Scroll(chunks, max)))
            <==> max >= 3
  {
    if max >= 3 {
      forall runes, chunks | AllRunes(runes) && Flat(chunks) <= Flat(runes)
        ensures StartsOnRune(runes, Flat(chunks), Scroll(chunks, max))
      {
        TrimKeepsRunes(runes, chunks, max);
      }
    } else {
      var chunks := SmallBufferSplitsRune(max);
      assert AllRunes([GRIN]);
    }
  }
}
