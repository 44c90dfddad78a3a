/** The front-trimmed scrollback of internal/session/session.go: the trim of
    appendAndBroadcast, and what a scrollback is after any sequence of appends. */
module Scrollback {
  import opened Bytes

  /** A UTF-8 continuation byte: `b & 0xC0 == 0x80`. */
  predicate Cont(b: byte) { 0x80 <= b < 0xC0 }

  /** The first index from `i` on, at most `n` further, that holds no continuation byte. */
  function SkipCont(s: seq<byte>, i: nat, n: nat): (k: nat)
    requires i <= |s|
    ensures i <= k <= |s| && k <= i + n
    ensures forall x :: i <= x < k ==> Cont(s[x])
    ensures k < |s| && k < i + n ==> !Cont(s[k])
    decreases n
  {
    if n > 0 && i < |s| && Cont(s[i]) then SkipCont(s, i + 1, n - 1) else i
  }

  function Trim(buf: seq<byte>, max: nat): seq<byte> {
    if |buf| > max then buf[SkipCont(buf, |buf| - max, 3)..] else buf
  }

  /** The scrollback after appending `chunks` one by one. */
  function Scroll(chunks: seq<Chunk>, max: nat): seq<byte> {
    if chunks == [] then []
    else Trim(Scroll(chunks[..|chunks| - 1], max) + chunks[|chunks| - 1], max)
  }

  /** `s` is `x` cut at `i`: either the whole of `x`, or a cut at `j` that left
      at least `max` bytes, moved forward over at most 3 continuation bytes. */
  ghost predicate CutAt(x: seq<byte>, s: seq<byte>, max: nat, j: nat, i: nat) {
    && j <= i <= |x| && i <= j + 3
    && s == x[i..] && |s| <= max
    && (j == 0 ==> i == 0)
    && (j > 0 ==> |x| - j >= max)
    && (forall k :: j <= k < i ==> Cont(x[k]))
  }

  ghost predicate IsScroll(x: seq<byte>, s: seq<byte>, max: nat) {
    exists j: nat, i: nat :: CutAt(x, s, max, j, i)
  }

  /** One append: cutting is relative to the whole output, not to the buffer. */
  lemma AppendCut(x: seq<byte>, s: seq<byte>, max: nat, c: Chunk)
    requires IsScroll(x, s, max)
    ensures IsScroll(x + c, Trim(s + c, max), max)
  {
    var j: nat, i: nat :| CutAt(x, s, max, j, i);
    var y, b := x + c, s + c;
    assert b == y[i..];
    if |b| > max {
      var start := |b| - max;
      var k := SkipCont(b, start, 3);
      assert b[k..] == y[i + k..];
      assert forall n :: 0 <= n < |b| ==> b[n] == y[i + n];
      assert forall n :: i + start <= n < i + k ==> Cont(y[n]) by {
        forall n | i + start <= n < i + k ensures Cont(y[n]) { assert y[n] == b[n - i]; }
      }
      assert CutAt(y, b[k..], max, i + start, i + k);
    } else {
      assert CutAt(y, b, max, j, i);
    }
  }

  lemma {:induction false} ScrollIsCut(chunks: seq<Chunk>, max: nat)
    ensures IsScroll(Flat(chunks), Scroll(chunks, max), max)
  {
    if chunks == [] {
      assert CutAt([], [], max, 0, 0);
    } else {
      var init, c := chunks[..|chunks| - 1], chunks[|chunks| - 1];
      assert init + [c] == chunks;
      ScrollIsCut(init, max);
      AppendCut(Flat(init), Scroll(init, max), max, c);
      FlatSnoc(init, c);
    }
  }

  /** After any appends: a suffix of all output, never longer than `max`, and
      never shorter than `max - 3` once something was trimmed. */
  lemma {:induction false} ScrollShape(chunks: seq<Chunk>, max: nat)
    ensures IsSuffix(Scroll(chunks, max), Flat(chunks))
    ensures |Scroll(chunks, max)| <= max
    ensures Scroll(chunks, max) == Flat(chunks) || |Scroll(chunks, max)| >= max - 3
  {
    ScrollIsCut(chunks, max);
    ScrollIsSuffix(Flat(chunks), Scroll(chunks, max), max);
  }

  lemma ScrollIsSuffix(x: seq<byte>, s: seq<byte>, max: nat)
    requires IsScroll(x, s, max)
    ensures IsSuffix(s, x) && |s| <= max
    ensures s == x || |s| >= max - 3
  {
    var j: nat, i: nat :| CutAt(x, s, max, j, i);
    assert i == |x| - |s|;
  }
}
