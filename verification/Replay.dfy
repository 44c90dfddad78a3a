/** A freshly attached terminal against the session's own mode tracker: when
    preamble, scrollback and live output reproduce the tracked modes, even if
    the attach lands between the append of a chunk and its mode update
    (internal/session/pty.go:193-198). */
module Replay {
  import opened Wrappers
  import opened Bytes
  import opened Modes
  import opened Resync
  import opened Scrollback

  /** The modes the session's tracker holds after `output`. */
  function Tracked(output: seq<byte>): Modes {
    After(FRESH, Ground, output)
  }

  lemma TrackedOk(output: seq<byte>)
    ensures ModesOk(Tracked(output))
  {
    ApplyKeepsOk(FRESH, Writes(Ground, output));
  }

  /** The modes of a terminal that was fresh and has been sent `replay`. */
  function Shown(replay: seq<byte>): Modes {
    After(FRESH, Ground, replay)
  }

  /** One parser lost the start of what the other is inside of, harmlessly:
      the sequence has overflowed and can no longer set a mode. */
  predicate Desync(p: Parser, q: Parser) {
    p == q || (q == Ground && p.Csi? && p.overflow)
  }

  lemma {:induction false} DesyncIsSilent(p: Parser, q: Parser, w: seq<byte>)
    requires Desync(p, q)
    ensures Writes(p, w) == Writes(q, w)
    ensures Desync(Run(p, w), Run(q, w))
  {
    if w != [] { DesyncIsSilent(p, q, w[..|w| - 1]); }
  }

  /** After `n` bytes read from anywhere and from ground. */
  predicate Behind(p: Parser, q: Parser, n: nat) {
    || p == q
    || (q == Ground && p == Escape && n == 0)
    || (q == Ground && p.Csi? && (p.overflow || |p.params| + 1 >= n))
  }

  lemma {:induction false} DriftIsBounded(p: Parser, w: seq<byte>)
    requires ParserOk(p)
    ensures Behind(Run(p, w), Run(Ground, w), |w|)
    ensures ParserOk(Run(p, w))
  {
    if w != [] { DriftIsBounded(p, w[..|w| - 1]); }
  }

  /** A tracked sequence holds at most 34 bytes before its final byte. */
  const LOOKBACK := 34

  lemma LookbackSuffices(p: Parser, w: seq<byte>)
    requires ParserOk(p) && |w| >= LOOKBACK
    ensures Desync(Run(p, w), Run(Ground, w))
  {
    DriftIsBounded(p, w);
  }

  lemma {:induction false} QuietGround(w: seq<byte>)
    requires ESC !in w
    ensures Run(Ground, w) == Ground && Writes(Ground, w) == []
  {
    if w != [] { QuietGround(w[..|w| - 1]); }
  }

  /** Skipped continuation bytes were going to be ignored anyway. */
  lemma SkippedIsQuiet(x: seq<byte>, s: seq<byte>, max: nat, j: nat, i: nat)
    requires CutAt(x, s, max, j, i)
    ensures Run(Ground, s) == Run(Ground, x[j..]) && Writes(Ground, s) == Writes(Ground, x[j..])
  {
    assert ESC !in x[j..i];
    QuietGround(x[j..i]);
    assert x[j..] == x[j..i] + s;
    RunConcat(Ground, x[j..i], s);
  }

  /** The cut lies far enough back: the session's parser at the end of `prior`
      and one started at the cut are in step or silently out of step. */
  lemma {:induction false} CutIsDesync(prior: seq<byte>, j: nat)
    requires j == 0 || j + LOOKBACK <= |prior|
    requires j <= |prior|
    ensures Desync(Run(Ground, prior), Run(Ground, prior[j..]))
  {
    if j == 0 {
      assert prior[0..] == prior;
    } else {
      assert prior == prior[..j] + prior[j..];
      RunConcat(Ground, prior[..j], prior[j..]);
      RunKeepsOk(Ground, prior[..j]);
      LookbackSuffices(Run(Ground, prior[..j]), prior[j..]);
    }
  }

  /** What a parser started in ground finds in the scrollback and all later
      output: a replay of some of prior's writes, then exactly what the session
      itself finds after `prior`. */
  lemma {:induction false} ScrollbackWrites(
    prior: seq<byte>, c: seq<byte>, s: seq<byte>, later: seq<byte>, max: nat, j: nat, i: nat)
    requires CutAt(prior + c, s, max, j, i)
    requires j == 0 || max >= |c| + LOOKBACK
    ensures j <= |prior| || j == 0
    ensures Writes(Ground, s + later) == Writes(Ground, prior[j..]) + Writes(Run(Ground, prior), c + later)
  {
    var q := prior[j..];
    assert (prior + c)[j..] == q + c;
    SkippedIsQuiet(prior + c, s, max, j, i);
    CutIsDesync(prior, j);
    DesyncIsSilent(Run(Ground, prior), Run(Ground, q), c + later);
    RunConcat(Ground, s, later);
    RunConcat(Ground, q + c, later);
    Assoc(q, c, later);
    RunConcat(Ground, q, c + later);
  }

  /** Modes `m0` are those of `prior`; feeding the scrollback of `prior + c`
      and then `later` gives the modes of `prior + c + later`. */
  lemma FeedScrollback(
    m0: Modes, prior: seq<byte>, c: seq<byte>, s: seq<byte>, later: seq<byte>, max: nat, j: nat, i: nat)
    requires SameModes(m0, Tracked(prior))
    requires CutAt(prior + c, s, max, j, i)
    requires j == 0 || max >= |c| + LOOKBACK
    ensures SameModes(After(m0, Ground, s + later), Tracked(prior + c + later))
  {
    ScrollbackWrites(prior, c, s, later, max, j, i);
    ReplayThenMore(m0, prior, prior[j..], Writes(Run(Ground, prior), c + later));
    AfterConcat(FRESH, Ground, prior, c + later);
    Assoc(prior, c, later);
  }

  lemma {:induction false} ReplayThenMore(m0: Modes, prior: seq<byte>, q: seq<byte>, more: seq<Write>)
    requires SameModes(m0, Tracked(prior)) && IsSuffix(q, prior)
    ensures SameModes(ApplyAll(m0, Writes(Ground, q) + more), ApplyAll(Tracked(prior), more))
  {
    SuffixWrites(prior, q);
    ApplyConcat(m0, Writes(Ground, q), more);
    ApplySame(m0, Tracked(prior), Writes(Ground, q));
    ReplayIsIdempotent(FRESH, Writes(Ground, prior), Writes(Ground, q));
    ApplySame(ApplyAll(m0, Writes(Ground, q)), Tracked(prior), more);
  }

  /** An attach that found the tracker at `prior` and the buffer at the
      scrollback `s` of `prior + c`, then saw `later` live. */
  ghost predicate Agrees(prior: seq<byte>, c: seq<byte>, s: seq<byte>, later: seq<byte>) {
    SameModes(Shown(Preamble(Tracked(prior)) + s + later), Tracked(prior + c + later))
  }

  lemma AttachAgrees(prior: seq<byte>, c: seq<byte>, s: seq<byte>, later: seq<byte>, max: nat)
    requires IsScroll(prior + c, s, max)
    requires s == prior + c || max >= |c| + LOOKBACK
    ensures Agrees(prior, c, s, later)
  {
    var m := Tracked(prior);
    TrackedOk(prior);
    PreambleRestores(m);
    var p := Preamble(m);
    Assoc(p, s, later);
    AfterConcat(FRESH, Ground, p, s + later);
    var j: nat, i: nat :| CutAt(prior + c, s, max, j, i);
    if s == prior + c {
      assert i == 0 && j == 0;
    }
    FeedScrollback(Shown(p), prior, c, s, later, max, j, i);
  }

  // ------------------------------------------------- the bound is sharp

  /** A full-length sequence that sets mode 1049, without its final byte. */
  const OPENING: seq<byte> := [ESC, BRACKET] + LONG_PARAMS

  /** `?` and 1049, padded with zeros to the longest parameter run kept. */
  const LONG_PARAMS: seq<byte> :=
    [QUESTION] + (seq(27, _ => '0' as byte) + ['1' as byte, '0' as byte, '4' as byte, '9' as byte])

  lemma {:induction false} NumberOfZeros(n: nat)
    ensures AllDigits(seq(n, _ => '0' as byte)) && Number(seq(n, _ => '0' as byte)) == 0
  {
    if n > 0 {
      NumberOfZeros(n - 1);
      var zeros := seq(n, _ => '0' as byte);
      assert zeros[..n - 1] == seq(n - 1, _ => '0' as byte);
    }
  }

  lemma NumberSnoc(s: seq<byte>, b: byte)
    requires AllDigits(s) && IsDigit(b)
    ensures AllDigits(s + [b]) && Number(s + [b]) == 10 * Number(s) + DigitValue(b)
  {
    assert (s + [b])[..|s|] == s;
  }

  lemma LongParamsSet()
    ensures |LONG_PARAMS| == MAX_CSI_PARAMS
    ensures forall k :: 0 <= k < |LONG_PARAMS| ==>
              LONG_PARAMS[k] != ESC && !IsFinal(LONG_PARAMS[k]) && !Cont(LONG_PARAMS[k])
    ensures Expand(LONG_PARAMS, true) == [Write(1049, true)]
  {
    var zeros := seq(27, _ => '0' as byte);
    var digits := zeros + ['1' as byte, '0' as byte, '4' as byte, '9' as byte];
    NumberOfZeros(27);
    NumberSnoc(zeros, '1' as byte);
    NumberSnoc(zeros + ['1' as byte], '0' as byte);
    NumberSnoc(zeros + ['1' as byte] + ['0' as byte], '4' as byte);
    NumberSnoc(zeros + ['1' as byte] + ['0' as byte] + ['4' as byte], '9' as byte);
    assert digits == zeros + ['1' as byte] + ['0' as byte] + ['4' as byte] + ['9' as byte];
    assert digits[0] == '0' as byte;
    assert Atoi(digits) == Some(1049);
    assert LONG_PARAMS[1..] == digits;
    SplitUnseparated(digits);
    assert PartsWrites([], true) == [];
    assert PartsWrites([digits], true) == [] + PartWrites(digits, true);
  }

  /** The chunk that completes OPENING, filled up to `n` bytes. */
  function Completion(n: nat): seq<byte> requires n >= 1 {
    [SET] + seq(n - 1, _ => 'x' as byte)
  }

  lemma OpeningWritesNothing()
    ensures |OPENING| == LOOKBACK
    ensures Run(Ground, OPENING) == Csi(LONG_PARAMS, false) && Writes(Ground, OPENING) == []
    ensures Writes(Ground, OPENING + [SET]) == [Write(1049, true)] && Run(Ground, OPENING + [SET]) == Ground
  {
    LongParamsSet();
    ParamsParse(LONG_PARAMS);
    RunSnoc(Ground, OPENING, SET);
    assert Emit(Csi(LONG_PARAMS, false), SET) == [Write(1049, true)];
  }

  lemma CompletionSets(n: nat)
    requires n >= 1
    ensures Val(Tracked(OPENING + Completion(n)), Alt) == 1049
  {
    var fill := seq(n - 1, _ => 'x' as byte);
    OpeningWritesNothing();
    QuietGround(fill);
    RunConcat(Ground, OPENING + [SET], fill);
    Assoc(OPENING, [SET], fill);
    assert ([Write(1049, true)] + [])[..0] == [];
  }

  /** Whatever a cut of ESC-free text leaves, a fresh terminal shows no mode. */
  lemma NoEscapeNoModes(s: seq<byte>)
    requires ESC !in s
    ensures Preamble(FRESH) == [] && Shown(Preamble(FRESH) + s + []) == FRESH
  {
    assert PreambleWrites(FRESH) == [] by { SwitchWritesAre(FRESH); }
    assert Preamble(FRESH) + s + [] == s;
    QuietGround(s);
  }

  lemma CutLosesEscape(n: nat, s: seq<byte>, max: nat)
    requires n >= 1 && max < n + LOOKBACK
    requires IsScroll(OPENING + Completion(n), s, max)
    ensures ESC !in s
  {
    var x := OPENING + Completion(n);
    LongParamsSet();
    var j: nat, i: nat :| CutAt(x, s, max, j, i);
    assert |x| == n + LOOKBACK && i >= 1;
    forall k | 1 <= k < |x| ensures x[k] != ESC {
      if 2 <= k < |OPENING| { assert x[k] == LONG_PARAMS[k - 2]; }
    }
  }

  /** A smaller buffer loses the opening, and the mode with it. */
  lemma {:induction false} SmallBufferLosesMode(n: nat, s: seq<byte>, max: nat)
    requires n >= 1 && 1 <= max < n + LOOKBACK
    requires IsScroll(OPENING + Completion(n), s, max)
    ensures !Agrees(OPENING, Completion(n), s, [])
  {
    CutLosesEscape(n, s, max);
    OpeningWritesNothing();
    assert Tracked(OPENING) == FRESH;
    NoEscapeNoModes(s);
    CompletionSets(n);
    var x := OPENING + Completion(n);
    assert x + [] == x;
    assert Val(FRESH, Alt) == 0;
  }

  ghost predicate ChunksUpTo(chunks: seq<Chunk>, n: nat) {
    forall k :: 0 <= k < |chunks| ==> |chunks[k]| <= n
  }

  /** For every scrollback size and every read-buffer size of at least 34
      bytes: all attaches that land between an append and its mode update
      agree with the tracker ever after, if and only if the scrollback holds
      34 bytes more than the largest chunk. */
  lemma AttachAgreesIff(n: nat, max: nat)
    requires n >= 34 && max >= 1
    ensures (forall chunks: seq<Chunk>, c: Chunk, later: seq<byte>
               {:trigger Agrees(Flat(chunks), c, Scroll(chunks + [c], max), later)} ::
              ChunksUpTo(chunks + [c], n) ==> Agrees(Flat(chunks), c, Scroll(chunks + [c], max), later))
            <==> max >= n + 34
  {
    if max >= n + LOOKBACK {
      forall chunks: seq<Chunk>, c: Chunk, later: seq<byte> | ChunksUpTo(chunks + [c], n)
        ensures Agrees(Flat(chunks), c, Scroll(chunks + [c], max), later)
      {
        assert (chunks + [c])[|chunks|] == c;
        ScrollIsCut(chunks + [c], max);
        FlatSnoc(chunks, c);
        AttachAgrees(Flat(chunks), c, Scroll(chunks + [c], max), later, max);
      }
    } else {
      var chunks, c := AttachFails(n, max);
    }
  }

  lemma AttachFails(n: nat, max: nat) returns (chunks: seq<Chunk>, c: Chunk)
    requires n >= LOOKBACK && 1 <= max < n + LOOKBACK
    ensures ChunksUpTo(chunks + [c], n)
    ensures !Agrees(Flat(chunks), c, Scroll(chunks + [c], max), [])
  {
    chunks, c := [OPENING], Completion(n);
    OpeningWritesNothing();
    FlatOne(OPENING);
    FlatSnoc(chunks, c);
    ScrollIsCut(chunks + [c], max);
    SmallBufferLosesMode(n, Scroll(chunks + [c], max), max);
  }

  lemma FlatOne(a: Chunk)
    ensures Flat([a]) == a
  {
    assert [a][1..] == [];
    assert Flat([a]) == a + [];
  }
}
