/** Decoding of KERN_PROCARGS2 buffers (internal/procscan/procscan_darwin.go:133-171). */
module ProcArgs {
  import opened Bytes

  const NUL: byte := 0

  datatype Error = TooShort | BadCount | NoTerminator | NoArgv

  datatype Parsed = Ok(argv: seq<seq<byte>>) | Err(error: Error)

  /** bytes.IndexByte(s, 0), with the length standing for "not found". */
  function IndexNul(s: seq<byte>): (i: nat)
    ensures i <= |s|
    ensures forall k :: 0 <= k < i ==> s[k] != NUL
    ensures i < |s| ==> s[i] == NUL
  {
    if s == [] || s[0] == NUL then 0 else 1 + IndexNul(s[1..])
  }

  function SkipNuls(s: seq<byte>): (r: seq<byte>)
    ensures r != [] ==> r[0] != NUL
  {
    if s != [] && s[0] == NUL then SkipNuls(s[1..]) else s
  }

  /** Up to `n` NUL-terminated strings; the last may lack its terminator. */
  function Strings(s: seq<byte>, n: nat): seq<seq<byte>> {
    if n == 0 || s == [] then []
    else if IndexNul(s) == |s| then [s]
    else [s[..IndexNul(s)]] + Strings(s[IndexNul(s) + 1..], n - 1)
  }

  /** The first four bytes as a little-endian two's-complement int32. */
  function Count(buf: seq<byte>): int
    requires |buf| >= 4
  {
    var u := buf[0] as int + 0x100 * buf[1] as int + 0x1_0000 * buf[2] as int + 0x100_0000 * buf[3] as int;
    if u < 0x8000_0000 then u else u - 0x1_0000_0000
  }

  function Parse(buf: seq<byte>): Parsed {
    if |buf| < 4 then Err(TooShort)
    else if Count(buf) <= 0 then Err(BadCount)
    else
      var rest := buf[4..];
      if IndexNul(rest) == |rest| then Err(NoTerminator)
      else
        var argv := Strings(SkipNuls(rest[IndexNul(rest)..]), Count(buf));
        if argv == [] then Err(NoArgv) else Ok(argv)
  }

  method ParseProcArgs2(buf: seq<byte>) returns (r: Parsed)
    ensures r == Parse(buf)
  {
    if |buf| < 4 { return Err(TooShort); }
    var argc := Count(buf);
    if argc <= 0 { return Err(BadCount); }
    var rest := buf[4..];
    var i := IndexNul(rest);
    if i == |rest| { return Err(NoTerminator); }
    rest := rest[i..];
    ghost var padded := rest;
    while |rest| > 0 && rest[0] == NUL
      invariant SkipNuls(rest) == SkipNuls(padded)
    {
      rest := rest[1..];
    }
    var argv := [];
    ghost var all := Strings(rest, argc);
    while |argv| < argc && |rest| > 0
      invariant |argv| <= argc
      invariant argv + Strings(rest, argc - |argv|) == all
      decreases argc - |argv|
    {
      i := IndexNul(rest);
      if i == |rest| {
        argv := argv + [rest];
        break;
      }
      Assoc(argv, [rest[..i]], Strings(rest[i + 1..], argc - |argv| - 1));
      argv := argv + [rest[..i]];
      rest := rest[i + 1..];
    }
    assert argv == all by { assert argv + [] == argv; }
    if |argv| == 0 { return Err(NoArgv); }
    return Ok(argv);
  }

  // -------------------------------------------------------------- encoder

  predicate NulFree(s: seq<byte>) { NUL !in s }

  function LittleEndian(n: nat): seq<byte>
    requires n < 0x8000_0000
  {
    [(n % 0x100) as byte, (n / 0x100 % 0x100) as byte, (n / 0x1_0000 % 0x100) as byte, (n / 0x100_0000) as byte]
  }

  function Terminated(argv: seq<seq<byte>>): seq<byte> {
    if argv == [] then [] else argv[0] + [NUL] + Terminated(argv[1..])
  }

  function Nuls(n: nat): seq<byte> { seq(n, _ => NUL) }

  /** argc, the executable path, its padding, the arguments, the environment. */
  function Encode(path: seq<byte>, pad: nat, argv: seq<seq<byte>>, env: seq<byte>): seq<byte>
    requires |argv| < 0x8000_0000
  {
    LittleEndian(|argv|) + (path + (Nuls(pad) + (Terminated(argv) + env)))
  }

  lemma CountOfEncoded(n: nat, tail: seq<byte>)
    requires n < 0x8000_0000
    ensures Count(LittleEndian(n) + tail) == n
  {
    var a, b, c, d := n % 0x100, n / 0x100 % 0x100, n / 0x1_0000 % 0x100, n / 0x100_0000;
    assert n / 0x1_0000 == n / 0x100 / 0x100 && n / 0x100_0000 == n / 0x100 / 0x100 / 0x100;
  }

  lemma {:induction false} IndexNulAt(s: seq<byte>, tail: seq<byte>)
    requires NulFree(s)
    ensures IndexNul(s + [NUL] + tail) == |s|
  {
    if s != [] {
      assert s[0] != NUL;
      IndexNulAt(s[1..], tail);
      assert (s + [NUL] + tail)[1..] == s[1..] + [NUL] + tail;
    }
  }

  lemma {:induction false} SkipsPadding(pad: nat, s: seq<byte>)
    ensures SkipNuls(Nuls(pad) + s) == SkipNuls(s)
  {
    if pad == 0 {
      assert Nuls(0) + s == s;
    } else {
      assert (Nuls(pad) + s)[1..] == Nuls(pad - 1) + s;
      SkipsPadding(pad - 1, s);
    }
  }

  lemma {:induction false} StringsOfTerminated(argv: seq<seq<byte>>, env: seq<byte>)
    requires forall k :: 0 <= k < |argv| ==> NulFree(argv[k])
    ensures Strings(Terminated(argv) + env, |argv|) == argv
  {
    if argv != [] {
      var s := Terminated(argv) + env;
      var tail := Terminated(argv[1..]) + env;
      assert s == argv[0] + [NUL] + tail;
      IndexNulAt(argv[0], tail);
      StringsOfTerminated(argv[1..], env);
      assert s[..|argv[0]|] == argv[0] && s[|argv[0]| + 1..] == tail;
    }
  }

  lemma ParseOfEncoded(path: seq<byte>, pad: nat, argv: seq<seq<byte>>, env: seq<byte>)
    requires NulFree(path) && pad >= 1 && 1 <= |argv| < 0x8000_0000
    ensures var found := Strings(SkipNuls(Terminated(argv) + env), |argv|);
            Parse(Encode(path, pad, argv, env)) == if found == [] then Err(NoArgv) else Ok(found)
  {
    var body := Terminated(argv) + env;
    var rest := path + (Nuls(pad) + body);
    var buf := Encode(path, pad, argv, env);
    CountOfEncoded(|argv|, rest);
    assert buf[4..] == rest;
    assert rest == path + [NUL] + (Nuls(pad - 1) + body);
    IndexNulAt(path, Nuls(pad - 1) + body);
    assert rest[|path|..] == Nuls(pad) + body;
    SkipsPadding(pad, body);
  }

  /** The parser returns exactly the encoded arguments - none missing, nothing
      of the environment - if and only if the first one is nonempty (an empty
      first argument reads as padding). */
  lemma RoundTripIff(path: seq<byte>, pad: nat, argv: seq<seq<byte>>, env: seq<byte>)
    requires NulFree(path) && pad >= 1 && 1 <= |argv| < 0x8000_0000
    requires forall k :: 0 <= k < |argv| ==> NulFree(argv[k])
    ensures Parse(Encode(path, pad, argv, env)) == Ok(argv) <==> argv[0] != []
  {
    ParseOfEncoded(path, pad, argv, env);
    hide Parse, Encode, NulFree;
    if argv[0] != [] {
      NothingSkipped(argv, env);
      StringsOfTerminated(argv, env);
    } else {
      var body := Terminated(argv) + env;
      hide SkipNuls;
      FirstIsNonempty(SkipNuls(body), |argv|);
    }
  }

  lemma NothingSkipped(argv: seq<seq<byte>>, env: seq<byte>)
    requires argv != [] && NulFree(argv[0]) && argv[0] != []
    ensures SkipNuls(Terminated(argv) + env) == Terminated(argv) + env
  {
    var body := Terminated(argv) + env;
    assert body == argv[0] + ([NUL] + Terminated(argv[1..]) + env);
    assert body[0] == argv[0][0] != NUL;
  }

  lemma FirstIsNonempty(s: seq<byte>, n: nat)
    requires s != [] ==> s[0] != NUL
    ensures Strings(s, n) != [] ==> Strings(s, n)[0] != []
  {
    if s != [] { assert IndexNul(s) > 0; }
  }

  /** On any buffer at all: no argument contains a NUL, and no more arguments
      are returned than the count promises. */
  lemma {:induction false} StringsAreStrings(s: seq<byte>, n: nat)
    ensures |Strings(s, n)| <= n
    ensures forall k :: 0 <= k < |Strings(s, n)| ==> NulFree(Strings(s, n)[k])
  {
    var i := IndexNul(s);
    if n > 0 && s != [] && i < |s| {
      StringsAreStrings(s[i + 1..], n - 1);
      assert NulFree(s[..i]);
      assert Strings(s, n) == [s[..i]] + Strings(s[i + 1..], n - 1);
    }
  }

  // ------------------------------------------- a buffer that ends too early

  /** The buffer cut inside the last argument that arrived, before its terminator. */
  function Cut(n: nat, path: seq<byte>, pad: nat, init: seq<seq<byte>>, last: seq<byte>): seq<byte>
    requires n < 0x8000_0000
  {
    LittleEndian(n) + (path + (Nuls(pad) + (Terminated(init) + last)))
  }

  lemma {:induction false} IndexNulNone(s: seq<byte>)
    requires NulFree(s)
    ensures IndexNul(s) == |s|
  {
    if s != [] { IndexNulNone(s[1..]); }
  }

  lemma FirstString(a: seq<byte>, tail: seq<byte>, n: nat)
    requires n > 0 && NulFree(a)
    ensures Strings(a + [NUL] + tail, n) == [a] + Strings(tail, n - 1)
  {
    var s := a + [NUL] + tail;
    IndexNulAt(a, tail);
    assert s[..|a|] == a && s[|a| + 1..] == tail;
  }

  /** The complete arguments, and the piece after them if there is one. */
  function WithLast(init: seq<seq<byte>>, last: seq<byte>): seq<seq<byte>> {
    if last == [] then init else init + [last]
  }

  lemma PeelFirst(init: seq<seq<byte>>, last: seq<byte>)
    requires init != []
    ensures [init[0]] + WithLast(init[1..], last) == WithLast(init, last)
  {
    assert [init[0]] + init[1..] == init;
    if last != [] { Assoc([init[0]], init[1..], [last]); }
  }

  lemma PieceAlone(last: seq<byte>, n: nat)
    requires n > 0 && NulFree(last)
    ensures Strings(Terminated([]) + last, n) == WithLast([], last)
  {
    assert [] + last == last;
    IndexNulNone(last);
  }

  lemma TerminatedStep(init: seq<seq<byte>>, last: seq<byte>)
    requires init != []
    ensures Terminated(init) + last == init[0] + [NUL] + (Terminated(init[1..]) + last)
  {
  }

  lemma {:induction false} StringsOfCut(init: seq<seq<byte>>, last: seq<byte>, n: nat)
    requires n > |init| && NulFree(last) && forall k :: 0 <= k < |init| ==> NulFree(init[k])
    ensures Strings(Terminated(init) + last, n) == WithLast(init, last)
  {
    hide Strings, Terminated, NulFree, WithLast;
    if init == [] {
      PieceAlone(last, n);
    } else {
      TerminatedStep(init, last);
      FirstString(init[0], Terminated(init[1..]) + last, n);
      StringsOfCut(init[1..], last, n - 1);
      PeelFirst(init, last);
    }
  }

  lemma ParseOfCut(n: nat, path: seq<byte>, pad: nat, init: seq<seq<byte>>, last: seq<byte>)
    requires NulFree(path) && pad >= 1 && |init| < n < 0x8000_0000
    ensures var found := Strings(SkipNuls(Terminated(init) + last), n);
            Parse(Cut(n, path, pad, init, last)) == if found == [] then Err(NoArgv) else Ok(found)
  {
    var body := Terminated(init) + last;
    var rest := path + (Nuls(pad) + body);
    CountOfEncoded(n, rest);
    assert Cut(n, path, pad, init, last)[4..] == rest;
    assert rest == path + [NUL] + (Nuls(pad - 1) + body);
    IndexNulAt(path, Nuls(pad - 1) + body);
    assert rest[|path|..] == Nuls(pad) + body;
    SkipsPadding(pad, body);
  }

  /** A buffer that ends inside an argument, however many the count promises, yields
      the complete arguments and that last piece - if and only if the piece is not
      empty and the first argument is not either. */
  lemma CutRoundTripIff(n: nat, path: seq<byte>, pad: nat, init: seq<seq<byte>>, last: seq<byte>)
    requires NulFree(path) && pad >= 1 && |init| < n < 0x8000_0000
    requires NulFree(last) && forall k :: 0 <= k < |init| ==> NulFree(init[k])
    ensures Parse(Cut(n, path, pad, init, last)) == Ok(init + [last]) <==>
            last != [] && (init == [] || init[0] != [])
  {
    ParseOfCut(n, path, pad, init, last);
    var body := Terminated(init) + last;
    hide Parse, Cut;
    if init != [] && init[0] == [] {
      hide SkipNuls;
      FirstIsNonempty(SkipNuls(body), n);
      assert (init + [last])[0] == [];
    } else {
      if init != [] { NothingSkipped(init, last); } else { assert body == last; }
      StringsOfCut(init, last, n);
      if last == [] { assert |init| != |init + [last]|; }
    }
  }

  // ------------------------------------------------------- when it refuses

  lemma {:induction false} SkipsAllIff(s: seq<byte>)
    ensures SkipNuls(s) == [] <==> forall k :: 0 <= k < |s| ==> s[k] == 0
  {
    if s != [] && s[0] == NUL {
      SkipsAllIff(s[1..]);
      assert forall k :: 1 <= k < |s| ==> s[k] == s[1..][k - 1];
    }
  }

  lemma CountSign(buf: seq<byte>)
    requires |buf| >= 4
    ensures Count(buf) <= 0 <==> buf[3] >= 0x80 || (buf[0] == 0 && buf[1] == 0 && buf[2] == 0 && buf[3] == 0)
  {
  }

  /** The count is a positive 32-bit number. */
  predicate Counted(buf: seq<byte>)
    requires |buf| >= 4
  {
    buf[3] < 0x80 && (buf[0] != 0 || buf[1] != 0 || buf[2] != 0 || buf[3] != 0)
  }

  /** Each refusal, by the bytes of the buffer: too short for a count; a count that
      is not positive; no NUL behind the count; nothing but NULs from the first one. */
  lemma RefusedIff(buf: seq<byte>)
    ensures Parse(buf) == Err(TooShort) <==> |buf| < 4
    ensures Parse(buf) == Err(BadCount) <==> |buf| >= 4 && !Counted(buf)
    ensures Parse(buf) == Err(NoTerminator) <==> |buf| >= 4 && Counted(buf) && 0 !in buf[4..]
    ensures Parse(buf) == Err(NoArgv) <==>
            && |buf| >= 4 && Counted(buf) && 0 in buf[4..]
            && forall j, k :: 4 <= j <= k < |buf| && buf[j] == 0 ==> buf[k] == 0
  {
    if |buf| >= 4 {
      CountSign(buf);
      hide Count;
      var rest := buf[4..];
      var i := IndexNul(rest);
      if i < |rest| {
        SkipsAllIff(rest[i..]);
        assert buf[4 + i] == 0 && rest[i] == 0;
        hide SkipNuls, IndexNul;
        if SkipNuls(rest[i..]) == [] {
          forall j, k | 4 <= j <= k < |buf| && buf[j] == 0 ensures buf[k] == 0 {
            assert rest[j - 4] == buf[j] && j - 4 >= i;
            assert rest[i..][k - 4 - i] == buf[k];
          }
        }
      }
    }
  }
}
