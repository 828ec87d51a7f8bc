/**
 The START codec with its real numbers and texts: the Go decoder (internal/protocol/protocol.go) run against
 the parser, and the bijection between valid requests and accepted payloads.
 */
module StartProtocol {
  import opened Bytes
  import opened Utf8
  import opened StartCodec

  function ReadNumber(b: seq<byte>): Parsed<nat> {
    if |b| < 4 then Bad else Good(Get(b[..4]), b[4..])
  }

  function EncodeText(s: text): seq<byte> {
    Put(|s|, 4) + s
  }

  function ReadText(b: seq<byte>): Parsed<text> {
    match ReadNumber(b)
    case Bad => Bad
    case Good(n, rest) => if n > |rest| || !ValidText(rest[..n]) then Bad else Good(rest[..n], rest[n..])
  }

  /** A text the wire can carry: NUL-free UTF-8, short enough for its 32-bit length. */
  predicate Carried(s: text) {
    ValidText(s) && |s| < 0x1_0000_0000
  }

  function Standard(): Wire {
    Wire((n: nat) => Put(n, 4), (b: seq<byte>) => ReadNumber(b), (s: text) => EncodeText(s),
         (b: seq<byte>) => ReadText(b), (s: text) => Carried(s))
  }

  lemma NumberReadBack(n: nat, t: seq<byte>)
    requires n < 0x1_0000_0000
    ensures ReadNumber(Put(n, 4) + t) == Good(n, t)
  {
    Powers();
    GetPut(n, 4);
    assert (Put(n, 4) + t)[..4] == Put(n, 4) && (Put(n, 4) + t)[4..] == t;
  }

  lemma NumberWrittenBack(b: seq<byte>, n: nat, rest: seq<byte>)
    requires ReadNumber(b) == Good(n, rest)
    ensures b == Put(n, 4) + rest && n < 0x1_0000_0000
  {
    Powers();
    PutGet(b[..4]);
    assert b == b[..4] + b[4..];
  }

  lemma TextReadBack(s: text, t: seq<byte>)
    requires Carried(s)
    ensures ReadText(EncodeText(s) + t) == Good(s, t)
  {
    NumberReadBack(|s|, s + t);
    Regroup(Put(|s|, 4), s, t);
    assert (s + t)[..|s|] == s && (s + t)[|s|..] == t;
  }

  lemma TextWrittenBack(b: seq<byte>, s: text, rest: seq<byte>)
    requires ReadText(b) == Good(s, rest)
    ensures b == EncodeText(s) + rest && Carried(s)
  {
    var n, after := ReadNumber(b).value, ReadNumber(b).rest;
    NumberWrittenBack(b, n, after);
    assert after == s + rest;
    Regroup(Put(n, 4), s, rest);
  }

  /** The real numbers and texts are exact, so the whole format is. */
  lemma StandardExact()
    ensures Exact(Standard())
  {
    var w := Standard();
    forall n: nat, t: seq<byte> ensures NumberBack(w, n, t) {
      if n < 0x1_0000_0000 {
        NumberReadBack(n, t);
      }
    }
    forall b: seq<byte>, n: nat, rest: seq<byte> ensures NumberForth(w, b, n, rest) {
      if ReadNumber(b) == Good(n, rest) {
        NumberWrittenBack(b, n, rest);
      }
    }
    forall s: text, t: seq<byte> ensures TextBack(w, s, t) {
      if Carried(s) {
        TextReadBack(s, t);
      }
    }
    forall b: seq<byte>, s: text, rest: seq<byte> ensures TextForth(w, b, s, rest) {
      if ReadText(b) == Good(s, rest) {
        TextWrittenBack(b, s, rest);
      }
    }
  }

  /** Decode undoes encode on every valid request, and every accepted payload re-encodes to itself. */
  lemma StartBijection(r: Request, p: seq<byte>)
    ensures ValidRequest(Standard(), r) ==> DecodeStart(Standard(), EncodeStart(Standard(), r)) == Good(r, [])
    ensures DecodeStart(Standard(), p).Good? ==>
              ValidRequest(Standard(), DecodeStart(Standard(), p).value) &&
                EncodeStart(Standard(), DecodeStart(Standard(), p).value) == p
  {
    StandardExact();
    if ValidRequest(Standard(), r) {
      DecodeEncodeStart(Standard(), r);
    }
    if DecodeStart(Standard(), p).Good? {
      EncodeDecodeStart(Standard(), p);
    }
  }

  lemma DetachedBijection(d: Detached, p: seq<byte>)
    ensures ValidDetached(Standard(), d) ==> DecodeDetached(Standard(), EncodeDetached(Standard(), d)) == Good(d, [])
    ensures DecodeDetached(Standard(), p).Good? ==>
              ValidDetached(Standard(), DecodeDetached(Standard(), p).value) &&
                EncodeDetached(Standard(), DecodeDetached(Standard(), p).value) == p
  {
    StandardExact();
    if ValidDetached(Standard(), d) {
      DecodeEncodeDetached(Standard(), d);
    }
    if DecodeDetached(Standard(), p).Good? {
      EncodeDecodeDetached(Standard(), p);
    }
  }

  // ---- loops against the parser -------------------------------------------------------------------

  lemma PrefixedNothing<T>(more: Parsed<seq<T>>)
    ensures Prefixed([], more) == more
  {
    if more.Good? {
      assert [] + more.value == more.value;
    }
  }

  lemma PrefixedDone<T>(head: seq<T>, rest: seq<byte>)
    ensures Prefixed(head, Good([], rest)) == Good(head, rest)
  {
    assert head + [] == head;
  }

  lemma PrefixedCons<T>(head: seq<T>, x: T, more: Parsed<seq<T>>)
    ensures Prefixed(head, Prefixed([x], more)) == Prefixed(head + [x], more)
  {
    if more.Good? {
      assert head + ([x] + more.value) == head + [x] + more.value;
    }
  }

  ghost predicate ReadsAt(w: Wire, b: seq<byte>) {
    w.readText(b) == ReadText(b)
  }

  /** The wire reads texts as the decoder does; the loops need to know no more of it. */
  ghost predicate Reads(w: Wire) {
    forall b :: ReadsAt(w, b)
  }

  lemma StandardReads()
    ensures Reads(Standard())
  {}

  /** The argument loop has read `head` and `n` arguments remain at `b`. */
  ghost predicate TextLoop(w: Wire, whole: Parsed<seq<text>>, head: seq<text>, b: seq<byte>, n: nat) {
    whole == Prefixed(head, ParseTexts(w, b, n))
  }

  lemma TextStart(w: Wire, b: seq<byte>, n: nat)
    ensures TextLoop(w, ParseTexts(w, b, n), [], b, n)
  {
    PrefixedNothing(ParseTexts(w, b, n));
  }

  lemma TextTurn(w: Wire, whole: Parsed<seq<text>>, head: seq<text>, b: seq<byte>, n: nat)
    requires n > 0 && TextLoop(w, whole, head, b, n)
    ensures match w.readText(b)
            case Bad => whole == Bad
            case Good(s, rest) => TextLoop(w, whole, head + [s], rest, n - 1)
  {
    var p := w.readText(b);
    if p.Good? {
      PrefixedCons(head, p.value, ParseTexts(w, p.rest, n - 1));
    }
  }

  lemma TextDone(w: Wire, whole: Parsed<seq<text>>, head: seq<text>, b: seq<byte>)
    requires TextLoop(w, whole, head, b, 0)
    ensures whole == Good(head, b)
  {
    PrefixedDone(head, b);
  }

  /** The environment loop has read `head`, whose keys are in `seen`, and `n` entries remain at `b`. */
  ghost predicate PairLoop(w: Wire, whole: Parsed<seq<Pair>>, head: seq<Pair>, b: seq<byte>, n: nat, seen: set<text>) {
    whole == Prefixed(head, ParsePairs(w, b, n, seen))
  }

  lemma PairStart(w: Wire, b: seq<byte>, n: nat)
    ensures PairLoop(w, ParsePairs(w, b, n, {}), [], b, n, {})
  {
    PrefixedNothing(ParsePairs(w, b, n, {}));
  }

  lemma PairTurn(w: Wire, whole: Parsed<seq<Pair>>, head: seq<Pair>, b: seq<byte>, n: nat, seen: set<text>)
    requires n > 0 && PairLoop(w, whole, head, b, n, seen)
    ensures match ParsePair(w, b, seen)
            case Bad => whole == Bad
            case Good(x, rest) => PairLoop(w, whole, head + [x], rest, n - 1, seen + {x.key})
  {
    var p := ParsePair(w, b, seen);
    if p.Good? {
      PrefixedCons(head, p.value, ParsePairs(w, p.rest, n - 1, seen + {p.value.key}));
    }
  }

  lemma PairDone(w: Wire, whole: Parsed<seq<Pair>>, head: seq<Pair>, b: seq<byte>, seen: set<text>)
    requires PairLoop(w, whole, head, b, 0, seen)
    ensures whole == Good(head, b)
  {
    PrefixedDone(head, b);
  }

  // ---- the decoder object -----------------------------------------------------------------------

  class Decoder {
    var b: seq<byte>
    var failed: bool

    constructor (p: seq<byte>)
      ensures b == p && !failed
    {
      b, failed := p, false;
    }

    /** A failed decoder stays failed and yields nothing more. */
    ghost predicate Follows<T>(before: seq<byte>, parsed: Parsed<T>, value: T)
      reads this
    {
      match parsed
      case Bad => failed
      case Good(v, rest) => !failed && b == rest && value == v
    }

    method U32() returns (n: nat)
      modifies this
      ensures old(failed) ==> failed && n == 0
      ensures !old(failed) ==> Follows(old(b), ReadNumber(old(b)), n) && (failed ==> n == 0)
    {
      if failed {
        return 0;
      }
      if |b| < 4 {
        failed := true;
        return 0;
      }
      n := Read(b[..4]);
      b := b[4..];
    }

    method Str() returns (s: text)
      modifies this
      ensures old(failed) ==> failed
      ensures !old(failed) ==> Follows(old(b), ReadText(old(b)), s)
    {
      var n := U32();
      if failed {
        return [];
      }
      if n > |b| {
        failed := true;
        return [];
      }
      var p := b[..n];
      b := b[n..];
      var valid := Check(p);
      if !valid {
        failed := true;
        return [];
      }
      return p;
    }

    method Count() returns (n: nat)
      modifies this
      ensures old(failed) ==> failed && n == 0
      ensures !old(failed) ==> Follows(old(b), ParseCount(Standard(), old(b)), n) && (failed ==> n == 0)
    {
      n := U32();
      if n > MAX_ITEMS {
        failed := true;
        return 0;
      }
    }

    /** The argument loop. */
    method Args(argc: nat, ghost w: Wire) returns (args: seq<text>)
      requires Reads(w)
      modifies this
      ensures old(failed) ==> failed
      ensures !old(failed) ==> Follows(old(b), ParseTexts(w, old(b), argc), args)
    {
      args := [];
      ghost var whole := ParseTexts(w, b, argc);
      TextStart(w, b, argc);
      var i := 0;
      ghost var left := argc;
      while i < argc && !failed
        invariant 0 <= i <= argc && left == argc - i
        invariant old(failed) ==> failed
        invariant !old(failed) && failed ==> whole == Bad
        invariant !failed ==> TextLoop(w, whole, args, b, left)
      {
        var s := Argument(w, whole, args, left);
        args := args + [s];
        i := i + 1;
        left := left - 1;
      }
      if !failed {
        TextDone(w, whole, args, b);
      }
    }

    /** One turn of it. */
    method Argument(ghost w: Wire, ghost whole: Parsed<seq<text>>, ghost head: seq<text>, ghost left: nat)
      returns (s: text)
      requires !failed && left > 0 && Reads(w) && TextLoop(w, whole, head, b, left)
      modifies this
      ensures if failed then whole == Bad else TextLoop(w, whole, head + [s], b, left - 1)
    {
      TextTurn(w, whole, head, b, left);
      assert ReadsAt(w, b);
      s := Str();
    }

    /** Key and value of one environment entry. */
    method Entry(ghost w: Wire, seen: set<text>) returns (x: Pair)
      requires !failed && Reads(w)
      modifies this
      ensures Follows(old(b), ParsePair(w, old(b), seen), x)
    {
      assert ReadsAt(w, b);
      var k := Str();
      assert ReadsAt(w, b);
      var v := Str();
      if k == [] || EQUALS in k || k in seen {
        failed := true;
      }
      return Pair(k, v);
    }

    /** The environment loop, which refuses empty, ill-formed and repeated keys. */
    method Env(envc: nat, ghost w: Wire) returns (env: seq<Pair>)
      requires Reads(w)
      modifies this
      ensures old(failed) ==> failed
      ensures !old(failed) ==> Follows(old(b), ParsePairs(w, old(b), envc, {}), env)
    {
      env := [];
      ghost var whole := ParsePairs(w, b, envc, {});
      PairStart(w, b, envc);
      var seen: set<text> := {};
      var i := 0;
      ghost var left := envc;
      while i < envc && !failed
        invariant 0 <= i <= envc && left == envc - i
        invariant old(failed) ==> failed
        invariant !old(failed) && failed ==> whole == Bad
        invariant !failed ==> PairLoop(w, whole, env, b, left, seen)
      {
        var x := Setting(w, whole, env, left, seen);
        seen := seen + {x.key};
        env := env + [x];
        i := i + 1;
        left := left - 1;
      }
      if !failed {
        PairDone(w, whole, env, b, seen);
      }
    }

    /** One turn of it. */
    method Setting(ghost w: Wire, ghost whole: Parsed<seq<Pair>>, ghost head: seq<Pair>, ghost left: nat,
                   seen: set<text>) returns (x: Pair)
      requires !failed && left > 0 && Reads(w) && PairLoop(w, whole, head, b, left, seen)
      modifies this
      ensures if failed then whole == Bad else PairLoop(w, whole, head + [x], b, left - 1, seen + {x.key})
    {
      PairTurn(w, whole, head, b, left, seen);
      x := Entry(w, seen);
    }

    /** Arguments, environment and flag of `decodeStart`; a decoder that has failed already fails here. */
    method Lists(executable: text, cwd: text) returns (r: Parsed<Request>)
      modifies this
      ensures old(failed) ==> r == Bad
      ensures !old(failed) ==> r == ParseLists(Standard(), old(b), executable, cwd)
      ensures r.Good? ==> !failed && b == r.rest
    {
      StandardReads();
      var argc := Count();
      var args := Args(argc, Standard());
      var envc := Count();
      var env := Env(envc, Standard());
      if failed || executable == [] || |b| < 1 || b[0] > 1 {
        return Bad;
      }
      var stdin := b[0] == 1;
      b := b[1..];
      return Good(Request(executable, cwd, args, env, stdin), b);
    }

    /** `decodeStart`. */
    method Start() returns (r: Parsed<Request>)
      requires !failed
      modifies this
      ensures r == ParseStart(Standard(), old(b))
      ensures r.Good? ==> !failed && b == r.rest
    {
      var executable := Str();
      var cwd := Str();
      r := Lists(executable, cwd);
    }
  }

  /** `DecodeStart` on a payload. */
  method DecodePayload(p: seq<byte>) returns (r: Parsed<Request>)
    ensures r == DecodeStart(Standard(), p)
  {
    var d := new Decoder(p);
    r := d.Start();
    if r.Good? && |d.b| != 0 {
      r := Bad;
    }
  }

  /** `DecodeDetached` on a payload. */
  method DecodeDetachedPayload(p: seq<byte>) returns (r: Parsed<Detached>)
    ensures r == DecodeDetached(Standard(), p)
  {
    var d := new Decoder(p);
    var start := d.Start();
    if start.Bad? || start.value.stdin {
      return Bad;
    }
    var out := d.Str();
    var errout := d.Str();
    if d.failed || |d.b| != 0 {
      return Bad;
    }
    return Good(Detached(start.value, out, errout), []);
  }
}
