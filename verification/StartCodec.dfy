/**
 The START request (internal/protocol/protocol.go): two strings, counted arguments and environment pairs,
 a flag byte, and for a detached process two more strings. The format is built from two primitives, a
 32-bit number and a length-prefixed text; any pair of primitives that is exact makes the format exact.
 */
module StartCodec {
  import opened Bytes

  const MAX_ITEMS: nat := 4096
  const EQUALS: byte := 0x3d

  type text = seq<byte>

  datatype Pair = Pair(key: text, value: text)

  datatype Request = Request(executable: text, cwd: text, args: seq<text>, env: seq<Pair>, stdin: bool)

  datatype Detached = Detached(request: Request, stdout: text, stderr: text)

  /** The outcome of reading from the front of the input. */
  datatype Parsed<+T> = Bad | Good(value: T, rest: seq<byte>)

  /** The primitives: writing and reading a number and a text, and which texts can be carried. */
  datatype Wire = Wire(number: nat -> seq<byte>, readNumber: seq<byte> -> Parsed<nat>,
                       text: text -> seq<byte>, readText: seq<byte> -> Parsed<text>, carried: text -> bool)

  ghost predicate NumberBack(w: Wire, n: nat, t: seq<byte>) {
    n < 0x1_0000_0000 ==> w.readNumber(w.number(n) + t) == Good(n, t)
  }

  ghost predicate NumberForth(w: Wire, b: seq<byte>, n: nat, rest: seq<byte>) {
    w.readNumber(b) == Good(n, rest) ==> b == w.number(n) + rest && n < 0x1_0000_0000
  }

  ghost predicate TextBack(w: Wire, s: text, t: seq<byte>) {
    w.carried(s) ==> w.readText(w.text(s) + t) == Good(s, t)
  }

  ghost predicate TextForth(w: Wire, b: seq<byte>, s: text, rest: seq<byte>) {
    w.readText(b) == Good(s, rest) ==> b == w.text(s) + rest && w.carried(s)
  }

  /** Both primitives read back what they wrote, and read nothing that they would not write. */
  ghost predicate Exact(w: Wire) {
    && (forall n, t :: NumberBack(w, n, t)) && (forall b, n, rest :: NumberForth(w, b, n, rest))
    && (forall s, t :: TextBack(w, s, t)) && (forall b, s, rest :: TextForth(w, b, s, rest))
  }

  // ---- encoding ---------------------------------------------------------------------------------

  function EncodeTexts(w: Wire, items: seq<text>): seq<byte> {
    if items == [] then [] else w.text(items[0]) + EncodeTexts(w, items[1..])
  }

  function EncodePair(w: Wire, x: Pair): seq<byte> {
    w.text(x.key) + w.text(x.value)
  }

  function EncodePairs(w: Wire, items: seq<Pair>): seq<byte> {
    if items == [] then [] else EncodePair(w, items[0]) + EncodePairs(w, items[1..])
  }

  function Flag(on: bool): seq<byte> {
    [if on then 1 else 0]
  }

  function EncodeTail(w: Wire, r: Request): seq<byte> {
    w.number(|r.env|) + (EncodePairs(w, r.env) + Flag(r.stdin))
  }

  function EncodeLists(w: Wire, r: Request): seq<byte> {
    w.number(|r.args|) + (EncodeTexts(w, r.args) + EncodeTail(w, r))
  }

  function EncodeStart(w: Wire, r: Request): seq<byte> {
    w.text(r.executable) + (w.text(r.cwd) + EncodeLists(w, r))
  }

  function EncodeDetached(w: Wire, d: Detached): seq<byte> {
    EncodeStart(w, d.request) + (w.text(d.stdout) + w.text(d.stderr))
  }

  // ---- validity ---------------------------------------------------------------------------------

  predicate GoodKey(k: text) {
    k != [] && EQUALS !in k
  }

  predicate ValidPair(w: Wire, x: Pair, seen: set<text>) {
    w.carried(x.key) && w.carried(x.value) && GoodKey(x.key) && x.key !in seen
  }

  /** Keys are non-empty, hold no '=', and none repeats. */
  predicate ValidPairs(w: Wire, items: seq<Pair>, seen: set<text>)
    decreases |items|
  {
    items != [] ==> ValidPair(w, items[0], seen) && ValidPairs(w, items[1..], seen + {items[0].key})
  }

  predicate ValidTexts(w: Wire, items: seq<text>)
    decreases |items|
  {
    items != [] ==> w.carried(items[0]) && ValidTexts(w, items[1..])
  }

  predicate ValidRequest(w: Wire, r: Request) {
    && r.executable != [] && w.carried(r.executable) && w.carried(r.cwd) && |r.args| <= MAX_ITEMS &&
       |r.env| <= MAX_ITEMS
    && ValidTexts(w, r.args) && ValidPairs(w, r.env, {})
  }

  predicate ValidDetached(w: Wire, d: Detached) {
    ValidRequest(w, d.request) && !d.request.stdin && w.carried(d.stdout) && w.carried(d.stderr)
  }

  // ---- parsing ----------------------------------------------------------------------------------

  /** Items already read, in front of what was read after them. */
  function Prefixed<T>(head: seq<T>, more: Parsed<seq<T>>): Parsed<seq<T>> {
    match more
    case Bad => Bad
    case Good(items, rest) => Good(head + items, rest)
  }

  function ParseCount(w: Wire, b: seq<byte>): Parsed<nat> {
    match w.readNumber(b)
    case Bad => Bad
    case Good(n, rest) => if n > MAX_ITEMS then Bad else Good(n, rest)
  }

  function ParseTexts(w: Wire, b: seq<byte>, n: nat): Parsed<seq<text>>
    decreases n
  {
    if n == 0 then Good([], b)
    else
      match w.readText(b)
      case Bad => Bad
      case Good(s, rest) => Prefixed([s], ParseTexts(w, rest, n - 1))
  }

  /** A pair with a proper key that has not been seen. */
  function ParsePair(w: Wire, b: seq<byte>, seen: set<text>): Parsed<Pair> {
    match w.readText(b)
    case Bad => Bad
    case Good(k, rest) =>
      match w.readText(rest)
      case Bad => Bad
      case Good(v, after) => if !GoodKey(k) || k in seen then Bad else Good(Pair(k, v), after)
  }

  function ParsePairs(w: Wire, b: seq<byte>, n: nat, seen: set<text>): Parsed<seq<Pair>>
    decreases n
  {
    if n == 0 then Good([], b)
    else
      match ParsePair(w, b, seen)
      case Bad => Bad
      case Good(x, rest) => Prefixed([x], ParsePairs(w, rest, n - 1, seen + {x.key}))
  }

  /** The environment and the flag byte. */
  function ParseTail(w: Wire, b: seq<byte>, executable: text, cwd: text, args: seq<text>): Parsed<Request> {
    match ParseCount(w, b)
    case Bad => Bad
    case Good(envc, b1) =>
      match ParsePairs(w, b1, envc, {})
      case Bad => Bad
      case Good(env, b2) =>
        if executable == [] || b2 == [] || b2[0] > 1 then Bad
        else Good(Request(executable, cwd, args, env, b2[0] == 1), b2[1..])
  }

  function ParseLists(w: Wire, b: seq<byte>, executable: text, cwd: text): Parsed<Request> {
    match ParseCount(w, b)
    case Bad => Bad
    case Good(argc, b1) =>
      match ParseTexts(w, b1, argc)
      case Bad => Bad
      case Good(args, b2) => ParseTail(w, b2, executable, cwd, args)
  }

  function ParseStart(w: Wire, b: seq<byte>): Parsed<Request> {
    match w.readText(b)
    case Bad => Bad
    case Good(executable, b1) =>
      match w.readText(b1)
      case Bad => Bad
      case Good(cwd, b2) => ParseLists(w, b2, executable, cwd)
  }

  /** `DecodeStart`: the whole payload must be used up. */
  function DecodeStart(w: Wire, p: seq<byte>): Parsed<Request> {
    match ParseStart(w, p)
    case Bad => Bad
    case Good(r, rest) => if rest == [] then Good(r, []) else Bad
  }

  function DecodeDetached(w: Wire, p: seq<byte>): Parsed<Detached> {
    match ParseStart(w, p)
    case Bad => Bad
    case Good(r, b1) =>
      if r.stdin then Bad
      else
        match w.readText(b1)
        case Bad => Bad
        case Good(out, b2) =>
          match w.readText(b2)
          case Bad => Bad
          case Good(err, rest) => if rest == [] then Good(Detached(r, out, err), []) else Bad
  }

  // ---- decode undoes encode ---------------------------------------------------------------------

  lemma Regroup(a: seq<byte>, b: seq<byte>, c: seq<byte>)
    ensures (a + b) + c == a + (b + c)
  {}

  lemma {:induction false} TextsBack(w: Wire, items: seq<text>, t: seq<byte>)
    requires Exact(w) && ValidTexts(w, items)
    ensures ParseTexts(w, EncodeTexts(w, items) + t, |items|) == Good(items, t)
    decreases |items|
  {
    if items == [] {
      assert [] + t == t;
    } else {
      var more := EncodeTexts(w, items[1..]);
      TextsBack(w, items[1..], t);
      assert TextBack(w, items[0], more + t);
      Regroup(w.text(items[0]), more, t);
      assert [items[0]] + items[1..] == items;
    }
  }

  lemma PairBack(w: Wire, x: Pair, seen: set<text>, t: seq<byte>)
    requires Exact(w) && ValidPair(w, x, seen)
    ensures ParsePair(w, EncodePair(w, x) + t, seen) == Good(x, t)
  {
    assert TextBack(w, x.key, w.text(x.value) + t) && TextBack(w, x.value, t);
    Regroup(w.text(x.key), w.text(x.value), t);
  }

  lemma {:induction false} PairsBack(w: Wire, items: seq<Pair>, seen: set<text>, t: seq<byte>)
    requires Exact(w) && ValidPairs(w, items, seen)
    ensures ParsePairs(w, EncodePairs(w, items) + t, |items|, seen) == Good(items, t)
    decreases |items|
  {
    if items == [] {
      assert [] + t == t;
    } else {
      var more := EncodePairs(w, items[1..]);
      PairsBack(w, items[1..], seen + {items[0].key}, t);
      PairBack(w, items[0], seen, more + t);
      Regroup(EncodePair(w, items[0]), more, t);
      assert [items[0]] + items[1..] == items;
    }
  }

  lemma TailBack(w: Wire, r: Request, t: seq<byte>)
    requires Exact(w) && ValidRequest(w, r)
    ensures ParseTail(w, EncodeTail(w, r) + t, r.executable, r.cwd, r.args) == Good(r, t)
  {
    var pairs, flag := EncodePairs(w, r.env), Flag(r.stdin);
    PairsBack(w, r.env, {}, flag + t);
    assert NumberBack(w, |r.env|, pairs + (flag + t));
    Regroup(pairs, flag, t);
    Regroup(w.number(|r.env|), pairs + flag, t);
    assert (flag + t)[1..] == t;
  }

  lemma ListsBack(w: Wire, r: Request, t: seq<byte>)
    requires Exact(w) && ValidRequest(w, r)
    ensures ParseLists(w, EncodeLists(w, r) + t, r.executable, r.cwd) == Good(r, t)
  {
    var texts, tail := EncodeTexts(w, r.args), EncodeTail(w, r);
    TailBack(w, r, t);
    TextsBack(w, r.args, tail + t);
    assert NumberBack(w, |r.args|, texts + (tail + t));
    Regroup(texts, tail, t);
    Regroup(w.number(|r.args|), texts + tail, t);
  }

  lemma StartBack(w: Wire, r: Request, t: seq<byte>)
    requires Exact(w) && ValidRequest(w, r)
    ensures ParseStart(w, EncodeStart(w, r) + t) == Good(r, t)
  {
    var lists := EncodeLists(w, r);
    ListsBack(w, r, t);
    assert TextBack(w, r.cwd, lists + t) && TextBack(w, r.executable, w.text(r.cwd) + (lists + t));
    Regroup(w.text(r.cwd), lists, t);
    Regroup(w.text(r.executable), w.text(r.cwd) + lists, t);
  }

  /** Decoding what was encoded gives the request back. */
  lemma DecodeEncodeStart(w: Wire, r: Request)
    requires Exact(w) && ValidRequest(w, r)
    ensures DecodeStart(w, EncodeStart(w, r)) == Good(r, [])
  {
    StartBack(w, r, []);
    assert EncodeStart(w, r) + [] == EncodeStart(w, r);
  }

  lemma DecodeEncodeDetached(w: Wire, d: Detached)
    requires Exact(w) && ValidDetached(w, d)
    ensures DecodeDetached(w, EncodeDetached(w, d)) == Good(d, [])
  {
    StartBack(w, d.request, w.text(d.stdout) + w.text(d.stderr));
    assert TextBack(w, d.stdout, w.text(d.stderr)) && TextBack(w, d.stderr, []);
    assert w.text(d.stderr) + [] == w.text(d.stderr);
  }

  // ---- encode undoes decode ---------------------------------------------------------------------

  lemma {:induction false} TextsForth(w: Wire, b: seq<byte>, n: nat, items: seq<text>, end: seq<byte>)
    requires Exact(w) && ParseTexts(w, b, n) == Good(items, end)
    ensures b == EncodeTexts(w, items) + end && |items| == n && ValidTexts(w, items)
    decreases n
  {
    if n == 0 {
      assert b == [] + b;
    } else {
      var s, rest := w.readText(b).value, w.readText(b).rest;
      var more := ParseTexts(w, rest, n - 1).value;
      assert TextForth(w, b, s, rest);
      TextsForth(w, rest, n - 1, more, end);
      assert items[1..] == more;
      Regroup(w.text(s), EncodeTexts(w, more), end);
    }
  }

  lemma PairForth(w: Wire, b: seq<byte>, seen: set<text>, x: Pair, rest: seq<byte>)
    requires Exact(w) && ParsePair(w, b, seen) == Good(x, rest)
    ensures b == EncodePair(w, x) + rest && ValidPair(w, x, seen)
  {
    var b1 := w.readText(b).rest;
    assert TextForth(w, b, x.key, b1) && TextForth(w, b1, x.value, rest);
    Regroup(w.text(x.key), w.text(x.value), rest);
  }

  lemma {:induction false} PairsForth(w: Wire, b: seq<byte>, n: nat, seen: set<text>, items: seq<Pair>, end: seq<byte>)
    requires Exact(w) && ParsePairs(w, b, n, seen) == Good(items, end)
    ensures b == EncodePairs(w, items) + end && |items| == n && ValidPairs(w, items, seen)
    decreases n
  {
    if n == 0 {
      assert b == [] + b;
    } else {
      var x, rest := ParsePair(w, b, seen).value, ParsePair(w, b, seen).rest;
      var more := ParsePairs(w, rest, n - 1, seen + {x.key}).value;
      PairForth(w, b, seen, x, rest);
      PairsForth(w, rest, n - 1, seen + {x.key}, more, end);
      assert items[1..] == more;
      Regroup(EncodePair(w, x), EncodePairs(w, more), end);
    }
  }

  lemma TailForth(w: Wire, b: seq<byte>, r: Request, rest: seq<byte>)
    requires Exact(w) && ParseTail(w, b, r.executable, r.cwd, r.args) == Good(r, rest)
    ensures b == EncodeTail(w, r) + rest && |r.env| <= MAX_ITEMS && ValidPairs(w, r.env, {}) && r.executable != []
  {
    var n, b1 := w.readNumber(b).value, w.readNumber(b).rest;
    var b2 := ParsePairs(w, b1, n, {}).rest;
    assert NumberForth(w, b, n, b1);
    PairsForth(w, b1, n, {}, r.env, b2);
    assert b2 == Flag(r.stdin) + rest;
    Regroup(EncodePairs(w, r.env), Flag(r.stdin), rest);
    Regroup(w.number(n), EncodePairs(w, r.env) + Flag(r.stdin), rest);
  }

  lemma ListsForth(w: Wire, b: seq<byte>, r: Request, rest: seq<byte>)
    requires Exact(w) && ParseLists(w, b, r.executable, r.cwd) == Good(r, rest) && w.carried(r.executable) &&
             w.carried(r.cwd)
    ensures b == EncodeLists(w, r) + rest && ValidRequest(w, r)
  {
    var n, b1 := w.readNumber(b).value, w.readNumber(b).rest;
    var b2 := ParseTexts(w, b1, n).rest;
    assert NumberForth(w, b, n, b1);
    TextsForth(w, b1, n, r.args, b2);
    TailForth(w, b2, r, rest);
    Regroup(EncodeTexts(w, r.args), EncodeTail(w, r), rest);
    Regroup(w.number(n), EncodeTexts(w, r.args) + EncodeTail(w, r), rest);
  }

  lemma StartForth(w: Wire, b: seq<byte>, r: Request, rest: seq<byte>)
    requires Exact(w) && ParseStart(w, b) == Good(r, rest)
    ensures b == EncodeStart(w, r) + rest && ValidRequest(w, r)
  {
    var b1 := w.readText(b).rest;
    var b2 := w.readText(b1).rest;
    assert TextForth(w, b, r.executable, b1) && TextForth(w, b1, r.cwd, b2);
    ListsForth(w, b2, r, rest);
    Regroup(w.text(r.cwd), EncodeLists(w, r), rest);
    Regroup(w.text(r.executable), w.text(r.cwd) + EncodeLists(w, r), rest);
  }

  /** Every accepted payload is valid and re-encodes to itself: with the lemma above, a bijection. */
  lemma EncodeDecodeStart(w: Wire, p: seq<byte>)
    requires Exact(w) && DecodeStart(w, p).Good?
    ensures EncodeStart(w, DecodeStart(w, p).value) == p && ValidRequest(w, DecodeStart(w, p).value)
  {
    var r := DecodeStart(w, p).value;
    StartForth(w, p, r, []);
    assert EncodeStart(w, r) + [] == EncodeStart(w, r);
  }

  lemma EncodeDecodeDetached(w: Wire, p: seq<byte>)
    requires Exact(w) && DecodeDetached(w, p).Good?
    ensures EncodeDetached(w, DecodeDetached(w, p).value) == p && ValidDetached(w, DecodeDetached(w, p).value)
  {
    var d, b1 := DecodeDetached(w, p).value, ParseStart(w, p).rest;
    var b2 := w.readText(b1).rest;
    StartForth(w, p, d.request, b1);
    assert TextForth(w, b1, d.stdout, b2) && TextForth(w, b2, d.stderr, []);
    assert w.text(d.stderr) + [] == w.text(d.stderr);
  }
}
