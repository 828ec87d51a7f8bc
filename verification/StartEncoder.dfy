/**
 The C client's START encoder (sdk/c/oheco_broker.c): it checks and measures every string first, allocates
 exactly that many bytes, and then writes them.
 */
module StartEncoder {
  import opened Bytes
  import opened Utf8
  import opened StartCodec
  import opened StartProtocol

  const MAX_FRAME: nat := 1048576

  /** A C string; None is a null pointer. */
  datatype CString = Null | Text(bytes: text)

  datatype CPair = CPair(key: CString, value: CString)

  datatype Options = Options(executable: CString, cwd: CString, args: seq<CString>, env: seq<CPair>, stdin: int)

  datatype Result = Payload(bytes: seq<byte>) | Invalid | Limit

  function TextOf(s: CString): text {
    if s.Text? then s.bytes else []
  }

  function Texts(items: seq<CString>): (r: seq<text>)
    ensures |r| == |items| && forall i :: 0 <= i < |r| ==> r[i] == TextOf(items[i])
  {
    seq(|items|, i requires 0 <= i < |items| => TextOf(items[i]))
  }

  function Pairs(items: seq<CPair>): (r: seq<Pair>)
    ensures |r| == |items| && forall i :: 0 <= i < |r| ==> r[i] == Pair(TextOf(items[i].key), TextOf(items[i].value))
  {
    seq(|items|, i requires 0 <= i < |items| => Pair(TextOf(items[i].key), TextOf(items[i].value)))
  }

  /** The request that the options describe; a null working directory is empty. */
  function RequestOf(o: Options): Request {
    Request(TextOf(o.executable), TextOf(o.cwd), Texts(o.args), Pairs(o.env), o.stdin == 1)
  }

  // ---- appending one item at the end --------------------------------------------------------------

  lemma {:induction false} TextsSnoc(w: Wire, items: seq<text>, s: text)
    ensures EncodeTexts(w, items + [s]) == EncodeTexts(w, items) + w.text(s)
    decreases |items|
  {
    if items == [] {
      assert [] + [s] == [s] && [s][1..] == [];
    } else {
      TextsSnoc(w, items[1..], s);
      assert (items + [s])[1..] == items[1..] + [s];
      Regroup(w.text(items[0]), EncodeTexts(w, items[1..]), w.text(s));
    }
  }

  lemma {:induction false} PairsSnoc(w: Wire, items: seq<Pair>, x: Pair)
    ensures EncodePairs(w, items + [x]) == EncodePairs(w, items) + EncodePair(w, x)
    decreases |items|
  {
    if items == [] {
      assert [] + [x] == [x] && [x][1..] == [];
    } else {
      PairsSnoc(w, items[1..], x);
      assert (items + [x])[1..] == items[1..] + [x];
      Regroup(EncodePair(w, items[0]), EncodePairs(w, items[1..]), EncodePair(w, x));
    }
  }

  // ---- the measured size --------------------------------------------------------------------------

  function TextsSize(items: seq<text>): nat {
    if items == [] then 0 else TextsSize(items[..|items| - 1]) + 4 + |items[|items| - 1]|
  }

  function PairsSize(items: seq<Pair>): nat {
    if items == [] then 0
    else PairsSize(items[..|items| - 1]) + 8 + |items[|items| - 1].key| + |items[|items| - 1].value|
  }

  /** Nine bytes for the two counts and the flag, and four more for every string. */
  function Size(r: Request): nat {
    9 + (4 + |r.executable|) + (4 + |r.cwd|) + TextsSize(r.args) + PairsSize(r.env)
  }

  lemma {:induction false} TextsSizeExact(items: seq<text>)
    ensures |EncodeTexts(Standard(), items)| == TextsSize(items)
    decreases |items|
  {
    if items != [] {
      var front, last := items[..|items| - 1], items[|items| - 1];
      TextsSizeExact(front);
      TextsSnoc(Standard(), front, last);
      assert items == front + [last];
    }
  }

  lemma {:induction false} PairsSizeExact(items: seq<Pair>)
    ensures |EncodePairs(Standard(), items)| == PairsSize(items)
    decreases |items|
  {
    if items != [] {
      var front, last := items[..|items| - 1], items[|items| - 1];
      PairsSizeExact(front);
      PairsSnoc(Standard(), front, last);
      assert items == front + [last];
    }
  }

  /** The precomputed size is the length of the encoding. */
  lemma SizeExact(r: Request)
    ensures |EncodeStart(Standard(), r)| == Size(r)
  {
    TextsSizeExact(r.args);
    PairsSizeExact(r.env);
  }

  // ---- which options are accepted -----------------------------------------------------------------

  predicate GoodText(s: CString) {
    s.Text? && ValidText(s.bytes)
  }

  predicate GoodArg(args: seq<CString>, i: nat)
    requires i < |args|
  {
    GoodText(args[i])
  }

  /** Proper, new and valid: everything that is asked of entry `i`. */
  predicate GoodEntry(env: seq<CPair>, i: nat)
    requires i < |env|
  {
    && GoodText(env[i].key) && GoodText(env[i].value) && GoodKey(env[i].key.bytes)
    && forall j :: 0 <= j < i ==> TextOf(env[j].key) != env[i].key.bytes
  }

  predicate Accepted(o: Options, detached: bool, out: CString, err: CString) {
    && GoodText(o.executable) && o.executable.bytes != [] && (o.cwd.Text? ==> ValidText(o.cwd.bytes))
    && |o.args| <= MAX_ITEMS && |o.env| <= MAX_ITEMS && o.stdin in {0, 1} && (detached ==> o.stdin == 0)
    && (forall i :: 0 <= i < |o.args| ==> GoodArg(o.args, i)) && (forall i :: 0 <= i < |o.env| ==> GoodEntry(o.env, i))
    && (detached ==> GoodText(out) && GoodText(err))
  }

  function FullSize(o: Options, detached: bool, out: CString, err: CString): nat {
    Size(RequestOf(o)) + (if detached then 8 + |TextOf(out)| + |TextOf(err)| else 0)
  }

  // ---- measuring ----------------------------------------------------------------------------------

  datatype Measured = Total(n: nat) | BadText | TooBig

  /** `size_string`. */
  method SizeString(s: CString, total: nat) returns (r: Measured)
    requires total <= MAX_FRAME
    ensures r == if !GoodText(s) then BadText else if total + 4 + |s.bytes| > MAX_FRAME then TooBig
            else Total(total + 4 + |s.bytes|)
  {
    if s.Null? {
      return BadText;
    }
    var n := |s.bytes|;
    var valid := Check(s.bytes);
    if !valid {
      return BadText;
    }
    if n > MAX_FRAME - 4 || total > MAX_FRAME - 4 - n {
      return TooBig;
    }
    return Total(total + 4 + n);
  }

  lemma {:induction false} TextsSizeGrows(items: seq<text>, i: nat)
    requires i <= |items|
    ensures TextsSize(items[..i]) <= TextsSize(items)
    decreases |items| - i
  {
    if i < |items| {
      TextsSizeGrows(items, i + 1);
      assert items[..i + 1][..i] == items[..i];
    } else {
      assert items[..i] == items;
    }
  }

  /** One item more, and never past the whole. */
  lemma TextsSizeStep(items: seq<text>, i: nat)
    requires i < |items|
    ensures TextsSize(items[..i + 1]) == TextsSize(items[..i]) + 4 + |items[i]| <= TextsSize(items)
  {
    TextsSizeGrows(items, i + 1);
    assert items[..i + 1][..i] == items[..i];
  }

  lemma TextsSizeEnds(items: seq<text>)
    ensures TextsSize(items[..0]) == 0 && items[..|items|] == items
  {}

  lemma {:induction false} PairsSizeGrows(items: seq<Pair>, i: nat)
    requires i <= |items|
    ensures PairsSize(items[..i]) <= PairsSize(items)
    decreases |items| - i
  {
    if i < |items| {
      PairsSizeGrows(items, i + 1);
      assert items[..i + 1][..i] == items[..i];
    } else {
      assert items[..i] == items;
    }
  }

  lemma PairsSizeStep(items: seq<Pair>, i: nat)
    requires i < |items|
    ensures PairsSize(items[..i + 1]) ==
            PairsSize(items[..i]) + 8 + |items[i].key| + |items[i].value| <= PairsSize(items)
  {
    PairsSizeGrows(items, i + 1);
    assert items[..i + 1][..i] == items[..i];
  }

  lemma PairsSizeEnds(items: seq<Pair>)
    ensures PairsSize(items[..0]) == 0 && items[..|items|] == items
  {}

  method MeasureArgs(args: seq<CString>, start: nat) returns (r: Measured)
    requires start <= MAX_FRAME
    ensures r.Total? <==>
            (forall i :: 0 <= i < |args| ==> GoodArg(args, i)) && start + TextsSize(Texts(args)) <= MAX_FRAME
    ensures r.Total? ==> r.n == start + TextsSize(Texts(args))
    ensures r.TooBig? ==> start + TextsSize(Texts(args)) > MAX_FRAME
    ensures r.BadText? ==> exists i :: 0 <= i < |args| && !GoodArg(args, i)
  {
    ghost var items := Texts(args);
    var n := start;
    TextsSizeEnds(items);
    for i := 0 to |args|
      invariant n <= MAX_FRAME && n == start + TextsSize(items[..i])
      invariant forall j :: 0 <= j < i ==> GoodArg(args, j)
    {
      r := SizeString(args[i], n);
      TextsSizeStep(items, i);
      if !r.Total? {
        assert r.BadText? ==> !GoodArg(args, i);
        return;
      }
      n := r.n;
    }
    return Total(n);
  }

  /** The checks on one key: present, proper and not among the earlier ones. */
  method KeyFine(env: seq<CPair>, i: nat) returns (fine: bool)
    requires i < |env|
    ensures fine <==> env[i].key.Text? && GoodKey(env[i].key.bytes) && forall j :: 0 <= j < i ==>
            TextOf(env[j].key) != env[i].key.bytes
  {
    if env[i].key.Null? || env[i].key.bytes == [] || EQUALS in env[i].key.bytes {
      return false;
    }
    for j := 0 to i
      invariant forall k :: 0 <= k < j ==> TextOf(env[k].key) != env[i].key.bytes
    {
      if TextOf(env[i].key) == TextOf(env[j].key) {
        return false;
      }
    }
    return true;
  }

  /** One environment entry: its key is checked before its two strings are measured. */
  method MeasureEntry(env: seq<CPair>, i: nat, n: nat) returns (r: Measured)
    requires i < |env| && n <= MAX_FRAME
    ensures r.Total? <==> GoodEntry(env, i) && n + 8 + |TextOf(env[i].key)| + |TextOf(env[i].value)| <= MAX_FRAME
    ensures r.Total? ==> r.n == n + 8 + |TextOf(env[i].key)| + |TextOf(env[i].value)|
    ensures r.TooBig? ==> n + 8 + |TextOf(env[i].key)| + |TextOf(env[i].value)| > MAX_FRAME
    ensures r.BadText? ==> !GoodEntry(env, i)
  {
    var fine := KeyFine(env, i);
    if !fine {
      return BadText;
    }
    r := SizeString(env[i].key, n);
    if r.Total? {
      r := SizeString(env[i].value, r.n);
    }
  }

  method MeasureEnv(env: seq<CPair>, start: nat) returns (r: Measured)
    requires start <= MAX_FRAME
    ensures r.Total? <==>
            (forall i :: 0 <= i < |env| ==> GoodEntry(env, i)) && start + PairsSize(Pairs(env)) <= MAX_FRAME
    ensures r.Total? ==> r.n == start + PairsSize(Pairs(env))
    ensures r.TooBig? ==> start + PairsSize(Pairs(env)) > MAX_FRAME
    ensures r.BadText? ==> exists i :: 0 <= i < |env| && !GoodEntry(env, i)
  {
    ghost var items := Pairs(env);
    var n := start;
    PairsSizeEnds(items);
    for i := 0 to |env|
      invariant n <= MAX_FRAME && n == start + PairsSize(items[..i])
      invariant forall j :: 0 <= j < i ==> GoodEntry(env, j)
    {
      PairsSizeStep(items, i);
      r := MeasureEntry(env, i, n);
      if !r.Total? {
        return;
      }
      n := r.n;
    }
    return Total(n);
  }

  /** The two strings of a detached request, or nothing. */
  method MeasureFiles(detached: bool, out: CString, err: CString, start: nat) returns (r: Measured)
    requires start <= MAX_FRAME
    ensures r.Total? <==>
            (detached ==> GoodText(out) && GoodText(err) && start + 8 + |TextOf(out)| + |TextOf(err)| <= MAX_FRAME)
    ensures r.Total? ==> r.n == start + (if detached then 8 + |TextOf(out)| + |TextOf(err)| else 0)
    ensures r.TooBig? ==> detached && start + 8 + |TextOf(out)| + |TextOf(err)| > MAX_FRAME
    ensures r.BadText? ==> detached && !(GoodText(out) && GoodText(err))
  {
    r := Total(start);
    if detached {
      r := SizeString(out, start);
      if r.Total? {
        r := SizeString(err, r.n);
      }
    }
  }

  /** The executable and the working directory, behind the nine fixed bytes. */
  method MeasureHead(executable: CString, cwd: CString) returns (r: Measured)
    ensures r.Total? <==>
            GoodText(executable) && ValidText(TextOf(cwd)) && 17 + |TextOf(executable)| + |TextOf(cwd)| <= MAX_FRAME
    ensures r.Total? ==> r.n == 17 + |TextOf(executable)| + |TextOf(cwd)|
    ensures r.TooBig? ==> 17 + |TextOf(executable)| + |TextOf(cwd)| > MAX_FRAME
    ensures r.BadText? ==> !GoodText(executable) || !ValidText(TextOf(cwd))
  {
    r := SizeString(executable, 9);
    if r.Total? {
      r := SizeString(Text(TextOf(cwd)), r.n);
    }
  }

  /** The measuring half of `encode_start`. */
  method Measure(o: Options, detached: bool, out: CString, err: CString) returns (r: Measured)
    ensures r.Total? <==> Accepted(o, detached, out, err) && FullSize(o, detached, out, err) <= MAX_FRAME
    ensures r.Total? ==> r.n == FullSize(o, detached, out, err)
    ensures r.TooBig? ==> FullSize(o, detached, out, err) > MAX_FRAME
    ensures r.BadText? ==> !Accepted(o, detached, out, err)
  {
    if o.executable.Null? || o.executable.bytes == [] || |o.args| > MAX_ITEMS || |o.env| > MAX_ITEMS ||
       (o.stdin != 0 && o.stdin != 1) || (detached && o.stdin != 0) {
      return BadText;
    }
    r := MeasureHead(o.executable, o.cwd);
    if !r.Total? {
      return;
    }
    r := MeasureArgs(o.args, r.n);
    if !r.Total? {
      return;
    }
    r := MeasureEnv(o.env, r.n);
    if !r.Total? {
      return;
    }
    r := MeasureFiles(detached, out, err, r.n);
  }

  // ---- writing ------------------------------------------------------------------------------------

  /** Everything before `p` is written and holds `done`. */
  ghost predicate Written(buf: array<byte>, p: nat, done: seq<byte>)
    reads buf
  {
    p <= buf.Length && buf[..p] == done
  }

  ghost predicate TextsWritten(buf: array<byte>, p: nat, done: seq<byte>, items: seq<text>)
    reads buf
  {
    Written(buf, p, done + EncodeTexts(Standard(), items))
  }

  ghost predicate PairsWritten(buf: array<byte>, p: nat, done: seq<byte>, items: seq<Pair>)
    reads buf
  {
    Written(buf, p, done + EncodePairs(Standard(), items))
  }

  lemma NothingWritten(buf: array<byte>, p: nat, done: seq<byte>)
    requires Written(buf, p, done)
    ensures TextsWritten(buf, p, done, []) && PairsWritten(buf, p, done, [])
  {
    assert done + [] == done;
  }

  /** `put32`. */
  method PutCount(buf: array<byte>, p: nat, n: nat, ghost done: seq<byte>) returns (q: nat)
    requires p + 4 <= buf.Length && Written(buf, p, done)
    modifies buf
    ensures q == p + 4 && Written(buf, q, done + Put(n, 4))
  {
    Write(buf, p, n, 4);
    assert buf[..p + 4] == buf[..p] + buf[p..p + 4];
    return p + 4;
  }

  /** `put_string`. */
  method PutString(buf: array<byte>, p: nat, s: text, ghost done: seq<byte>) returns (q: nat)
    requires p + 4 + |s| <= buf.Length && Written(buf, p, done)
    modifies buf
    ensures q == p + 4 + |s| && Written(buf, q, done + EncodeText(s))
  {
    q := PutCount(buf, p, |s|, done);
    ghost var head := buf[..q];
    forall i | 0 <= i < |s| {
      buf[q + i] := s[i];
    }
    assert buf[..q + |s|] == head + s;
    Regroup(done, Put(|s|, 4), s);
    return q + |s|;
  }

  /** The first `i` items are written behind `done`, from `p` to `q`. */
  ghost predicate TextsUpTo(buf: array<byte>, p: nat, q: nat, done: seq<byte>, items: seq<text>, i: nat)
    requires i <= |items|
    reads buf
  {
    q == p + TextsSize(items[..i]) && TextsWritten(buf, q, done, items[..i])
  }

  lemma TextsBegin(buf: array<byte>, p: nat, done: seq<byte>, items: seq<text>)
    requires Written(buf, p, done)
    ensures TextsUpTo(buf, p, p, done, items, 0)
  {
    NothingWritten(buf, p, done);
    assert items[..0] == [];
  }

  lemma TextsEnd(buf: array<byte>, p: nat, q: nat, done: seq<byte>, items: seq<text>)
    requires TextsUpTo(buf, p, q, done, items, |items|)
    ensures q == p + TextsSize(items) && TextsWritten(buf, q, done, items)
  {
    assert items[..|items|] == items;
  }

  method PutTexts(buf: array<byte>, p: nat, args: seq<CString>, ghost done: seq<byte>) returns (q: nat)
    requires p + TextsSize(Texts(args)) <= buf.Length && Written(buf, p, done)
    modifies buf
    ensures q == p + TextsSize(Texts(args)) && TextsWritten(buf, q, done, Texts(args))
  {
    q := p;
    TextsBegin(buf, p, done, Texts(args));
    for i := 0 to |args|
      invariant TextsUpTo(buf, p, q, done, Texts(args), i)
    {
      q := PutTextsItem(buf, p, q, args, i, done, Texts(args));
    }
    TextsEnd(buf, p, q, done, Texts(args));
  }

  method PutTextsItem(buf: array<byte>, ghost p: nat, q: nat, args: seq<CString>, i: nat, ghost done: seq<byte>,
                      ghost items: seq<text>)
    returns (r: nat)
    requires i < |args| && items == Texts(args) && p + TextsSize(items) <= buf.Length &&
             TextsUpTo(buf, p, q, done, items, i)
    modifies buf
    ensures TextsUpTo(buf, p, r, done, items, i + 1)
  {
    TextsSizeStep(items, i);
    assert items[..i + 1] == items[..i] + [items[i]];
    r := PutText(buf, q, args[i], done, items[..i]);
  }

  method PutText(buf: array<byte>, p: nat, x: CString, ghost done: seq<byte>, ghost front: seq<text>) returns (q: nat)
    requires p + 4 + |TextOf(x)| <= buf.Length && TextsWritten(buf, p, done, front)
    modifies buf
    ensures q == p + 4 + |TextOf(x)| && TextsWritten(buf, q, done, front + [TextOf(x)])
  {
    ghost var texts := EncodeTexts(Standard(), front);
    q := PutString(buf, p, TextOf(x), done + texts);
    TextsSnoc(Standard(), front, TextOf(x));
    Regroup(done, texts, EncodeText(TextOf(x)));
  }

  /** The first `i` items are written behind `done`, from `p` to `q`. */
  ghost predicate PairsUpTo(buf: array<byte>, p: nat, q: nat, done: seq<byte>, items: seq<Pair>, i: nat)
    requires i <= |items|
    reads buf
  {
    q == p + PairsSize(items[..i]) && PairsWritten(buf, q, done, items[..i])
  }

  lemma PairsBegin(buf: array<byte>, p: nat, done: seq<byte>, items: seq<Pair>)
    requires Written(buf, p, done)
    ensures PairsUpTo(buf, p, p, done, items, 0)
  {
    NothingWritten(buf, p, done);
    assert items[..0] == [];
  }

  lemma PairsEnd(buf: array<byte>, p: nat, q: nat, done: seq<byte>, items: seq<Pair>)
    requires PairsUpTo(buf, p, q, done, items, |items|)
    ensures q == p + PairsSize(items) && PairsWritten(buf, q, done, items)
  {
    assert items[..|items|] == items;
  }

  method PutPairs(buf: array<byte>, p: nat, env: seq<CPair>, ghost done: seq<byte>) returns (q: nat)
    requires p + PairsSize(Pairs(env)) <= buf.Length && Written(buf, p, done)
    modifies buf
    ensures q == p + PairsSize(Pairs(env)) && PairsWritten(buf, q, done, Pairs(env))
  {
    q := p;
    PairsBegin(buf, p, done, Pairs(env));
    for i := 0 to |env|
      invariant PairsUpTo(buf, p, q, done, Pairs(env), i)
    {
      q := PutPairsItem(buf, p, q, env, i, done, Pairs(env));
    }
    PairsEnd(buf, p, q, done, Pairs(env));
  }

  method PutPairsItem(buf: array<byte>, ghost p: nat, q: nat, env: seq<CPair>, i: nat, ghost done: seq<byte>,
                      ghost items: seq<Pair>)
    returns (r: nat)
    requires i < |env| && items == Pairs(env) && p + PairsSize(items) <= buf.Length &&
             PairsUpTo(buf, p, q, done, items, i)
    modifies buf
    ensures PairsUpTo(buf, p, r, done, items, i + 1)
  {
    PairsSizeStep(items, i);
    assert items[..i + 1] == items[..i] + [items[i]];
    r := PutPair(buf, q, env[i], done, items[..i]);
  }

  method PutPair(buf: array<byte>, p: nat, x: CPair, ghost done: seq<byte>, ghost front: seq<Pair>) returns (q: nat)
    requires p + 8 + |TextOf(x.key)| + |TextOf(x.value)| <= buf.Length && PairsWritten(buf, p, done, front)
    modifies buf
    ensures q == p + 8 + |TextOf(x.key)| + |TextOf(x.value)|
    ensures PairsWritten(buf, q, done, front + [Pair(TextOf(x.key), TextOf(x.value))])
  {
    ghost var pairs, k, v := EncodePairs(Standard(), front), EncodeText(TextOf(x.key)), EncodeText(TextOf(x.value));
    q := PutString(buf, p, TextOf(x.key), done + pairs);
    q := PutString(buf, q, TextOf(x.value), done + pairs + k);
    PairsSnoc(Standard(), front, Pair(TextOf(x.key), TextOf(x.value)));
    Regroup(done + pairs, k, v);
    Regroup(done, pairs, k + v);
  }

  /** The START fields, in order. */
  method PutRequest(buf: array<byte>, o: Options) returns (q: nat)
    requires Size(RequestOf(o)) <= buf.Length
    modifies buf
    ensures q == Size(RequestOf(o)) && Written(buf, q, EncodeStart(Standard(), RequestOf(o)))
  {
    ghost var r, w := RequestOf(o), Standard();
    q := PutString(buf, 0, TextOf(o.executable), []);
    ghost var e := EncodeText(r.executable);
    assert [] + e == e;
    q := PutString(buf, q, TextOf(o.cwd), e);
    ghost var head := e + EncodeText(r.cwd);
    q := PutCount(buf, q, |o.args|, head);
    ghost var argc := Put(|o.args|, 4);
    q := PutTexts(buf, q, o.args, head + argc);
    ghost var args := EncodeTexts(w, r.args);
    q := PutCount(buf, q, |o.env|, head + argc + args);
    ghost var envc := Put(|o.env|, 4);
    q := PutPairs(buf, q, o.env, head + argc + args + envc);
    ghost var env := EncodePairs(w, r.env);
    ghost var before := buf[..q];
    buf[q] := if o.stdin == 1 then 1 else 0;
    q := q + 1;
    assert buf[..q] == before + Flag(r.stdin);
    StartFlat(r, head, argc, args, envc, env);
  }

  lemma StartFlat(r: Request, head: seq<byte>, argc: seq<byte>, args: seq<byte>, envc: seq<byte>, env: seq<byte>)
    requires head == EncodeText(r.executable) + EncodeText(r.cwd)
    requires argc == Put(|r.args|, 4) && args == EncodeTexts(Standard(), r.args) && envc == Put(|r.env|, 4) &&
             env == EncodePairs(Standard(), r.env)
    ensures head + argc + args + envc + env + Flag(r.stdin) == EncodeStart(Standard(), r)
  {
    var flag := Flag(r.stdin);
    Regroup(head + argc + args + envc, env, flag);
    Regroup(head + argc + args, envc, env + flag);
    Regroup(head + argc, args, envc + (env + flag));
    Regroup(head, argc, args + (envc + (env + flag)));
    Regroup(EncodeText(r.executable), EncodeText(r.cwd), EncodeLists(Standard(), r));
  }

  /** `encode_start`: refuse bad input, refuse more than a frame, else return the encoding the decoder expects. */
  method Encode(o: Options, detached: bool, out: CString, err: CString) returns (r: Result)
    ensures r.Payload? <==> Accepted(o, detached, out, err) && FullSize(o, detached, out, err) <= MAX_FRAME
    ensures r.Payload? ==> |r.bytes| == FullSize(o, detached, out, err) <= MAX_FRAME
    ensures r.Payload? && !detached ==> r.bytes == EncodeStart(Standard(), RequestOf(o))
    ensures r.Payload? && detached ==>
            r.bytes == EncodeDetached(Standard(), Detached(RequestOf(o), TextOf(out), TextOf(err)))
    ensures r.Limit? ==> FullSize(o, detached, out, err) > MAX_FRAME
    ensures r.Invalid? ==> !Accepted(o, detached, out, err)
  {
    var m := Measure(o, detached, out, err);
    if !m.Total? {
      return if m.TooBig? then Limit else Invalid;
    }
    var buf := new byte[m.n](_ => 0);
    var p := PutRequest(buf, o);
    if detached {
      ghost var start, w := EncodeStart(Standard(), RequestOf(o)), Standard();
      p := PutString(buf, p, TextOf(out), start);
      p := PutString(buf, p, TextOf(err), start + EncodeText(TextOf(out)));
      Regroup(start, EncodeText(TextOf(out)), EncodeText(TextOf(err)));
    }
    assert buf[..p] == buf[..];
    return Payload(buf[..]);
  }

  // ---- the two ends agree -------------------------------------------------------------------------

  lemma {:induction false} DistinctKeysValid(items: seq<Pair>, seen: set<text>)
    requires forall i :: 0 <= i < |items| ==> ValidPair(Standard(), items[i], seen)
    requires forall i, j :: 0 <= i < j < |items| ==> items[i].key != items[j].key
    ensures ValidPairs(Standard(), items, seen)
    decreases |items|
  {
    if items != [] {
      forall i | 0 <= i < |items| - 1 ensures ValidPair(Standard(), items[1..][i], seen + {items[0].key}) {
        assert ValidPair(Standard(), items[i + 1], seen);
      }
      DistinctKeysValid(items[1..], seen + {items[0].key});
    }
  }

  lemma {:induction false} TextsValid(items: seq<text>)
    requires forall i :: 0 <= i < |items| ==> Carried(items[i])
    ensures ValidTexts(Standard(), items)
    decreases |items|
  {
    if items != [] {
      TextsValid(items[1..]);
    }
  }

  /** Whatever the C client encodes, the Go decoder accepts and reads as the same request. */
  lemma ServerReadsClient(o: Options, detached: bool, out: CString, err: CString)
    requires Accepted(o, detached, out, err) && FullSize(o, detached, out, err) <= MAX_FRAME
    ensures !detached ==> DecodeStart(Standard(), EncodeStart(Standard(), RequestOf(o))) == Good(RequestOf(o), [])
    ensures detached ==>
              var d := Detached(RequestOf(o), TextOf(out), TextOf(err));
              DecodeDetached(Standard(), EncodeDetached(Standard(), d)) == Good(d, [])
  {
    AcceptedIsValid(o, detached, out, err);
    StandardExact();
    if detached {
      DecodeEncodeDetached(Standard(), Detached(RequestOf(o), TextOf(out), TextOf(err)));
    } else {
      DecodeEncodeStart(Standard(), RequestOf(o));
    }
  }

  lemma {:induction false} TextFits(items: seq<text>, i: nat)
    requires i < |items|
    ensures |items[i]| <= TextsSize(items)
    decreases |items|
  {
    if i < |items| - 1 {
      TextFits(items[..|items| - 1], i);
    }
  }

  lemma {:induction false} PairFits(items: seq<Pair>, i: nat)
    requires i < |items|
    ensures |items[i].key| + |items[i].value| <= PairsSize(items)
    decreases |items|
  {
    if i < |items| - 1 {
      PairFits(items[..|items| - 1], i);
    }
  }

  lemma AcceptedIsValid(o: Options, detached: bool, out: CString, err: CString)
    requires Accepted(o, detached, out, err) && FullSize(o, detached, out, err) <= MAX_FRAME
    ensures ValidRequest(Standard(), RequestOf(o))
    ensures detached ==> ValidDetached(Standard(), Detached(RequestOf(o), TextOf(out), TextOf(err)))
  {
    var r := RequestOf(o);
    forall i | 0 <= i < |r.args| ensures Carried(r.args[i]) {
      TextFits(r.args, i);
      assert GoodArg(o.args, i);
    }
    TextsValid(r.args);
    forall i | 0 <= i < |r.env| ensures ValidPair(Standard(), r.env[i], {}) {
      PairFits(r.env, i);
      assert GoodEntry(o.env, i);
    }
    forall i, j | 0 <= i < j < |r.env| ensures r.env[i].key != r.env[j].key {
      assert GoodEntry(o.env, j);
    }
    DistinctKeysValid(r.env, {});
  }
}
