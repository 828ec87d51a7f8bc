/** The loops of sdk/c/remote/ob_json.c over an index into the text, against the scanner functions. */
module JsonLoops {
  import opened Bytes
  import opened Json
  import opened JsonScan
  import opened JsonAgree

  lemma Suffix(text: bytes, at: nat, n: nat)
    requires at + n <= |text|
    ensures text[at..][n..] == text[at + n..]
  {}

  method SkipSpace(text: bytes, from: nat) returns (at: nat)
    requires from <= |text|
    ensures at == from + Spaces(text[from..]) <= |text|
  {
    at := from;
    while at < |text| && Space(text[at])
      invariant from <= at <= |text| && from + Spaces(text[from..]) == at + Spaces(text[at..])
    {
      Suffix(text, at, 1);
      at := at + 1;
    }
  }

  /** `string_end`. */
  method StringEnd(text: bytes, from: nat) returns (end: nat)
    requires from <= |text|
    ensures end == from + StringLength(text[from..]) <= |text|
  {
    if from >= |text| || text[from] != QUOTE {
      return |text|;
    }
    Suffix(text, from, 1);
    var at := from + 1;
    while at < |text|
      invariant from + 1 <= at <= |text| && from + StringLength(text[from..]) == at + StringRest(text[at..])
    {
      if text[at] == QUOTE {
        return at + 1;
      }
      Suffix(text, at, 1);
      if text[at] == BACKSLASH {
        if at + 1 >= |text| {
          return |text|;
        }
        Suffix(text, at, 2);
        at := at + 1;
      }
      at := at + 1;
    }
    return |text|;
  }

  lemma TextStep(text: bytes, at: nat, e: nat, depth: nat)
    requires at < |text| && text[at] == QUOTE && e == at + StringLength(text[at..]) <= |text|
    ensures at + ValueLength(text[at..], depth) == if e == |text| then |text| else e + ValueLength(text[e..], depth)
  {
    Suffix(text, at, e - at);
  }

  lemma ByteStep(text: bytes, at: nat, depth: nat)
    requires at < |text| && text[at] != QUOTE
    ensures var c := text[at]; var here := at + ValueLength(text[at..], depth);
            && (c == 0x7b || c == 0x5b ==> here == at + 1 + ValueLength(text[at + 1..], depth + 1))
            && ((c == 0x7d || c == 0x5d) && depth > 0 ==> here == at + 1 + ValueLength(text[at + 1..], depth - 1))
            && ((c == 0x7d || c == 0x5d || c == COMMA) && depth == 0 ==> here == at)
            && (Neutral(c) || (c == COMMA && depth > 0) ==> here == at + 1 + ValueLength(text[at + 1..], depth))
  {
    Suffix(text, at, 1);
  }

  /** `value_end`. */
  method ValueEnd(text: bytes, from: nat) returns (end: nat)
    requires from <= |text|
    ensures end == from + ValueLength(text[from..], 0) <= |text|
  {
    var at, depth := from, 0;
    while at < |text|
      invariant from <= at <= |text| && from + ValueLength(text[from..], 0) == at + ValueLength(text[at..], depth)
    {
      var c := text[at];
      if c == QUOTE {
        var e := StringEnd(text, at);
        TextStep(text, at, e, depth);
        if e == |text| {
          return |text|;
        }
        at := e;
        continue;
      }
      ByteStep(text, at, depth);
      if c == 0x7b || c == 0x5b {
        depth := depth + 1;
        at := at + 1;
      } else if c == 0x7d || c == 0x5d {
        if depth == 0 {
          return at;
        }
        depth := depth - 1;
        at := at + 1;
      } else if c == COMMA && depth == 0 {
        return at;
      } else {
        at := at + 1;
      }
    }
    return |text|;
  }

  /** The four digits of a \u escape; -1 when one of them is none. */
  method Hex(h: bytes) returns (code: int)
    ensures code == HexCode(h)
  {
    code := 0;
    for i := 0 to |h|
      invariant code == HexCode(h[..i]) && code >= 0
    {
      var digit := HexValue(h[i]);
      assert h[..i + 1][..i] == h[..i];
      if digit < 0 {
        NoHex(h, i + 1);
        return -1;
      }
      code := code * 16 + digit;
    }
    assert h[..|h|] == h;
  }

  lemma {:induction false} NoHex(h: bytes, i: nat)
    requires i <= |h| && HexCode(h[..i]) < 0
    ensures HexCode(h) == -1
    decreases |h| - i
  {
    if i < |h| {
      assert h[..i + 1][..i] == h[..i];
      NoHex(h, i + 1);
    } else {
      assert h[..i] == h;
    }
  }

  /** `ascii_key_equal` on the bytes between the quotes. */
  method KeyEqual(t: bytes, field: bytes) returns (equal: bool)
    ensures equal <==> KeyMatches(t, field)
  {
    var at, key := 0, 0;
    assert t[0..] == t && field[0..] == field;
    while at < |t|
      invariant at <= |t| && key <= |field| && (KeyMatches(t, field) <==> KeyMatches(t[at..], field[key..]))
      decreases |t| - at
    {
      var c, n := Front(t, at);
      if c == 0 || key >= |field| || c != field[key] {
        return false;
      }
      Suffix(t, at, n);
      Suffix(field, key, 1);
      at, key := at + n, key + 1;
    }
    return key == |field|;
  }

  /** One character of a key, with its escapes. */
  method Front(t: bytes, at: nat) returns (c: int, n: nat)
    requires at < |t|
    ensures (c, n) == FrontChar(t[at..])
  {
    c, n := t[at], 1;
    if c == BACKSLASH {
      if at + 1 >= |t| {
        return 0, |t| - at;
      }
      if t[at + 1] == 0x75 {
        if |t| - at < 6 {
          return 0, |t| - at;
        }
        var code := Hex(t[at + 2..at + 6]);
        assert t[at..][2..6] == t[at + 2..at + 6];
        return if code <= 0 || code > 127 then 0 else code, 6;
      }
      return ShortChar(t[at + 1]), 2;
    }
  }

  /** The division in the overflow test is exact. */
  lemma OverflowTestExact(result: int, digit: int)
    requires 0 <= digit <= 9
    ensures result > (MAX_U64 - digit) / 10 <==> result * 10 + digit > MAX_U64
  {}

  lemma {:induction false} PrefixBelow(t: bytes, i: nat)
    requires i <= |t| && AllDigits(t)
    ensures 0 <= Decimal(t[..i]) <= Decimal(t)
    decreases |t| - i
  {
    if i < |t| {
      PrefixBelow(t, i + 1);
      assert t[..i + 1][..i] == t[..i];
      DecimalPositive(t[..i]);
    } else {
      assert t[..i] == t;
      DecimalPositive(t);
    }
  }

  lemma {:induction false} DecimalPositive(t: bytes)
    requires AllDigits(t)
    ensures Decimal(t) >= 0
    decreases |t|
  {
    if t != [] {
      DecimalPositive(t[..|t| - 1]);
    }
  }

  /** The digits of the matched value, with the test that keeps the sum inside 64 bits. */
  method ParseUint(t: bytes, min: int, max: int) returns (r: Option<int>)
    ensures r == ReadUint(t, min, max)
  {
    if t == [] || (|t| > 1 && t[0] == 0x30) {
      return None;
    }
    var result := 0;
    for i := 0 to |t|
      invariant 0 <= result == Decimal(t[..i]) <= MAX_U64 && AllDigits(t[..i])
    {
      var c: int := t[i];
      if c < 0x30 || c > 0x39 {
        assert !DigitByte(t[i]);
        return None;
      }
      var digit := c - 0x30;
      assert t[..i + 1][..i] == t[..i];
      OverflowTestExact(result, digit);
      if result > (MAX_U64 - digit) / 10 {
        if AllDigits(t) {
          PrefixBelow(t, i + 1);
        }
        return None;
      }
      result := result * 10 + digit;
    }
    assert t[..|t|] == t;
    if result < min || result > max {
      return None;
    }
    return Some(result);
  }

  /** The white space behind a value is given back. */
  method TrimEnd(t: bytes) returns (u: bytes)
    ensures u == Trim(t)
  {
    var end := |t|;
    assert t[..end] == t;
    while end > 0 && Space(t[end - 1])
      invariant 0 <= end <= |t| && Trim(t) == Trim(t[..end])
    {
      assert t[..end][..end - 1] == t[..end - 1];
      end := end - 1;
    }
    return t[..end];
  }

  /** White space and one expected byte. */
  method Expect(text: bytes, from: nat, c: byte) returns (ok: bool, at: nat)
    requires from <= |text|
    ensures at <= |text| && After(text[from..], c) == if ok then Some(text[at..]) else None
  {
    at := SkipSpace(text, from);
    Suffix(text, from, at - from);
    if at >= |text| || text[at] != c {
      return false, at;
    }
    Suffix(text, at, 1);
    return true, at + 1;
  }

  /** The string at the front of `t` behind its white space, and what follows it. */
  ghost predicate KeyString(t: bytes, ok: bool, key: bytes, rest: bytes) {
    var u := t[Spaces(t)..];
    if u == [] || u[0] != QUOTE || StringLength(u) >= |u| then !ok
    else ok && key == u[1..StringLength(u) - 1] && rest == u[StringLength(u)..]
  }

  /** The colon and the white space before a value. */
  ghost predicate ColonString(rest: bytes, ok: bool, v: bytes) {
    match After(rest, COLON)
    case None => !ok
    case Some(w) => ok && v == w[Spaces(w)..]
  }

  ghost predicate KeyAt(t: bytes, key: Option<bytes>, v: bytes) {
    ReadKey(t) == if key.Some? then Some(Keyed(key.value, v)) else None
  }

  lemma KeyFollows(t: bytes, key: bytes, rest: bytes, ok: bool, v: bytes)
    requires KeyString(t, true, key, rest) && ColonString(rest, ok, v)
    ensures KeyAt(t, if ok then Some(key) else None, v)
  {}

  lemma NoKey(t: bytes, key: bytes, rest: bytes)
    requires KeyString(t, false, key, rest)
    ensures KeyAt(t, None, rest)
  {}

  /** A key between its quotes. */
  method Key(text: bytes, from: nat) returns (ok: bool, key: bytes, end: nat)
    requires from <= |text|
    ensures end <= |text| && KeyString(text[from..], ok, key, text[end..])
  {
    var begin := SkipSpace(text, from);
    Suffix(text, from, begin - from);
    if begin >= |text| || text[begin] != QUOTE {
      return false, [], begin;
    }
    end := StringEnd(text, begin);
    if end >= |text| {
      return false, [], begin;
    }
    Suffix(text, begin, end - begin);
    Inner(text, begin, end);
    return true, text[begin + 1..end - 1], end;
  }

  method ColonAndSpace(text: bytes, from: nat) returns (ok: bool, at: nat)
    requires from <= |text|
    ensures at <= |text| && ColonString(text[from..], ok, text[at..])
  {
    ok, at := Expect(text, from, COLON);
    if ok {
      var after := at;
      at := SkipSpace(text, after);
      Suffix(text, after, at - after);
    }
  }

  /** The key and the colon of one member. */
  method KeyAndColon(text: bytes, from: nat) returns (key: Option<bytes>, at: nat)
    requires from <= |text|
    ensures at <= |text| && KeyAt(text[from..], key, text[at..])
  {
    var ok, k, end := Key(text, from);
    if !ok {
      NoKey(text[from..], k, text[end..]);
      return None, end;
    }
    var colon, v := ColonAndSpace(text, end);
    KeyFollows(text[from..], k, text[end..], colon, text[v..]);
    return if colon then Some(k) else None, v;
  }

  lemma Inner(text: bytes, begin: nat, end: nat)
    requires begin + 2 <= end <= |text|
    ensures text[begin..][1..end - begin - 1] == text[begin + 1..end - 1]
  {}

  /** A member whose value lies between `begin` and `end`. */
  method Settle(text: bytes, key: bytes, begin: nat, end: nat, field: bytes, min: int, max: int)
    returns (done: bool, r: Option<int>)
    requires begin <= end < |text|
    ensures Decide(Keyed(key, text[begin..]), end - begin, field, min, max) == if done then Answer(r)
            else Decision.Next(text[end + 1..])
  {
    Suffix(text, begin, end - begin + 1);
    assert text[begin..][..end - begin] == text[begin..end];
    var equal := KeyEqual(key, field);
    if equal {
      var t := TrimEnd(text[begin..end]);
      r := ParseUint(t, min, max);
      return true, r;
    }
    return text[end] != COMMA, None;
  }

  /** What a member at `t` decides, told by its key and by what its value decides. */
  ghost predicate Decided(v: bytes, key: bytes, field: bytes, min: int, max: int, d: Decision) {
    var e := ValueLength(v, 0);
    d == if e >= |v| then Answer(None) else Decide(Keyed(key, v), e, field, min, max)
  }

  lemma MemberDecided(t: bytes, key: bytes, v: bytes, field: bytes, min: int, max: int, d: Decision)
    requires KeyAt(t, Some(key), v) && Decided(v, key, field, min, max, d)
    ensures ScanMember(t, field, min, max) == d
  {}

  lemma NoMember(t: bytes, v: bytes, field: bytes, min: int, max: int)
    requires KeyAt(t, None, v)
    ensures ScanMember(t, field, min, max) == Answer(None)
  {}

  lemma KeyShrinks(t: bytes, key: bytes, v: bytes)
    requires KeyAt(t, Some(key), v)
    ensures |v| < |t|
  {}

  method ValueDecides(text: bytes, key: bytes, begin: nat, field: bytes, min: int, max: int)
    returns (done: bool, r: Option<int>, next: nat)
    requires begin <= |text|
    ensures !done ==> begin < next <= |text|
    ensures Decided(text[begin..], key, field, min, max, if done then Answer(r) else Decision.Next(text[next..]))
  {
    var end := ValueEnd(text, begin);
    if end >= |text| {
      return true, None, end;
    }
    done, r := Settle(text, key, begin, end, field, min, max);
    next := end + 1;
  }

  /** One member; `next` is where the following one begins. */
  method Member(text: bytes, from: nat, field: bytes, min: int, max: int)
    returns (done: bool, r: Option<int>, next: nat)
    requires from <= |text|
    ensures !done ==> from < next <= |text|
    ensures ScanMember(text[from..], field, min, max) == if done then Answer(r) else Decision.Next(text[next..])
  {
    var key, begin := KeyAndColon(text, from);
    if key.None? {
      NoMember(text[from..], text[begin..], field, min, max);
      return true, None, 0;
    }
    KeyShrinks(text[from..], key.value, text[begin..]);
    done, r, next := ValueDecides(text, key.value, begin, field, min, max);
    MemberDecided(text[from..], key.value, text[begin..], field, min, max, if done then Answer(r)
                  else Decision.Next(text[next..]));
  }

  /** `ob_json_uint_field`. */
  method UintField(text: bytes, field: bytes, min: int, max: int) returns (r: Option<int>)
    ensures r == ScanField(text, field, min, max)
  {
    if field == [] || min > max {
      return None;
    }
    assert text[0..] == text;
    var at := SkipSpace(text, 0);
    Suffix(text, 0, at);
    if at >= |text| || text[at] != 0x7b {
      return None;
    }
    Suffix(text, at, 1);
    at := at + 1;
    while true
      invariant at <= |text| && ScanMembers(text[at..], field, min, max) == ScanField(text, field, min, max)
      decreases |text| - at
    {
      var done, result, next := Member(text, at, field, min, max);
      if done {
        return result;
      }
      at := next;
    }
  }
}
