/** On every JSON object the scanner finds what a reader of the tree finds. */
module JsonAgree {
  import opened Bytes
  import opened Json
  import opened JsonScan

  lemma Regroup(a: bytes, b: bytes, c: bytes)
    ensures (a + b) + c == a + (b + c)
  {}

  lemma Drop(a: bytes, b: bytes)
    ensures (a + b)[|a|..] == b && (a + b)[..|a|] == a
  {}

  // ---- white space and strings --------------------------------------------------------------------

  lemma {:induction false} SpacesSkip(ws: bytes, rest: bytes)
    requires AllSpace(ws) && (rest == [] || !Space(rest[0]))
    ensures Spaces(ws + rest) == |ws|
    decreases |ws|
  {
    if ws == [] {
      assert ws + rest == rest;
    } else {
      SpacesSkip(ws[1..], rest);
      assert (ws + rest)[1..] == ws[1..] + rest;
    }
  }

  lemma {:induction false} PlainSkip(h: bytes, rest: bytes)
    requires forall i :: 0 <= i < |h| ==> HexByte(h[i])
    ensures StringRest(h + rest) == |h| + StringRest(rest)
    decreases |h|
  {
    if h == [] {
      assert h + rest == rest;
    } else {
      PlainSkip(h[1..], rest);
      assert (h + rest)[1..] == h[1..] + rest;
    }
  }

  lemma CharSkip(x: Char, rest: bytes)
    requires ValidChar(x)
    ensures StringRest(RenderChar(x) + rest) == |RenderChar(x)| + StringRest(rest)
  {
    match x {
      case Plain(c) => assert ([c] + rest)[1..] == rest;
      case Short(c) => assert ([BACKSLASH, c] + rest)[2..] == rest;
      case Unicode(h) =>
        PlainSkip(h, rest);
        var lead: bytes := [BACKSLASH, 0x75];
        Regroup(lead, h, rest);
        assert (lead + (h + rest))[2..] == h + rest;
    }
  }

  lemma {:induction false} CharsSkip(s: seq<Char>, rest: bytes)
    requires ValidString(s)
    ensures StringRest(RenderChars(s) + rest) == |RenderChars(s)| + StringRest(rest)
    decreases |s|
  {
    if s == [] {
      assert RenderChars(s) + rest == rest;
    } else {
      CharsSkip(s[1..], rest);
      CharSkip(s[0], RenderChars(s[1..]) + rest);
      Regroup(RenderChar(s[0]), RenderChars(s[1..]), rest);
    }
  }

  lemma StringSkip(s: seq<Char>, rest: bytes)
    requires ValidString(s)
    ensures StringLength(RenderString(s) + rest) == |RenderString(s)|
  {
    var chars, close: bytes := RenderChars(s), [QUOTE];
    CharsSkip(s, close + rest);
    assert (RenderString(s) + rest)[1..] == chars + (close + rest);
  }

  // ---- values -------------------------------------------------------------------------------------

  /** Bytes that a value scan passes over without noticing, at any depth. */
  predicate Neutral(c: byte) {
    c != QUOTE && c != 0x7b && c != 0x5b && c != 0x7d && c != 0x5d && c != COMMA
  }

  lemma {:induction false} NeutralSkip(s: bytes, rest: bytes, depth: nat)
    requires forall i :: 0 <= i < |s| ==> Neutral(s[i])
    ensures ValueLength(s + rest, depth) == |s| + ValueLength(rest, depth)
    decreases |s|
  {
    if s == [] {
      assert s + rest == rest;
    } else {
      NeutralSkip(s[1..], rest, depth);
      assert (s + rest)[1..] == s[1..] + rest;
    }
  }

  lemma OneSkip(c: byte, rest: bytes, depth: nat)
    ensures c == 0x7b || c == 0x5b ==> ValueLength([c] + rest, depth) == 1 + ValueLength(rest, depth + 1)
    ensures (c == 0x7d || c == 0x5d) && depth > 0 ==> ValueLength([c] + rest, depth) == 1 + ValueLength(rest, depth - 1)
    ensures c == COMMA && depth > 0 ==> ValueLength([c] + rest, depth) == 1 + ValueLength(rest, depth)
  {
    assert ([c] + rest)[1..] == rest;
  }

  lemma TextSkip(s: seq<Char>, rest: bytes, depth: nat)
    requires ValidString(s) && rest != []
    ensures ValueLength(RenderString(s) + rest, depth) == |RenderString(s)| + ValueLength(rest, depth)
  {
    StringSkip(s, rest);
    Drop(RenderString(s), rest);
  }

  /** A value is passed over as a whole, whatever the depth. */
  lemma {:induction false} ValueSkip(v: Value, rest: bytes, depth: nat)
    requires ValidValue(v) && rest != []
    ensures ValueLength(Render(v) + rest, depth) == |Render(v)| + ValueLength(rest, depth)
    decreases v, 0
  {
    match v {
      case Text(chars) => TextSkip(chars, rest, depth);
      case Atom(spelling) => NeutralSkip(spelling, rest, depth);
      case Array(items) =>
        var open: bytes, close: bytes := [0x5b], [0x5d];
        var inner := RenderItems(items);
        ItemsSkip(items, close + rest, depth + 1);
        OneSkip(0x5b, inner + (close + rest), depth);
        OneSkip(0x5d, rest, depth + 1);
        Regroup(open + inner, close, rest);
        Regroup(open, inner, close + rest);
      case Object(members) =>
        var open: bytes, close: bytes := [0x7b], [0x7d];
        var inner := RenderMembers(members);
        MembersSkip(members, close + rest, depth + 1);
        OneSkip(0x7b, inner + (close + rest), depth);
        OneSkip(0x7d, rest, depth + 1);
        Regroup(open + inner, close, rest);
        Regroup(open, inner, close + rest);
    }
  }

  lemma {:induction false} ItemsSkip(x: Items, rest: bytes, depth: nat)
    requires ValidItems(x) && rest != [] && depth > 0
    ensures ValueLength(RenderItems(x) + rest, depth) == |RenderItems(x)| + ValueLength(rest, depth)
    decreases x, 1
  {
    match x {
      case NoItems(last) => NeutralSkip(last, rest, depth);
      case Items(before, value, after, more) =>
        var tail := MoreItems(more);
        MoreItemsSkip(more, rest, depth);
        NeutralSkip(after, tail + rest, depth);
        ValueSkip(value, after + (tail + rest), depth);
        NeutralSkip(before, Render(value) + (after + (tail + rest)), depth);
        Regroup(before + Render(value) + after, tail, rest);
        Regroup(before + Render(value), after, tail + rest);
        Regroup(before, Render(value), after + (tail + rest));
    }
  }

  lemma {:induction false} MoreItemsSkip(x: Items, rest: bytes, depth: nat)
    requires ValidItems(x) && rest != [] && depth > 0
    ensures ValueLength(MoreItems(x) + rest, depth) == |MoreItems(x)| + ValueLength(rest, depth)
    decreases x, 2
  {
    if x.NoItems? {
      assert MoreItems(x) + rest == rest;
    } else {
      ItemsSkip(x, rest, depth);
      OneSkip(COMMA, RenderItems(x) + rest, depth);
      var comma: bytes := [COMMA];
      Regroup(comma, RenderItems(x), rest);
    }
  }

  lemma {:induction false} MembersSkip(x: Members, rest: bytes, depth: nat)
    requires ValidMembers(x) && rest != [] && depth > 0
    ensures ValueLength(RenderMembers(x) + rest, depth) == |RenderMembers(x)| + ValueLength(rest, depth)
    decreases x, 1
  {
    match x {
      case NoMembers(last) => NeutralSkip(last, rest, depth);
      case Members(before, key, beforeColon, afterColon, value, after, more) =>
        var t5 := MoreMembers(more) + rest;
        var t4 := after + t5;
        var t3 := Render(value) + t4;
        var colon: bytes := [COLON];
        var t2 := beforeColon + (colon + (afterColon + t3));
        MoreMembersSkip(more, rest, depth);
        NeutralSkip(after, t5, depth);
        ValueSkip(value, t4, depth);
        NeutralSkip(afterColon, t3, depth);
        NeutralSkip(colon, afterColon + t3, depth);
        NeutralSkip(beforeColon, colon + (afterColon + t3), depth);
        TextSkip(key, t2, depth);
        NeutralSkip(before, RenderString(key) + t2, depth);
        MemberParts(x, rest);
    }
  }

  lemma {:induction false} MoreMembersSkip(x: Members, rest: bytes, depth: nat)
    requires ValidMembers(x) && rest != [] && depth > 0
    ensures ValueLength(MoreMembers(x) + rest, depth) == |MoreMembers(x)| + ValueLength(rest, depth)
    decreases x, 2
  {
    if x.NoMembers? {
      assert MoreMembers(x) + rest == rest;
    } else {
      MembersSkip(x, rest, depth);
      OneSkip(COMMA, RenderMembers(x) + rest, depth);
      var comma: bytes := [COMMA];
      Regroup(comma, RenderMembers(x), rest);
    }
  }

  /** The members of an object, grouped to the right. */
  lemma MemberParts(x: Members, rest: bytes)
    requires x.Members?
    ensures RenderMembers(x) + rest ==
            x.before + (RenderString(x.key) +
                        (x.beforeColon + ([COLON] +
                                          (x.afterColon + (Render(x.value) +
                                                           (x.after + (MoreMembers(x.more) + rest)))))))
  {
    var colon: bytes := [COLON];
    var s, v, m := RenderString(x.key), Render(x.value), MoreMembers(x.more);
    Regroup(x.before + s + x.beforeColon + colon + x.afterColon + v + x.after, m, rest);
    Regroup(x.before + s + x.beforeColon + colon + x.afterColon + v, x.after, m + rest);
    Regroup(x.before + s + x.beforeColon + colon + x.afterColon, v, x.after + (m + rest));
    Regroup(x.before + s + x.beforeColon + colon, x.afterColon, v + (x.after + (m + rest)));
    Regroup(x.before + s + x.beforeColon, colon, x.afterColon + (v + (x.after + (m + rest))));
    Regroup(x.before + s, x.beforeColon, colon + (x.afterColon + (v + (x.after + (m + rest)))));
    Regroup(x.before, s, x.beforeColon + (colon + (x.afterColon + (v + (x.after + (m + rest))))));
  }

  // ---- keys ---------------------------------------------------------------------------------------

  /** The character a key element stands for; a byte or code outside ASCII stands for itself. */
  function CodeOf(x: Char): int {
    match x
    case Plain(c) => c
    case Short(c) => ShortChar(c)
    case Unicode(h) => HexCode(h)
  }

  /** The key, unescaped, is this field name. */
  predicate KeyIs(key: seq<Char>, field: bytes) {
    |key| == |field| && forall i :: 0 <= i < |key| ==> CodeOf(key[i]) == field[i]
  }

  predicate AsciiName(field: bytes) {
    field != [] && forall i :: 0 <= i < |field| ==> 1 <= field[i] <= 127
  }

  lemma FrontOf(x: Char, rest: bytes, c: int)
    requires ValidChar(x) && 1 <= c <= 127
    ensures FrontChar(RenderChar(x) + rest).1 == |RenderChar(x)|
    ensures FrontChar(RenderChar(x) + rest).0 == c <==> CodeOf(x) == c
  {
    if x.Unicode? {
      var lead: bytes := [BACKSLASH, 0x75];
      Regroup(lead, x.h, rest);
      assert (lead + (x.h + rest))[2..6] == x.h;
    }
  }

  lemma {:induction false} KeyDecides(key: seq<Char>, field: bytes)
    requires ValidString(key) && forall i :: 0 <= i < |field| ==> 1 <= field[i] <= 127
    ensures KeyMatches(RenderChars(key), field) <==> KeyIs(key, field)
    decreases |key|
  {
    if key != [] {
      var rest := RenderChars(key[1..]);
      if field != [] {
        FrontOf(key[0], rest, field[0]);
        Drop(RenderChar(key[0]), rest);
        KeyDecides(key[1..], field[1..]);
        KeyIsCons(key, field);
      }
    }
  }

  lemma KeyIsCons(key: seq<Char>, field: bytes)
    requires key != [] && field != []
    ensures KeyIs(key, field) <==> CodeOf(key[0]) == field[0] && KeyIs(key[1..], field[1..])
  {
    if CodeOf(key[0]) == field[0] && KeyIs(key[1..], field[1..]) {
      forall i | 0 <= i < |key| ensures CodeOf(key[i]) == field[i] {
        if i > 0 {
          assert key[i] == key[1..][i - 1] && field[i] == field[1..][i - 1];
        }
      }
    }
  }

  // ---- the matched value --------------------------------------------------------------------------

  lemma {:induction false} TrimSpaces(t: bytes, ws: bytes)
    requires AllSpace(ws) && t != [] && !Space(t[|t| - 1])
    ensures Trim(t + ws) == t
    decreases |ws|
  {
    if ws == [] {
      assert t + ws == t;
    } else {
      TrimSpaces(t, ws[..|ws| - 1]);
      assert (t + ws)[..|t + ws| - 1] == t + ws[..|ws| - 1];
    }
  }

  /** A value neither begins nor ends with white space, and only an atom begins with a digit. */
  lemma ValueEdges(v: Value)
    requires ValidValue(v)
    ensures Render(v) != [] && !Space(Render(v)[0]) && !Space(Render(v)[|Render(v)| - 1])
    ensures !v.Atom? ==> !DigitByte(Render(v)[0])
  {}

  /** The field as a reader of the tree finds it: the first member of that name, if it is such an integer. */
  function Lookup(x: Members, field: bytes, min: int, max: int): Option<int> {
    match x
    case NoMembers(_) => None
    case Members(_, key, _, _, value, _, more) =>
      if KeyIs(key, field) then (if value.Atom? then ReadUint(value.spelling, min, max) else None)
      else Lookup(more, field, min, max)
  }

  lemma MatchedValue(v: Value, ws: bytes, min: int, max: int)
    requires ValidValue(v) && AllSpace(ws)
    ensures ReadUint(Trim(Render(v) + ws), min, max) == if v.Atom? then ReadUint(v.spelling, min, max) else None
  {
    ValueEdges(v);
    TrimSpaces(Render(v), ws);
  }

  // ---- the whole object ---------------------------------------------------------------------------

  lemma AfterSpaces(ws: bytes, c: byte, rest: bytes)
    requires AllSpace(ws) && !Space(c)
    ensures After(ws + ([c] + rest), c) == Some(rest)
  {
    SpacesSkip(ws, [c] + rest);
    Drop(ws, [c] + rest);
    assert ([c] + rest)[1..] == rest;
  }

  /** The key and the colon of a member are read, and the value is at the front. */
  lemma ReadsKey(before: bytes, key: seq<Char>, beforeColon: bytes, afterColon: bytes, v: bytes)
    requires AllSpace(before) && ValidString(key) && AllSpace(beforeColon) && AllSpace(afterColon) && v != [] &&
             !Space(v[0])
    ensures ReadKey(before + (RenderString(key) + (beforeColon + ([COLON] + (afterColon + v))))) ==
            Some(Keyed(RenderChars(key), v))
  {
    var w := afterColon + v;
    var tail := beforeColon + ([COLON] + w);
    var s := RenderString(key);
    SpacesSkip(before, s + tail);
    Drop(before, s + tail);
    StringSkip(key, tail);
    Drop(s, tail);
    Between(key, tail);
    AfterSpaces(beforeColon, COLON, w);
    SpacesSkip(afterColon, v);
    Drop(afterColon, v);
  }

  lemma Between(key: seq<Char>, tail: bytes)
    ensures (RenderString(key) + tail)[1..|RenderString(key)| - 1] == RenderChars(key)
  {}

  /** How far the value at the front reaches: to the comma or the brace behind its white space. */
  lemma ReachesEnd(v: Value, ws: bytes, end: bytes)
    requires ValidValue(v) && AllSpace(ws) && end != [] && (end[0] == COMMA || end[0] == 0x7d)
    ensures var t := Render(v) + (ws + end);
            var e := ValueLength(t, 0);
            e == |Render(v)| + |ws| < |t| && t[..e] == Render(v) + ws && t[e] == end[0] && t[e + 1..] == end[1..]
  {
    NeutralSkip(ws, end, 0);
    ValueSkip(v, ws + end, 0);
    var t := Render(v) + (ws + end);
    Regroup(Render(v), ws, end);
    Drop(Render(v) + ws, end);
    assert t[|Render(v) + ws|..][0] == end[0];
    assert t[|Render(v)| + |ws| + 1..] == t[|Render(v)| + |ws|..][1..];
  }

  /** What stands behind a member: the brace, or a comma and the next member. */
  lemma EndOf(more: Members, rest: bytes)
    requires rest != [] && rest[0] == 0x7d
    ensures var end := MoreMembers(more) + rest;
            && end != [] && (end[0] == COMMA <==> more.Members?) && (end[0] == 0x7d <==> more.NoMembers?)
            && (more.Members? ==> end[1..] == RenderMembers(more) + rest)
  {
    if more.NoMembers? {
      assert MoreMembers(more) + rest == rest;
    } else {
      var comma: bytes := [COMMA];
      Regroup(comma, RenderMembers(more), rest);
    }
  }

  lemma DecideAgrees(x: Members, v: bytes, e: nat, end: bytes, field: bytes, min: int, max: int)
    requires x.Members? && ValidMembers(x) && AsciiName(field) && e < |v| && end != []
    requires v[..e] == Render(x.value) + x.after && v[e] == end[0] && v[e + 1..] == end[1..]
    ensures Decide(Keyed(RenderChars(x.key), v), e, field, min, max) ==
            if KeyIs(x.key, field) then Answer(if x.value.Atom? then ReadUint(x.value.spelling, min, max) else None)
            else if end[0] == COMMA then Next(end[1..]) else Answer(None)
  {
    KeyDecides(x.key, field);
    MatchedValue(x.value, x.after, min, max);
  }

  lemma Decides(t: bytes, k: Keyed, e: nat, field: bytes, min: int, max: int)
    requires ReadKey(t) == Some(k) && e == ValueLength(k.value, 0) < |k.value|
    ensures ScanMember(t, field, min, max) == Decide(k, e, field, min, max)
  {}

  /** The member after its key and colon. */
  lemma MemberStep(t: bytes, x: Members, end: bytes, field: bytes, min: int, max: int)
    requires x.Members? && ValidMembers(x) && AsciiName(field) && end != [] && (end[0] == COMMA || end[0] == 0x7d)
    requires ReadKey(t) == Some(Keyed(RenderChars(x.key), Render(x.value) + (x.after + end)))
    ensures ScanMember(t, field, min, max) ==
            if KeyIs(x.key, field) then Answer(if x.value.Atom? then ReadUint(x.value.spelling, min, max) else None)
            else if end[0] == COMMA then Next(end[1..]) else Answer(None)
  {
    var v := Render(x.value) + (x.after + end);
    var e := ValueLength(v, 0);
    ReachesEnd(x.value, x.after, end);
    Decides(t, Keyed(RenderChars(x.key), v), e, field, min, max);
    DecideAgrees(x, v, e, end, field, min, max);
  }

  lemma MemberAgrees(x: Members, rest: bytes, field: bytes, min: int, max: int)
    requires x.Members? && ValidMembers(x) && AsciiName(field) && rest != [] && rest[0] == 0x7d
    ensures ScanMember(RenderMembers(x) + rest, field, min, max) ==
            if KeyIs(x.key, field) then Answer(if x.value.Atom? then ReadUint(x.value.spelling, min, max) else None)
            else if x.more.Members? then Next(RenderMembers(x.more) + rest) else Answer(None)
  {
    var end := MoreMembers(x.more) + rest;
    var v := Render(x.value) + (x.after + end);
    EndOf(x.more, rest);
    ValueEdges(x.value);
    ReadsKey(x.before, x.key, x.beforeColon, x.afterColon, v);
    MemberParts(x, rest);
    MemberStep(RenderMembers(x) + rest, x, end, field, min, max);
  }

  lemma NoMemberLeft(last: bytes, rest: bytes, field: bytes, min: int, max: int)
    requires AllSpace(last) && rest != [] && rest[0] == 0x7d
    ensures ScanMembers(last + rest, field, min, max) == None
  {
    SpacesSkip(last, rest);
    Drop(last, rest);
  }

  lemma {:induction false} MembersAgree(x: Members, rest: bytes, field: bytes, min: int, max: int)
    requires ValidMembers(x) && AsciiName(field) && rest != [] && rest[0] == 0x7d
    ensures ScanMembers(RenderMembers(x) + rest, field, min, max) == Lookup(x, field, min, max)
    decreases x
  {
    if x.NoMembers? {
      NoMemberLeft(x.last, rest, field, min, max);
    } else {
      MemberAgrees(x, rest, field, min, max);
      if x.more.Members? {
        MembersAgree(x.more, rest, field, min, max);
      }
    }
  }

  /**
   On every JSON object the scanner succeeds exactly when the named member is an unsigned decimal integer in
   range, and then returns it; white space, nesting and escapes make no difference.
   */
  lemma ScannerAgrees(lead: bytes, x: Members, tail: bytes, field: bytes, min: int, max: int)
    requires AllSpace(lead) && ValidMembers(x) && AsciiName(field) && min <= max
    ensures ScanField(lead + (Render(Object(x)) + tail), field, min, max) == Lookup(x, field, min, max)
  {
    var open: bytes, close: bytes := [0x7b], [0x7d];
    var inner := RenderMembers(x);
    Regroup(open + inner, close, tail);
    Regroup(open, inner, close + tail);
    AfterSpaces(lead, 0x7b, inner + (close + tail));
    MembersAgree(x, close + tail, field, min, max);
  }
}
