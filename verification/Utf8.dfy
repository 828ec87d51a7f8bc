/**
 UTF-8 as in section 4 of RFC 3629, and the C client's check (sdk/c/oheco_broker.c), which decodes each
 character and compares its value instead of matching the octet ranges.
 */
module Utf8 {
  import opened Bytes

  predicate Tail(b: byte) {
    0x80 <= b <= 0xbf
  }

  /** The length of the well-formed character at the front, or 0: the grammar of section 4. */
  function CharLength(s: seq<byte>): (n: nat)
    ensures n <= |s|
  {
    if s == [] then 0
    else if s[0] <= 0x7f then 1
    else if 0xc2 <= s[0] <= 0xdf then (if |s| >= 2 && Tail(s[1]) then 2 else 0)
    else if 0xe0 <= s[0] <= 0xef then
      (if |s| >= 3 && Tail(s[2]) &&
          (if s[0] == 0xe0 then 0xa0 <= s[1] <= 0xbf else if s[0] == 0xed then 0x80 <= s[1] <= 0x9f else Tail(s[1]))
       then 3 else 0)
    else if 0xf0 <= s[0] <= 0xf4 then
      (if |s| >= 4 && Tail(s[2]) && Tail(s[3]) &&
          (if s[0] == 0xf0 then 0x90 <= s[1] <= 0xbf else if s[0] == 0xf4 then 0x80 <= s[1] <= 0x8f else Tail(s[1]))
       then 4 else 0)
    else 0
  }

  /** UTF8-octets: a sequence of well-formed characters. */
  predicate WellFormed(s: seq<byte>)
    decreases |s|
  {
    s == [] || (CharLength(s) > 0 && WellFormed(s[CharLength(s)..]))
  }

  /** The text that the protocol carries: well-formed and free of NUL. */
  predicate ValidText(s: seq<byte>) {
    WellFormed(s) && 0 !in s
  }

  // ---- how the C code reads a character -----------------------------------------------------------

  predicate Stores(m: bv8, b: int) {
    m as int == b
  }

  lemma Nibble(n: nat) returns (m: bv8)
    requires n < 16
    ensures Stores(m, n) && m < 16
  {
    m := n as bv8;
  }

  lemma Nibbles(high: bv8, low: bv8)
    requires high < 16 && low < 16
    ensures Stores((high << 4) | low, 16 * (high as int) + (low as int))
  {}

  lemma Representable(b: byte)
    ensures exists m :: Stores(m, b)
  {
    var high := Nibble(b / 16);
    var low := Nibble(b % 16);
    Nibbles(high, low);
    assert Stores((high << 4) | low, b);
  }

  /** An octet as the machine word the masks apply to. */
  function Octet(b: byte): (m: bv8)
    ensures m as int == b
  {
    Representable(b);
    var m :| Stores(m, b);
    m
  }

  predicate IsTail(m: bv8) {
    m & 0xc0 == 0x80
  }

  function Push(c: bv32, m: bv8): bv32 {
    (c << 6) | ((m as bv32) & 0x3f)
  }

  predicate Scalar(c: bv32, minimum: bv32) {
    minimum <= c <= 0x10ffff && !(0xd800 <= c <= 0xdfff)
  }

  /** A lead octet: how many tails follow, the least value they may give, and the payload bits. */
  datatype Lead = Reject | Follows(more: nat, minimum: bv32, bits: bv32)

  function LeadOf(m: bv8): Lead {
    if 0xc2 <= m <= 0xdf then Follows(1, 0x80, (m as bv32) & 0x1f)
    else if 0xe0 <= m <= 0xef then Follows(2, 0x800, (m as bv32) & 0x0f)
    else if 0xf0 <= m <= 0xf4 then Follows(3, 0x10000, (m as bv32) & 7)
    else Reject
  }

  /** The value of tail octets behind an initial value. */
  function Fold(c: bv32, tails: seq<byte>): bv32
    decreases |tails|
  {
    if tails == [] then c else Push(Fold(c, tails[..|tails| - 1]), Octet(tails[|tails| - 1]))
  }

  /** No two-octet value is out of range: the lead octets c0 and c1 are refused at once. */
  lemma TwoOctets(a: bv8, b: bv8)
    requires 0xc2 <= a <= 0xdf && IsTail(b)
    ensures Scalar(Push((a as bv32) & 0x1f, b), 0x80)
  {}

  /** Overlong forms and surrogates are what the range check refuses among three octets. */
  lemma ThreeOctets(a: bv8, b: bv8, c: bv8)
    requires 0xe0 <= a <= 0xef && IsTail(b) && IsTail(c)
    ensures Scalar(Push(Push((a as bv32) & 0x0f, b), c), 0x800) <==>
            if a == 0xe0 then 0xa0 <= b else a == 0xed ==> b <= 0x9f
  {}

  /** Overlong forms and values past U+10FFFF are what it refuses among four. */
  lemma FourOctets(a: bv8, b: bv8, c: bv8, d: bv8)
    requires 0xf0 <= a <= 0xf4 && IsTail(b) && IsTail(c) && IsTail(d)
    ensures Scalar(Push(Push(Push((a as bv32) & 7, b), c), d), 0x10000) <==>
            if a == 0xf0 then 0x90 <= b else a == 0xf4 ==> b <= 0x8f
  {}

  lemma TailOctet(b: byte, m: bv8)
    requires m as int == b
    ensures IsTail(m) <==> Tail(b)
    ensures (0xa0 <= m) <==> 0xa0 <= b
    ensures (0x90 <= m) <==> 0x90 <= b
    ensures (m <= 0x9f) <==> b <= 0x9f
    ensures (m <= 0x8f) <==> b <= 0x8f
  {
    assert IsTail(m) <==> 0x80 <= m <= 0xbf;
  }

  lemma LeadOctet(b: byte, m: bv8)
    requires m as int == b
    ensures (0xc2 <= m <= 0xdf) <==> 0xc2 <= b <= 0xdf
    ensures (0xe0 <= m <= 0xef) <==> 0xe0 <= b <= 0xef
    ensures (0xf0 <= m <= 0xf4) <==> 0xf0 <= b <= 0xf4
    ensures (m == 0xe0) <==> b == 0xe0
    ensures (m == 0xed) <==> b == 0xed
    ensures (m == 0xf0) <==> b == 0xf0
    ensures (m == 0xf4) <==> b == 0xf4
  {}

  /** What the C code makes of the octets behind a lead octet. */
  predicate Decodes(s: seq<byte>, l: Lead)
    requires l.Follows?
  {
    |s| > l.more && (forall i :: 1 <= i <= l.more ==> Tail(s[i])) && Scalar(Fold(l.bits, s[1..1 + l.more]), l.minimum)
  }

  lemma FoldLast(c: bv32, s: seq<byte>, k: nat)
    requires 1 <= k < |s|
    ensures Fold(c, s[1..1 + k]) == Push(Fold(c, s[1..k]), Octet(s[k]))
  {
    assert s[1..1 + k][..k - 1] == s[1..k];
  }

  lemma Decodes1(s: seq<byte>, m: bv8)
    requires s != [] && m as int == s[0] && 0xc2 <= m <= 0xdf
    ensures CharLength(s) == if Decodes(s, LeadOf(m)) then 2 else 0
  {
    LeadOctet(s[0], m);
    if |s| > 1 && Tail(s[1]) {
      FoldLast(LeadOf(m).bits, s, 1);
      TailOctet(s[1], Octet(s[1]));
      TwoOctets(m, Octet(s[1]));
    }
  }

  lemma Decodes2(s: seq<byte>, m: bv8)
    requires s != [] && m as int == s[0] && 0xe0 <= m <= 0xef
    ensures CharLength(s) == if Decodes(s, LeadOf(m)) then 3 else 0
  {
    LeadOctet(s[0], m);
    if |s| > 2 && Tail(s[1]) && Tail(s[2]) {
      FoldLast(LeadOf(m).bits, s, 1);
      FoldLast(LeadOf(m).bits, s, 2);
      TailOctet(s[1], Octet(s[1]));
      TailOctet(s[2], Octet(s[2]));
      ThreeOctets(m, Octet(s[1]), Octet(s[2]));
    }
  }

  lemma Decodes3(s: seq<byte>, m: bv8)
    requires s != [] && m as int == s[0] && 0xf0 <= m <= 0xf4
    ensures CharLength(s) == if Decodes(s, LeadOf(m)) then 4 else 0
  {
    LeadOctet(s[0], m);
    if |s| > 3 && Tail(s[1]) && Tail(s[2]) && Tail(s[3]) {
      FoldLast(LeadOf(m).bits, s, 1);
      FoldLast(LeadOf(m).bits, s, 2);
      FoldLast(LeadOf(m).bits, s, 3);
      TailOctet(s[1], Octet(s[1]));
      TailOctet(s[2], Octet(s[2]));
      TailOctet(s[3], Octet(s[3]));
      FourOctets(m, Octet(s[1]), Octet(s[2]), Octet(s[3]));
    }
  }

  /** Decoding and range-checking the value accepts exactly the octets of the grammar. */
  lemma ValueMatchesGrammar(s: seq<byte>)
    requires s != [] && s[0] >= 0x80
    ensures var l := LeadOf(Octet(s[0]));
            CharLength(s) == if l.Follows? && Decodes(s, l) then 1 + l.more else 0
  {
    var m := Octet(s[0]);
    LeadOctet(s[0], m);
    if 0xc2 <= m <= 0xdf {
      Decodes1(s, m);
    } else if 0xe0 <= m <= 0xef {
      Decodes2(s, m);
    } else if 0xf0 <= m <= 0xf4 {
      Decodes3(s, m);
    }
  }

  /** The body of the C loop behind a lead octet: the length of the character, or 0 to refuse. */
  method Multibyte(s: seq<byte>, i: nat) returns (n: nat)
    requires i < |s| && s[i] >= 0x80
    ensures n == CharLength(s[i..])
  {
    ghost var here := s[i..];
    ValueMatchesGrammar(here);
    var lead := LeadOf(Octet(s[i]));
    if lead.Reject? || |s| - i - 1 < lead.more {
      return 0;
    }
    var value, k := lead.bits, 0;
    while k < lead.more
      invariant 0 <= k <= lead.more && forall j :: 1 <= j <= k ==> Tail(here[j])
      invariant value == Fold(lead.bits, here[1..1 + k])
    {
      var m := Octet(s[i + 1 + k]);
      TailOctet(s[i + 1 + k], m);
      assert s[i + 1 + k] == here[1 + k];
      if !IsTail(m) {
        return 0;
      }
      FoldLast(lead.bits, here, 1 + k);
      value := Push(value, m);
      k := k + 1;
    }
    if !Scalar(value, lead.minimum) {
      return 0;
    }
    return 1 + lead.more;
  }

  /** A character that starts above ASCII holds no NUL. */
  lemma NoNul(s: seq<byte>)
    requires s != [] && s[0] >= 0x80
    ensures 0 !in s[..CharLength(s)]
  {}

  /** `utf8`: the C loop. */
  method Check(s: seq<byte>) returns (ok: bool)
    ensures ok <==> ValidText(s)
  {
    var i := 0;
    while i < |s|
      invariant 0 <= i <= |s| && 0 !in s[..i]
      invariant WellFormed(s) <==> WellFormed(s[i..])
    {
      ghost var here, before := s[i..], s[..i];
      if s[i] == 0 {
        return false;
      }
      var n := 1;
      if s[i] >= 0x80 {
        n := Multibyte(s, i);
        NoNul(here);
      }
      if n == 0 {
        return false;
      }
      i := i + n;
      assert here[n..] == s[i..] && s[..i] == before + here[..n];
    }
    assert s[..i] == s;
    return true;
  }
}
