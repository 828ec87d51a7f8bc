/**
 The exact unsigned field scanner (`ob_json_uint_field` in sdk/c/remote/ob_json.c). It walks the text once
 without building a tree; here each helper is first a function of the remaining bytes.
 */
module JsonScan {
  import opened Bytes
  import opened Json

  const MAX_U64: int := 0xffff_ffff_ffff_ffff

  datatype Option<+T> = None | Some(value: T)

  // ---- the scanner as functions of what remains ---------------------------------------------------

  /** How many bytes of white space come first. */
  function Spaces(t: bytes): (n: nat)
    ensures n <= |t|
  {
    if t == [] || !Space(t[0]) then 0 else 1 + Spaces(t[1..])
  }

  /** The rest of a string including its closing quote, or everything when there is none. */
  function StringRest(t: bytes): (n: nat)
    ensures n <= |t| && (t != [] ==> n >= 1)
  {
    if t == [] then 0
    else if t[0] == QUOTE then 1
    else if t[0] == BACKSLASH then (if |t| < 2 then |t| else 2 + StringRest(t[2..]))
    else 1 + StringRest(t[1..])
  }

  /** `string_end`, for text that begins with a quote. */
  function StringLength(t: bytes): (n: nat)
    ensures n <= |t|
  {
    if t == [] || t[0] != QUOTE then |t| else 1 + StringRest(t[1..])
  }

  /** `value_end`: up to the comma or bracket that ends a value at this depth, or everything. */
  function ValueLength(t: bytes, depth: nat): (n: nat)
    ensures n <= |t|
    decreases |t|
  {
    if t == [] then 0
    else
      var c := t[0];
      if c == QUOTE then
        var n := StringLength(t);
        if n == |t| then |t| else n + ValueLength(t[n..], depth)
      else if c == 0x7b || c == 0x5b then 1 + ValueLength(t[1..], depth + 1)
      else if c == 0x7d || c == 0x5d then (if depth == 0 then 0 else 1 + ValueLength(t[1..], depth - 1))
      else if c == COMMA && depth == 0 then 0
      else 1 + ValueLength(t[1..], depth)
  }

  /** `hex_digit`. */
  function HexValue(c: byte): int {
    if DigitByte(c) then c as int - 0x30
    else if 0x61 <= c <= 0x66 then c as int - 0x61 + 10
    else if 0x41 <= c <= 0x46 then c as int - 0x41 + 10
    else -1
  }

  function HexCode(h: bytes): int {
    if h == [] then 0
    else
      var before, d := HexCode(h[..|h| - 1]), HexValue(h[|h| - 1]);
      if before < 0 || d < 0 then -1 else before * 16 + d
  }

  /** The character at the front of a key, as far as ASCII goes, and its length; 0 for no match. */
  function FrontChar(t: bytes): (r: (int, nat))
    requires t != []
    ensures 1 <= r.1 <= |t|
  {
    if t[0] != BACKSLASH then (t[0], 1)
    else if |t| < 2 then (0, |t|)
    else if t[1] == 0x75 then
      (if |t| < 6 then (0, |t|)
       else
         var code := HexCode(t[2..6]);
         (if code <= 0 || code > 127 then 0 else code, 6))
    else (ShortChar(t[1]), 2)
  }

  function ShortChar(c: byte): int {
    if c == 0x62 then 0x08
    else if c == 0x66 then 0x0c
    else if c == 0x6e then 0x0a
    else if c == 0x72 then 0x0d
    else if c == 0x74 then 0x09
    else if c == QUOTE || c == BACKSLASH || c == 0x2f then c
    else 0
  }

  /** `ascii_key_equal` on the bytes between the quotes. */
  predicate KeyMatches(t: bytes, field: bytes)
    decreases |t|
  {
    if t == [] then field == []
    else
      var (c, n) := FrontChar(t);
      c != 0 && field != [] && c == field[0] && KeyMatches(t[n..], field[1..])
  }

  function Decimal(t: bytes): int {
    if t == [] then 0 else 10 * Decimal(t[..|t| - 1]) + (t[|t| - 1] as int - 0x30)
  }

  predicate AllDigits(t: bytes) {
    forall i :: 0 <= i < |t| ==> DigitByte(t[i])
  }

  /** An unsigned decimal integer without a leading zero, in range and representable in 64 bits. */
  function ReadUint(t: bytes, min: int, max: int): Option<int> {
    if t == [] || (|t| > 1 && t[0] == 0x30) || !AllDigits(t) || Decimal(t) > MAX_U64 || Decimal(t) < min ||
      Decimal(t) > max then None
    else Some(Decimal(t))
  }

  /** A value without the white space behind it. */
  function Trim(t: bytes): bytes {
    if t == [] || !Space(t[|t| - 1]) then t else Trim(t[..|t| - 1])
  }

  /** What follows the white space and the expected byte, if it is there. */
  function After(t: bytes, c: byte): Option<bytes> {
    var u := t[Spaces(t)..];
    if u == [] || u[0] != c then None else Some(u[1..])
  }

  /** A key between its quotes, and the text from the value on. */
  datatype Keyed = Keyed(key: bytes, value: bytes)

  /** Read a key and the colon behind it. */
  function ReadKey(t: bytes): (r: Option<Keyed>)
    ensures r.Some? ==> |r.value.value| < |t|
  {
    var u := t[Spaces(t)..];
    if u == [] || u[0] != QUOTE || StringLength(u) >= |u| then None
    else
      var n := StringLength(u);
      match After(u[n..], COLON)
      case None => None
      case Some(w) => Some(Keyed(u[1..n - 1], w[Spaces(w)..]))
  }

  /** What one member decides: the answer, or where the next member begins. */
  datatype Decision = Answer(result: Option<int>) | Next(rest: bytes)

  /** A member whose value ends at `e`: answer for the wanted key, else go on behind a comma. */
  function Decide(k: Keyed, e: nat, field: bytes, min: int, max: int): Decision
    requires e < |k.value|
  {
    if KeyMatches(k.key, field) then Answer(ReadUint(Trim(k.value[..e]), min, max))
    else if k.value[e] != COMMA then Answer(None)
    else Next(k.value[e + 1..])
  }

  function ScanMember(t: bytes, field: bytes, min: int, max: int): (d: Decision)
    ensures d.Next? ==> |d.rest| < |t|
  {
    match ReadKey(t)
    case None => Answer(None)
    case Some(k) =>
      var e := ValueLength(k.value, 0);
      if e >= |k.value| then Answer(None) else Decide(k, e, field, min, max)
  }

  /** The members from here on. */
  function ScanMembers(t: bytes, field: bytes, min: int, max: int): Option<int>
    decreases |t|
  {
    match ScanMember(t, field, min, max)
    case Answer(result) => result
    case Next(rest) => ScanMembers(rest, field, min, max)
  }

  /** `ob_json_uint_field`. */
  function ScanField(t: bytes, field: bytes, min: int, max: int): Option<int> {
    if field == [] || min > max then None
    else
      match After(t, 0x7b)
      case None => None
      case Some(u) => ScanMembers(u, field, min, max)
  }
}
