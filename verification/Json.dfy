/** JSON texts as RFC 8259 writes them: a tree of values together with its spelling, white space included. */
module Json {
  import opened Bytes

  const QUOTE: byte := 0x22
  const BACKSLASH: byte := 0x5c
  const COMMA: byte := 0x2c
  const COLON: byte := 0x3a

  type bytes = seq<byte>

  predicate Space(c: byte) {
    c == 0x20 || c == 0x09 || c == 0x0d || c == 0x0a
  }

  predicate AllSpace(s: bytes) {
    forall i :: 0 <= i < |s| ==> Space(s[i])
  }

  predicate DigitByte(c: byte) {
    0x30 <= c <= 0x39
  }

  predicate HexByte(c: byte) {
    DigitByte(c) || 0x61 <= c <= 0x66 || 0x41 <= c <= 0x46
  }

  /** One element of a string: an unescaped byte, a short escape, or a \\u escape. */
  datatype Char = Plain(c: byte) | Short(letter: byte) | Unicode(h: bytes)

  predicate ValidChar(x: Char) {
    match x
    case Plain(c) => c >= 0x20 && c != QUOTE && c != BACKSLASH
    case Short(c) => c in {QUOTE, BACKSLASH, 0x2f, 0x62, 0x66, 0x6e, 0x72, 0x74}
    case Unicode(h) => |h| == 4 && forall i :: 0 <= i < 4 ==> HexByte(h[i])
  }

  function RenderChar(x: Char): bytes {
    match x
    case Plain(c) => [c]
    case Short(c) => [BACKSLASH, c]
    case Unicode(h) => [BACKSLASH, 0x75] + h
  }

  function RenderChars(s: seq<Char>): bytes {
    if s == [] then [] else RenderChar(s[0]) + RenderChars(s[1..])
  }

  function RenderString(s: seq<Char>): bytes {
    [QUOTE] + RenderChars(s) + [QUOTE]
  }

  predicate ValidString(s: seq<Char>) {
    forall i :: 0 <= i < |s| ==> ValidChar(s[i])
  }

  /** `Atom` is a number or one of the words true, false and null, spelt as it stands. */
  datatype Value =
    | Text(chars: seq<Char>)
    | Atom(spelling: bytes)
    | Array(items: Items)
    | Object(members: Members)

  /** Each item and member carries the white space around its parts; `last` is that of an empty bracket. */
  datatype Items = NoItems(last: bytes) | Items(before: bytes, value: Value, after: bytes, more: Items)

  datatype Members = NoMembers(last: bytes)
                   | Members(before: bytes, key: seq<Char>, beforeColon: bytes, afterColon: bytes, value: Value,
                             after: bytes, more: Members)

  /** The bytes that can occur in numbers and words. */
  predicate AtomByte(c: byte) {
    DigitByte(c) || 0x61 <= c <= 0x7a || c in {0x2d, 0x2b, 0x2e, 0x45}
  }

  predicate ValidAtom(s: bytes) {
    s != [] && forall i :: 0 <= i < |s| ==> AtomByte(s[i])
  }

  predicate ValidValue(v: Value) {
    match v
    case Text(chars) => ValidString(chars)
    case Atom(spelling) => ValidAtom(spelling)
    case Array(items) => ValidItems(items)
    case Object(members) => ValidMembers(members)
  }

  predicate ValidItems(x: Items) {
    match x
    case NoItems(last) => AllSpace(last)
    case Items(before, value, after, more) =>
      AllSpace(before) && ValidValue(value) && AllSpace(after) && ValidItems(more)
  }

  predicate ValidMembers(x: Members) {
    match x
    case NoMembers(last) => AllSpace(last)
    case Members(before, key, beforeColon, afterColon, value, after, more) =>
      && AllSpace(before) && ValidString(key) && AllSpace(beforeColon) && AllSpace(afterColon) && ValidValue(value) &&
         AllSpace(after)
      && ValidMembers(more)
  }

  function Render(v: Value): bytes
    decreases v, 0
  {
    match v
    case Text(chars) => RenderString(chars)
    case Atom(spelling) => spelling
    case Array(items) => [0x5b] + RenderItems(items) + [0x5d]
    case Object(members) => [0x7b] + RenderMembers(members) + [0x7d]
  }

  function RenderItems(x: Items): bytes
    decreases x, 0
  {
    match x
    case NoItems(last) => last
    case Items(before, value, after, more) => before + Render(value) + after + MoreItems(more)
  }

  /** A comma stands before every item but the first. */
  function MoreItems(x: Items): bytes
    decreases x, 1
  {
    if x.NoItems? then [] else [COMMA] + RenderItems(x)
  }

  function RenderMembers(x: Members): bytes
    decreases x, 0
  {
    match x
    case NoMembers(last) => last
    case Members(before, key, beforeColon, afterColon, value, after, more) =>
      before + RenderString(key) + beforeColon + [COLON] + afterColon + Render(value) + after + MoreMembers(more)
  }

  function MoreMembers(x: Members): bytes
    decreases x, 1
  {
    if x.NoMembers? then [] else [COMMA] + RenderMembers(x)
  }
}
