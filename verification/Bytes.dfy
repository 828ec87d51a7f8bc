/** Big-endian unsigned integers, as every wire format here uses them. */
module Bytes {

  type byte = x: int | 0 <= x < 256

  function Power(width: nat): nat {
    if width == 0 then 1 else 256 * Power(width - 1)
  }

  /** The low `width` bytes of `n`, most significant first. */
  function Put(n: nat, width: nat): (s: seq<byte>)
    ensures |s| == width
  {
    if width == 0 then [] else Put(n / 256, width - 1) + [n % 256]
  }

  function Get(s: seq<byte>): nat {
    if s == [] then 0 else 256 * Get(s[..|s| - 1]) + s[|s| - 1]
  }

  lemma {:induction false} GetPut(n: nat, width: nat)
    requires n < Power(width)
    ensures Get(Put(n, width)) == n
    decreases width
  {
    if width > 0 {
      GetPut(n / 256, width - 1);
      assert Put(n, width)[..width - 1] == Put(n / 256, width - 1);
    }
  }

  lemma {:induction false} PutGet(s: seq<byte>)
    ensures Get(s) < Power(|s|) && Put(Get(s), |s|) == s
    decreases |s|
  {
    if s != [] {
      PutGet(s[..|s| - 1]);
      assert s == s[..|s| - 1] + [s[|s| - 1]];
    }
  }

  lemma Powers()
    ensures Power(2) == 0x1_0000 && Power(4) == 0x1_0000_0000 && Power(8) == 0x1_0000_0000_0000_0000
  {
    assert Power(4) == 256 * 256 * Power(2);
    assert Power(8) == 256 * 256 * 256 * 256 * Power(4);
  }

  /** `m_u64` and the 32-bit reader: fold the bytes from the left. */
  method Read(v: seq<byte>) returns (n: nat)
    ensures n == Get(v)
  {
    n := 0;
    for i := 0 to |v|
      invariant n == Get(v[..i])
    {
      assert v[..i + 1][..i] == v[..i];
      n := 256 * n + v[i];
    }
    assert v[..|v|] == v;
  }

  /** `m_put64`: write from the last byte backwards, shifting the number down. */
  method Write(v: array<byte>, at: nat, n: nat, width: nat)
    requires at + width <= v.Length
    modifies v
    ensures v[at..at + width] == Put(n, width)
    ensures v[..at] == old(v[..at]) && v[at + width..] == old(v[at + width..])
  {
    var rest := n;
    for i := 0 to width
      invariant forall j :: 0 <= j < v.Length && !(at + width - i <= j < at + width) ==> v[j] == old(v[j])
      invariant Put(rest, width - i) + v[at + width - i..at + width] == Put(n, width)
    {
      ghost var before := v[at + width - i..at + width];
      v[at + width - 1 - i] := rest % 256;
      assert v[at + width - i - 1..at + width] == [rest % 256] + before;
      assert Put(rest, width - i) == Put(rest / 256, width - i - 1) + [rest % 256];
      rest := rest / 256;
    }
    assert v[at..at + width] == Put(n, width);
  }
}
