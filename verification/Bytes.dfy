/** Big-endian integers and UTF-8, for the binary readers. */
module ByteStrings {
  import opened Prelude

  function Pow256(k: nat): (p: nat)
    ensures p >= 1
  {
    if k == 0 then 1 else 256 * Pow256(k - 1)
  }

  /** int.from_bytes(bytes, "big"). */
  function FromBytes(bytes: seq<byte>): (n: nat)
    ensures n < Pow256(|bytes|)
  {
    if bytes == [] then 0 else 256 * FromBytes(bytes[..|bytes| - 1]) + bytes[|bytes| - 1]
  }

  /** The k-byte big-endian form of a number. */
  function ToBytes(n: nat, k: nat): (bytes: seq<byte>)
    requires n < Pow256(k)
    ensures |bytes| == k
  {
    if k == 0 then [] else ToBytes(n / 256, k - 1) + [n % 256]
  }

  lemma {:induction false} FromToBytes(n: nat, k: nat)
    requires n < Pow256(k)
    ensures FromBytes(ToBytes(n, k)) == n
    decreases k
  {
    if k > 0 {
      FromToBytes(n / 256, k - 1);
      var b := ToBytes(n, k);
      assert b[..|b| - 1] == ToBytes(n / 256, k - 1);
    }
  }

  lemma {:induction false} ToFromBytes(bytes: seq<byte>)
    ensures ToBytes(FromBytes(bytes), |bytes|) == bytes
    decreases |bytes|
  {
    if bytes != [] {
      ToFromBytes(bytes[..|bytes| - 1]);
      assert bytes == bytes[..|bytes| - 1] + [bytes[|bytes| - 1]];
    }
  }

  predicate Continuation(b: byte) {
    0x80 <= b < 0xC0
  }

  /** The length of the UTF-8 character at a place, or 0 if there is none (section 4 of RFC 3629). */
  function CharLength(s: seq<byte>, i: nat): (n: nat)
    ensures n > 0 ==> i + n <= |s|
  {
    if i >= |s| then 0
    else if s[i] < 0x80 then 1
    else if 0xC2 <= s[i] < 0xE0 && i + 2 <= |s| && Continuation(s[i + 1]) then 2
    else if 0xE0 <= s[i] < 0xF0 && i + 3 <= |s| && Continuation(s[i + 1]) && Continuation(s[i + 2])
            && (s[i] == 0xE0 ==> s[i + 1] >= 0xA0) && (s[i] == 0xED ==> s[i + 1] < 0xA0) then 3
    else if 0xF0 <= s[i] < 0xF5 && i + 4 <= |s|
            && Continuation(s[i + 1]) && Continuation(s[i + 2]) && Continuation(s[i + 3])
            && (s[i] == 0xF0 ==> s[i + 1] >= 0x90) && (s[i] == 0xF4 ==> s[i + 1] < 0x90) then 4
    else 0
  }

  predicate ValidFrom(s: seq<byte>, i: nat)
    decreases if i <= |s| then |s| - i else 0
  {
    i == |s| || (CharLength(s, i) > 0 && ValidFrom(s, i + CharLength(s, i)))
  }

  predicate ValidUtf8(s: seq<byte>) {
    ValidFrom(s, 0)
  }
}
