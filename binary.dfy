/**
  Big-endian byte order as Go's `encoding/binary.BigEndian` writes and reads
  it, and Go's built-in `copy` on byte slices. The writers work in place on
  an array, as the IPFIX encoder uses them; the encoders and readers are the
  value-level view the writers are specified by.
 */
module Binary {
  import opened Base

  /** The two bytes `PutUint16` stores for `v`, most significant first. */
  function Be16(v: Uint16): (b: seq<Byte>)
    ensures |b| == 2 && b[0] as int * 0x100 + b[1] == v
  {
    [v / 0x100, v % 0x100]
  }

  /** The four bytes `PutUint32` stores for `v`, most significant first. */
  function Be32(v: Uint32): (b: seq<Byte>)
    ensures |b| == 4 && ((b[0] as int * 0x100 + b[1]) * 0x100 + b[2]) * 0x100 + b[3] == v
  {
    [v / 0x100_0000, v / 0x1_0000 % 0x100, v / 0x100 % 0x100, v % 0x100]
  }

  /** `BigEndian.Uint16(s[off:])`: re-encoding the value gives back the two bytes read. */
  function Uint16At(s: seq<Byte>, off: nat): (v: Uint16)
    requires off + 2 <= |s|
    ensures Be16(v) == s[off..off + 2]
  {
    s[off] as int * 0x100 + s[off + 1]
  }

  /** `BigEndian.Uint32(s[off:])`: re-encoding the value gives back the four bytes read. */
  function Uint32At(s: seq<Byte>, off: nat): (v: Uint32)
    requires off + 4 <= |s|
    ensures Be32(v) == s[off..off + 4]
  {
    ((s[off] as int * 0x100 + s[off + 1]) * 0x100 + s[off + 2]) * 0x100 + s[off + 3]
  }

  /** Reading back what was encoded gives the value that was encoded. */
  lemma Uint16AtBe16(s: seq<Byte>, off: nat, v: Uint16)
    requires off + 2 <= |s| && s[off..off + 2] == Be16(v)
    ensures Uint16At(s, off) == v
  {
    assert s[off] == Be16(v)[0] && s[off + 1] == Be16(v)[1];
  }

  lemma Uint32AtBe32(s: seq<Byte>, off: nat, v: Uint32)
    requires off + 4 <= |s| && s[off..off + 4] == Be32(v)
    ensures Uint32At(s, off) == v
  {
    assert s[off] == Be32(v)[0] && s[off + 1] == Be32(v)[1];
    assert s[off + 2] == Be32(v)[2] && s[off + 3] == Be32(v)[3];
  }

  /** `binary.BigEndian.PutUint16(b[off:], v)`: writes two bytes, leaves the rest. */
  method PutUint16(b: array<Byte>, off: nat, v: Uint16)
    requires off + 2 <= b.Length
    modifies b
    ensures b[..off + 2] == old(b[..off]) + Be16(v)
    ensures b[off + 2..] == old(b[off + 2..])
  {
    b[off] := v / 0x100;
    b[off + 1] := v % 0x100;
  }

  /** `binary.BigEndian.PutUint32(b[off:], v)`: writes four bytes, leaves the rest. */
  method PutUint32(b: array<Byte>, off: nat, v: Uint32)
    requires off + 4 <= b.Length
    modifies b
    ensures b[..off + 4] == old(b[..off]) + Be32(v)
    ensures b[off + 4..] == old(b[off + 4..])
  {
    b[off] := v / 0x100_0000;
    b[off + 1] := v / 0x1_0000 % 0x100;
    b[off + 2] := v / 0x100 % 0x100;
    b[off + 3] := v % 0x100;
  }

  function Min(a: int, b: int): int {
    if a <= b then a else b
  }

  /**
    Go's `copy(b[lo:hi], src)`: copies as many bytes as both the window and
    the source hold, returns that count and leaves every other byte alone.
   */
  method Copy(b: array<Byte>, lo: nat, hi: nat, src: seq<Byte>) returns (n: nat)
    requires lo <= hi <= b.Length
    modifies b
    ensures n == Min(hi - lo, |src|)
    ensures b[..lo + n] == old(b[..lo]) + src[..n]
    ensures b[lo + n..] == old(b[lo + n..])
  {
    n := Min(hi - lo, |src|);
    var i := 0;
    while i < n
      invariant 0 <= i <= n
      invariant b[..lo + i] == old(b[..lo]) + src[..i]
      invariant b[lo + i..] == old(b[lo + i..])
    {
      b[lo + i] := src[i];
      i := i + 1;
    }
  }

  /** `n` zero bytes, what `make([]byte, n)` holds. */
  function Zeros(n: nat): (z: seq<Byte>)
    ensures |z| == n && forall i | 0 <= i < n :: z[i] == 0
  {
    seq(n, _ => 0)
  }

  /**
    `copy` into a zeroed window of `w` bytes: the source's first bytes, then
    the zeros it did not overwrite.
   */
  lemma CopyIntoZeros(before: seq<Byte>, after: seq<Byte>, lo: nat, w: nat, n: nat, src: seq<Byte>)
    requires lo + w <= |before| == |after| && n == Min(w, |src|)
    requires forall i | lo <= i < lo + w :: before[i] == 0
    requires after[..lo + n] == before[..lo] + src[..n]
    requires after[lo + n..] == before[lo + n..]
    ensures after[..lo + w] == before[..lo] + src[..n] + Zeros(w - n)
    ensures after[lo + w..] == before[lo + w..]
  {
    assert after[lo + w..] == after[lo + n..][w - n..];
    assert before[lo + w..] == before[lo + n..][w - n..];
    forall i | lo + n <= i < lo + w
      ensures after[i] == 0
    {
      assert after[i] == after[lo + n..][i - (lo + n)];
    }
  }

  /** Reading inside a slice is reading the whole at the shifted offset. */
  lemma Uint16AtSlice(s: seq<Byte>, lo: nat, hi: nat, off: nat)
    requires lo <= hi <= |s| && off + 2 <= hi - lo
    ensures Uint16At(s[lo..hi], off) == Uint16At(s, lo + off)
  {
    assert s[lo..hi][off] == s[lo + off] && s[lo..hi][off + 1] == s[lo + off + 1];
  }

  lemma Uint32AtSlice(s: seq<Byte>, lo: nat, hi: nat, off: nat)
    requires lo <= hi <= |s| && off + 4 <= hi - lo
    ensures Uint32At(s[lo..hi], off) == Uint32At(s, lo + off)
  {
    assert s[lo..hi][off] == s[lo + off] && s[lo..hi][off + 1] == s[lo + off + 1];
    assert s[lo..hi][off + 2] == s[lo + off + 2] && s[lo..hi][off + 3] == s[lo + off + 3];
  }
}
