// Byte buffers and the numbers written in them, most significant byte first.
module ByteRuns {

  type byte = x: int | 0 <= x < 256

  type Bytes = seq<byte>

  /** The n bytes at p, most significant first. */
  function Number(buf: Bytes, p: nat, n: nat): nat
    requires p + n <= |buf|
  {
    if n == 0 then 0 else Number(buf, p, n - 1) * 256 + buf[p + n - 1]
  }

  /** The n low bytes of x, most significant first. */
  function Put(x: nat, n: nat): (b: Bytes)
    ensures |b| == n
  {
    if n == 0 then [] else Put(x / 256, n - 1) + [x % 256]
  }

  /** A first byte, with k bytes of room after it. */
  function Scaled(b: nat, k: nat): nat {
    if k == 0 then b else 256 * Scaled(b, k - 1)
  }

  /** At p the buffer spells s. */
  ghost predicate Spells(buf: Bytes, p: nat, s: Bytes) {
    p + |s| <= |buf| && forall i :: 0 <= i < |s| ==> Same(buf, p, s, i)
  }

  ghost predicate Same(buf: Bytes, p: nat, s: Bytes, i: int)
    requires 0 <= i < |s| && p + |s| <= |buf|
  {
    buf[p + i] == s[i]
  }

  lemma {:induction false} SpellsParts(buf: Bytes, p: nat, a: Bytes, b: Bytes)
    requires Spells(buf, p, a + b)
    ensures Spells(buf, p, a) && Spells(buf, p + |a|, b)
  {
    var q := p + |a|;
    forall i | 0 <= i < |a| ensures Same(buf, p, a, i) {
      assert Same(buf, p, a + b, i);
    }
    forall i | 0 <= i < |b| ensures Same(buf, q, b, i) {
      assert Same(buf, p, a + b, |a| + i);
    }
  }

  lemma {:induction false} NumberPut(buf: Bytes, p: nat, x: nat, n: nat)
    requires 1 <= n && Spells(buf, p, Put(x, n)) && x < Scaled(256, n - 1)
    ensures Number(buf, p, n) == x
  {
    assert Same(buf, p, Put(x, n), n - 1);
    if n > 1 {
      SpellsParts(buf, p, Put(x / 256, n - 1), [x % 256]);
      NumberPut(buf, p, x / 256, n - 1);
    } else {
      assert Number(buf, p, 0) == 0;
    }
  }

  lemma {:induction false} SpellsItself(buf: Bytes)
    ensures Spells(buf, 0, buf)
  {
    forall i | 0 <= i < |buf| ensures Same(buf, 0, buf, i) {
    }
  }
}
