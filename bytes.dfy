/** Bytes and the big-endian integer fields of the TLS wire format. */
module Bytes {

  newtype byte = x: int | 0 <= x < 256

  type Bytes = seq<byte>

  /** 256 to the power n: the number of values an n-byte field can hold. */
  function Pow256(n: nat): (r: nat)
    ensures r > 0
  {
    if n == 0 then 1 else 256 * Pow256(n - 1)
  }

  /** The big-endian unsigned value of a byte string. */
  function BytesToInt(b: Bytes): (r: nat)
    ensures r < Pow256(|b|)
  {
    if b == [] then 0
    else
      var high := BytesToInt(b[..|b| - 1]);
      LastDigitBound(high, b[|b| - 1] as nat, Pow256(|b| - 1));
      high * 256 + b[|b| - 1] as nat
  }

  lemma LastDigitBound(high: nat, digit: nat, bound: nat)
    requires high < bound && digit < 256
    ensures high * 256 + digit < 256 * bound
  {
  }

  /** A length or integer field of `width` bytes, most significant byte first.
      Only the low `width` bytes of `value` are kept, as `ArrayConverter.intToBytes`
      and `ModifiableInteger.getByteArray` do. */
  function IntToBytes(value: nat, width: nat): (r: Bytes)
    ensures |r| == width
  {
    if width == 0 then [] else IntToBytes(value / 256, width - 1) + [(value % 256) as byte]
  }

  /** Reading a field back yields the written value modulo the field's range. */
  lemma {:induction false} BytesToIntOfIntToBytes(value: nat, width: nat)
    ensures BytesToInt(IntToBytes(value, width)) == value % Pow256(width)
  {
    if width > 0 {
      var b := IntToBytes(value, width);
      assert b[..width - 1] == IntToBytes(value / 256, width - 1);
      BytesToIntOfIntToBytes(value / 256, width - 1);
      ModOfProduct(value, Pow256(width - 1));
    }
  }

  lemma ModOfProduct(v: nat, p: nat)
    requires p > 0
    ensures v % (256 * p) == ((v / 256) % p) * 256 + v % 256
  {
    var q, r := v / 256, v % 256;
    var qq, qr := q / p, q % p;
    assert q == p * qq + qr;
    calc {
      v;
      256 * q + r;
      256 * (p * qq + qr) + r;
      { assert 256 * (p * qq + qr) == (256 * p) * qq + 256 * qr; }
      (256 * p) * qq + (qr * 256 + r);
    }
    assert qr * 256 + r < 256 * p by {
      assert qr <= p - 1;
      assert qr * 256 <= (p - 1) * 256;
    }
    ModUnique(v, 256 * p, qq, qr * 256 + r);
  }

  lemma ModUnique(v: nat, m: nat, k: nat, t: nat)
    requires m > 0 && t < m && v == m * k + t
    ensures v % m == t
  {
    var k', t' := v / m, v % m;
    assert v == m * k' + t';
    if k' > k {
      assert m * k' >= m * (k + 1) by { MulMonotone(m, k + 1, k'); }
      assert false;
    } else if k' < k {
      assert m * k >= m * (k' + 1) by { MulMonotone(m, k' + 1, k); }
      assert false;
    }
  }

  lemma MulMonotone(m: nat, a: nat, b: nat)
    requires a <= b
    ensures m * a <= m * b
  {
  }

  /** A value that fits in the field is written exactly. */
  lemma IntToBytesExact(value: nat, width: nat)
    requires value < Pow256(width)
    ensures BytesToInt(IntToBytes(value, width)) == value
  {
    BytesToIntOfIntToBytes(value, width);
  }

  /** Distinct values that fit in the field get distinct encodings. */
  lemma IntToBytesInjective(a: nat, b: nat, width: nat)
    requires a < Pow256(width) && b < Pow256(width)
    requires IntToBytes(a, width) == IntToBytes(b, width)
    ensures a == b
  {
    IntToBytesExact(a, width);
    IntToBytesExact(b, width);
  }

  /** The byte Java keeps for `ByteArrayOutputStream.write(int)`: the low 8 bits. */
  function LowByte(value: nat): byte
  {
    (value % 256) as byte
  }
}
