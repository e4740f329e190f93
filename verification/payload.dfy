/**
 * The node's own uplink payload: the counter packed as a 4-byte big-endian
 * unsigned integer (`struct.pack(">I", v)`), and the inverse a receiver
 * applies. The counter is an unbounded integer; the packing wraps it.
 */
module BigEndian {
  import opened Bytes

  const Two32: int := 0x1_0000_0000

  /**
   * MicroPython's `struct.pack(">I", n)`: four bytes, most significant first.
   * There is no range check; the low 32 bits of `n` are kept.
   */
  function PackU32(n: int): (r: seq<Byte>)
    ensures |r| == 4
  {
    var n1 := n / 256;
    var n2 := n1 / 256;
    [(n2 / 256) % 256, n2 % 256, n1 % 256, n % 256]
  }

  /** `struct.unpack(">I", b)[0]` for four bytes `b`. */
  function UnpackU32(b: seq<Byte>): (n: int)
    requires |b| == 4
    ensures 0 <= n < Two32
  {
    ((b[0] as int * 256 + b[1]) * 256 + b[2]) * 256 + b[3]
  }

  /** Unpacking the packed counter gives the counter modulo 2^32: back unchanged in 0..2^32 - 1. */
  lemma UnpackPack(n: int)
    ensures UnpackU32(PackU32(n)) == n % Two32
    ensures 0 <= n < Two32 ==> UnpackU32(PackU32(n)) == n
  {
    var n1 := n / 256;
    var n2 := n1 / 256;
    var n3 := n2 / 256;
    assert n == n1 * 256 + n % 256;
    assert n1 == n2 * 256 + n1 % 256;
    assert n2 == n3 * 256 + n2 % 256;
    assert n3 == (n3 / 256) * 256 + n3 % 256;
    var low := ((n3 % 256 * 256 + n2 % 256) * 256 + n1 % 256) * 256 + n % 256;
    assert n == (n3 / 256) * Two32 + low;
    assert 0 <= low < Two32;
  }

  /** Every four-byte string is the packing of exactly one counter in 0..2^32 - 1, its unpacking. */
  lemma PackUnpack(b: seq<Byte>)
    requires |b| == 4
    ensures PackU32(UnpackU32(b)) == b
  {
    var hi := b[0] as int * 256 + b[1];
    var mid := hi * 256 + b[2];
    var n := mid * 256 + b[3];
    assert n / 256 == mid && n % 256 == b[3];
    assert mid / 256 == hi && mid % 256 == b[2];
    assert hi / 256 == b[0] && hi % 256 == b[1];
    assert b == [b[0], b[1], b[2], b[3]];
  }

  /**
   * The payload depends only on the counter modulo 2^32: after 2^32 firings
   * the node sends `00 00 00 00` again and the payloads repeat.
   */
  lemma PackWraps(n: int)
    ensures PackU32(n) == PackU32(n % Two32)
    ensures PackU32(n + Two32) == PackU32(n)
  {
    PackMod(n);
    PackMod(n + Two32);
    AddPeriod(n);
  }

  lemma AddPeriod(n: int)
    ensures (n + Two32) % Two32 == n % Two32
  {
    var m := n % Two32;
    assert n == (n / Two32) * Two32 + m;
    assert n + Two32 == (n / Two32 + 1) * Two32 + m;
  }

  lemma PackMod(n: int)
    ensures PackU32(n) == PackU32(n % Two32)
  {
    var p := PackU32(n);
    UnpackPack(n);
    PackUnpack(p);
    assert UnpackU32(p) == n % Two32;
  }

  /** Big-endian packing preserves order: a larger counter has a lexicographically larger packing. */
  lemma PackMonotonic(m: int, n: int)
    requires 0 <= m < n < Two32
    ensures var p, q := PackU32(m), PackU32(n);
            exists k :: 0 <= k < 4 && p[..k] == q[..k] && p[k] < q[k]
  {
    var p, q := PackU32(m), PackU32(n);
    UnpackPack(m);
    UnpackPack(n);
    if p[0] == q[0] {
      if p[1] == q[1] {
        if p[2] == q[2] {
          assert p[..3] == q[..3] && p[3] < q[3];
        } else {
          assert p[..2] == q[..2] && p[2] < q[2];
        }
      } else {
        assert p[..1] == q[..1] && p[1] < q[1];
      }
    } else {
      assert p[..0] == q[..0] && p[0] < q[0];
    }
  }
}
