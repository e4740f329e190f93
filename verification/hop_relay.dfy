/**
 * The hop-relay rewrite and forward decision of the forwarder's raw-radio
 * receive handler (`_lora_cb`).
 *
 * A frame whose first byte is 64 has not been relayed yet. The first relay to
 * hear it prepends a hop marker `(level - 1) * 16 + level`; every later relay
 * subtracts 16 from the marker in place. A relay forwards the rewritten frame
 * only when the marker divided by 16, rounded toward zero, equals its own
 * level minus one. So for markers 16..255 the high nibble names the level
 * that is expected to relay next, and the low nibble keeps the level of the
 * first relay.
 *
 * The marker is packed with MicroPython's `struct.pack("B", ...)`, which does
 * no range check and keeps the low byte; the decision is taken on the
 * unpacked value. A marker below 16 therefore wraps to 240 and up when it is
 * lowered again.
 */
module HopRelay {
  import opened Bytes

  /** First byte of a frame that no relay has touched yet. */
  const Fresh: Byte := 64

  datatype Decision =
    | Forward(frame: Frame)      // handed to `_send_up_link`
    | Drop                       // rewritten, printed and not sent
    | Malformed                  // an empty frame: `rx_data[0]` raises IndexError

  /** The hop marker the first relay at `level` prepends to a fresh frame. */
  function Marker(level: int): int
  {
    (level - 1) * 16 + level
  }

  /** Python's `int(x / 16)`: the quotient rounded toward zero, so the remainder has the sign of `x`. */
  function TruncDiv16(x: int): (q: int)
    ensures x >= 0 ==> 0 <= x - 16 * q < 16
    ensures x < 0 ==> 0 <= 16 * q - x < 16
  {
    if x >= 0 then x / 16 else -((-x) / 16)
  }

  /** MicroPython's `struct.pack("B", x)`: the byte congruent to `x` modulo 256, whatever `x` is. */
  function PackByte(x: int): (b: Byte)
    ensures (x - b) % 256 == 0
    ensures b % 16 == x % 16
    ensures 0 <= x < 256 ==> b == x
  {
    var b := x % 256;
    assert x == (x / 256) * 256 + b;
    assert x % 16 == b % 16 by {
      assert x == ((x / 256) * 16) * 16 + b;
    }
    b
  }

  /** Adding a multiple of 16 keeps the low nibble. */
  lemma ShiftKeepsNibble(x: int, v: int, k: int)
    requires x == k * 16 + v
    ensures x % 16 == v % 16
  {
  }

  /**
   * The decision `_lora_cb` takes on the received bytes `rx` at tree level
   * `level`. The new first byte is the low byte of the marker; the decision
   * compares the marker itself, divided by 16 toward zero, with `level - 1`.
   */
  function Relay(rx: Frame, level: int): (d: Decision)
    ensures d.Malformed? <==> |rx| == 0
    ensures d.Forward? && rx[0] == Fresh ==> d.frame == [Marker(level) % 256] + rx
    ensures d.Forward? && rx[0] != Fresh ==>
              |d.frame| == |rx| && d.frame[0] == (rx[0] as int - 16) % 256 && d.frame[1..] == rx[1..]
    ensures d.Forward? ==> d.frame[0] % 16 == (if rx[0] == Fresh then level else rx[0] as int) % 16
  {
    if |rx| == 0 then Malformed
    else
      var hop := if rx[0] == Fresh then Marker(level) else rx[0] as int - 16;
      var origin := if rx[0] == Fresh then level else rx[0] as int;
      ShiftKeepsNibble(hop, origin, if rx[0] == Fresh then level - 1 else -1);
      var out := [PackByte(hop)] + (if rx[0] == Fresh then rx else rx[1..]);
      if TruncDiv16(hop) == level - 1 then Forward(out) else Drop
  }

  /**
   * A fresh frame is never malformed. It is forwarded exactly at levels
   * -15..15 (the marker divided toward zero matches nowhere else) and
   * dropped at every other level. At levels 1..15 the marker fits in a byte,
   * its high nibble is `level - 1` and its low nibble the level.
   */
  lemma FreshFrameForwarded(rx: Frame, level: int)
    requires |rx| > 0 && rx[0] == Fresh
    ensures Relay(rx, level).Forward? <==> -15 <= level <= 15
    ensures Relay(rx, level).Drop? <==> level < -15 || 15 < level
    ensures 1 <= level <= 15 ==>
              Relay(rx, level) == Forward([Marker(level)] + rx) &&
              Marker(level) / 16 == level - 1 && Marker(level) % 16 == level
  {
    var q := TruncDiv16(Marker(level));
    if level >= 1 {
      assert Marker(level) >= 0;
      assert q == level - 1 <==> level <= 15;
    } else {
      assert Marker(level) < 0;
      assert q == level - 1 <==> -15 <= level;
    }
  }

  /** The one level that forwards a relayed frame whose first byte is `first`. */
  function NextLevel(first: Byte): int
  {
    if 1 <= first < 16 then 1 else first / 16
  }

  /**
   * A relayed frame (first byte not 64) is never malformed and is forwarded
   * by exactly one tree level: the one its marker's high nibble names, or
   * level 1 for a marker 1..15, whose lowered value -15..-1 divides to 0
   * toward zero. Forwarding keeps the low nibble and lowers the high nibble
   * by one, from 0 around to 15.
   */
  lemma RelayedFrameForwardedByOneLevel(rx: Frame, level: int)
    requires |rx| > 0 && rx[0] != Fresh
    ensures Relay(rx, level).Forward? <==> level == NextLevel(rx[0])
    ensures !Relay(rx, level).Malformed?
    ensures Relay(rx, level).Forward? ==>
              Relay(rx, level).frame[0] % 16 == rx[0] % 16 &&
              Relay(rx, level).frame[0] / 16 == (rx[0] / 16 + 15) % 16
  {
    LoweredQuotient(rx[0]);
    LoweredByte(rx[0]);
  }

  /** The lowered marker `first - 16`, divided toward zero, is one below the level that forwards it. */
  lemma LoweredQuotient(first: Byte)
    ensures TruncDiv16(first as int - 16) == NextLevel(first) - 1
  {
    var q := TruncDiv16(first as int - 16);
    if first >= 16 {
      assert q == first / 16 - 1;
    } else if first == 0 {
      assert q == -1;
    } else {
      assert q == 0;
    }
  }

  /** The packed lowered marker keeps the low nibble and has the high nibble one lower, modulo 16. */
  lemma LoweredByte(first: Byte)
    ensures PackByte(first as int - 16) % 16 == first % 16
    ensures PackByte(first as int - 16) / 16 == (first / 16 + 15) % 16
  {
    var m := first as int;
    if m >= 16 {
      assert PackByte(m - 16) == m - 16;
      assert (m - 16) / 16 == m / 16 - 1;
    } else {
      assert (m - 16) % 256 == m + 240;
      assert (m + 240) / 16 == 15;
    }
  }

  /** The worked example: a fresh frame at level 3 gets marker 35 and goes on. */
  lemma FreshAtLevelThree(rx: Frame)
    requires |rx| > 0 && rx[0] == Fresh
    ensures Relay(rx, 3) == Forward([35] + rx)
  {
  }

  /** The worked example: marker 35 heard by another level-3 relay becomes 19 and is dropped. */
  lemma MarkerThirtyFiveAtLevelThree(rest: Frame)
    ensures Relay([35] + rest, 3) == Drop
  {
  }

  /** The levels a frame passes on its way up: `top`, `top - 1`, ..., `bottom`. */
  function Descending(top: int, bottom: int): (path: seq<int>)
    ensures |path| == if top < bottom then 0 else top - bottom + 1
    decreases top - bottom
  {
    if top < bottom then [] else [top] + Descending(top - 1, bottom)
  }

  /** The outcome of relaying `rx` along `path`, one level after the other, while every relay forwards. */
  function RelayPath(rx: Frame, path: seq<int>): Decision
    decreases |path|
  {
    if path == [] then Forward(rx)
    else
      match Relay(rx, path[0])
      case Forward(f) => RelayPath(f, path[1..])
      case other => other
  }

  /**
   * A frame carrying marker `next * 16 + origin` is relayed by levels
   * `next`, `next - 1`, ..., `bottom` in turn; each keeps the payload and the
   * origin nibble and lowers the high nibble by one.
   */
  lemma {:induction false} RelayedPath(payload: Frame, origin: int, next: int, bottom: int)
    requires 1 <= origin <= 15 && next <= 15
    requires 1 <= bottom <= next + 1
    ensures RelayPath([next * 16 + origin] + payload, Descending(next, bottom))
            == Forward([(bottom - 1) * 16 + origin] + payload)
  {
    var rx: Frame := [next * 16 + origin] + payload;
    if bottom <= next {
      assert rx[0] != Fresh;
      var f: Frame := [(next - 1) * 16 + origin] + payload;
      assert TruncDiv16(next * 16 + origin - 16) == next - 1;
      assert rx[1..] == payload;
      assert Relay(rx, next) == Forward(f);
      assert Descending(next, bottom)[1..] == Descending(next - 1, bottom);
      RelayedPath(payload, origin, next - 1, bottom);
    } else {
      assert Descending(next, bottom) == [];
    }
  }

  /**
   * A frame sent by an end node (first byte 64) and first heard at level
   * `origin` climbs the tree one level per hop: after levels `origin` down to
   * `bottom` it carries marker `(bottom - 1) * 16 + origin`, so once it has
   * passed level 1 the marker is the origin level itself.
   */
  lemma {:induction false} EndNodeFrameClimbs(rx: Frame, origin: int, bottom: int)
    requires |rx| > 0 && rx[0] == Fresh
    requires 1 <= bottom <= origin <= 15
    ensures RelayPath(rx, Descending(origin, bottom)) == Forward([(bottom - 1) * 16 + origin] + rx)
  {
    FreshFrameForwarded(rx, origin);
    var f: Frame := [Marker(origin)] + rx;
    assert Relay(rx, origin) == Forward(f);
    assert Descending(origin, bottom)[1..] == Descending(origin - 1, bottom);
    assert Marker(origin) == (origin - 1) * 16 + origin;
    RelayedPath(rx, origin, origin - 1, bottom);
  }

  /**
   * A frame that has passed level 1 (marker = origin level, 1..15) is
   * forwarded again by any other level-1 relay that hears it, and by no
   * other level: the lowered marker `origin - 16` is packed as `origin + 240`.
   */
  lemma TopFrameReenters(payload: Frame, origin: int, level: int)
    requires 1 <= origin <= 15
    ensures Relay([origin] + payload, level).Forward? <==> level == 1
    ensures level == 1 ==> Relay([origin] + payload, level) == Forward([240 + origin] + payload)
  {
    var rx: Frame := [origin] + payload;
    RelayedFrameForwardedByOneLevel(rx, level);
    assert rx[1..] == payload;
    assert (origin - 16) % 256 == 240 + origin;
  }

  /**
   * Re-entry closes a cycle: a frame past level 1 that another level-1 relay
   * hears is then relayed by levels 15 down to 1 and arrives exactly as it
   * was, so relays in range of one another can pass it round indefinitely.
   */
  lemma {:induction false} TopFrameCirculates(payload: Frame, origin: int)
    requires 1 <= origin <= 15
    ensures RelayPath([origin] + payload, [1] + Descending(15, 1)) == Forward([origin] + payload)
  {
    TopFrameReenters(payload, origin, 1);
    assert ([1] + Descending(15, 1))[1..] == Descending(15, 1);
    RelayedPath(payload, origin, 15, 1);
    assert 15 * 16 + origin == 240 + origin;
  }
}
