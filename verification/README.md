# LoRaWAN nano forwarder: a Dafny model

This project models the core of a LoPy relay node for a tree-shaped,
multi-hop LoRa network. The node can relay raw frames one level up the
tree (the forwarder role), send its own periodic LoRaWAN uplink (the node
role), or do both. In the "both" role it switches its single radio between
raw LoRa and LoRaWAN around every uplink, with the LoRaWAN session saved
to and restored from NVRAM.

Modules, one per concern of `ForwarderNode/nanoforwarder.py`:

- `HopRelay` (hop_relay.dfy). The pure hop-marker rewrite and forward
  decision of the raw receive handler `_lora_cb`. The result is
  `Forward(frame) | Drop | Malformed`. It also has lemmas about frames
  that climb the tree hop by hop.
- `DataRate` (data_rate.dfy). `_dr_to_sf`, `_dr_to_bw` and `_sf_bw_to_dr`.
  It also models Python's `str(int)` and the part of `int(str)` these
  functions can reach.
- `BigEndian` (payload.dfy). The uplink payload `struct.pack(">I", v)` and
  its inverse.
- `Frequency` (frequency.dfy). The integer loop of `_freq_to_float`, as a
  method.
- `Forwarder` (forwarder.dfy). The `NanoForwarder` class with `start`,
  `_app`, `_lora_cb`/`_send_up_link` and `stop` as methods that update its
  fields. The hardware becomes state:
  - the radio's current set-up;
  - whether `self.lora` exists;
  - the receive handler;
  - the alarm;
  - the live session and the NVRAM session.

  A ghost `Trace` records the visible actions in order: radio
  re-configurations, join, NVRAM save and restore, and sends.

How the code behaves, as the model states it:

- Hop markers. The relay at level `L` that first hears a frame writes
  marker `(L-1)*16+L`, and every later relay subtracts 16. So `marker / 16`
  names the level expected to relay next, and `marker % 16` keeps the level
  of the first relay (`HopRelay.EndNodeFrameClimbs`,
  `HopRelay.RelayedFrameForwardedByOneLevel`).
- MicroPython's `struct.pack` does no range check and keeps the low bytes.
  A marker below 16 lowered by a level-1 relay therefore becomes
  `marker + 240`. A frame that has passed level 1 and is heard by another
  level-1 relay is forwarded again, and then climbs from level 15 down to 1
  once more, arriving as it was (`HopRelay.TopFrameReenters`,
  `HopRelay.TopFrameCirculates`). A fresh frame is forwarded at every level
  in -15..15, since `int(marker / 16)` rounds toward zero.
- `stop` raises unless both `self.lora` and `self.app_alarm` exist. So it
  raises in the forwarder-only and node-only roles
  (`Forwarder.NanoForwarder.Stop`).
- The counter `v_start` is an unbounded int. Its packing keeps the low 32
  bits, so after 2^32 firings the payloads repeat
  (`BigEndian.PackWraps`).
- `_app` saves the session to NVRAM after the send because the send
  advances the session's uplink frame counter
  (`Forwarder.NanoForwarder.App`, `Forwarder.AfterSend`).

Exceptions that escape a callback are modelled as results (`Malformed`,
`ok == false`), with the state as it was when the exception was raised.

## Model

| member | source | states |
|---|---|---|
| `HopRelay.TruncDiv16` | ForwarderNode/nanoforwarder.py:156 | `int(x / 16)` rounds toward zero: the remainder `x - 16*q` has the sign of `x` and is smaller than 16 in size. |
| `HopRelay.PackByte` | ForwarderNode/nanoforwarder.py:150-154 | `struct.pack("B", x)` gives the byte congruent to `x` modulo 256, which has the same low nibble as `x` and is `x` itself for 0..255. |
| `HopRelay.Relay` | ForwarderNode/nanoforwarder.py:148-161 | A frame is malformed if and only if it is empty. A forwarded fresh frame (first byte 64) is the low byte of the marker `(level-1)*16+level` followed by the whole original frame. A forwarded relayed frame keeps its length and every byte after the first, and its first byte becomes `(first - 16) mod 256`. A forwarded frame's low nibble is the level of the first relay. |
| `HopRelay.FreshFrameForwarded` | ForwarderNode/nanoforwarder.py:149-161 | A fresh frame is never malformed. It is forwarded if and only if the level is in -15..15, and dropped otherwise. At levels 1..15 the marker fits in a byte, its high nibble is `level-1` and its low nibble is the level. |
| `HopRelay.RelayedFrameForwardedByOneLevel` | ForwarderNode/nanoforwarder.py:152-161 | A relayed frame is never malformed. It is forwarded by exactly one level: level 1 for a first byte in 1..15, otherwise `first / 16`. Forwarding keeps the low nibble and lowers the high nibble by one, from 0 around to 15. |
| `HopRelay.FreshAtLevelThree` | ForwarderNode/nanoforwarder.py:149-161 | A fresh frame at level 3 is forwarded with marker 35 prepended. |
| `HopRelay.MarkerThirtyFiveAtLevelThree` | ForwarderNode/nanoforwarder.py:152-161 | A frame with marker 35 heard by a level-3 relay becomes marker 19, whose high nibble is 1, so it is dropped. |
| `HopRelay.RelayedPath` | ForwarderNode/nanoforwarder.py:148-161 | A frame with marker `next*16+origin` is relayed in turn by levels `next` down to `bottom`. It arrives with marker `(bottom-1)*16+origin` and an unchanged payload. |
| `HopRelay.EndNodeFrameClimbs` | ForwarderNode/nanoforwarder.py:148-161 | An end node's frame first heard at level `origin` (1..15) is forwarded by every level from `origin` down to `bottom`, and carries marker `(bottom-1)*16+origin`. After level 1 its marker equals the origin level. |
| `HopRelay.TopFrameReenters` | ForwarderNode/nanoforwarder.py:152-161 | A frame whose marker is an origin level 1..15 is forwarded again by a level-1 relay, with marker `240 + origin`, and by no other level. |
| `HopRelay.TopFrameCirculates` | ForwarderNode/nanoforwarder.py:148-161 | Such a frame, relayed by a level-1 relay and then by levels 15 down to 1, arrives exactly as it was. |
| `DataRate.IntOfOne` | ForwarderNode/nanoforwarder.py:109-110 | `int()` of one character succeeds exactly on an ASCII decimal digit. |
| `DataRate.IntOfTwo` | ForwarderNode/nanoforwarder.py:107-110 | `int()` of two characters ending in a digit succeeds if and only if the first is a digit, a sign or one of the six ASCII whitespace characters. Two digits read as a decimal number. A sign or whitespace gives the last digit with that sign. The result is in -9..99. |
| `DataRate.DrToSf` | ForwarderNode/nanoforwarder.py:106-110 | The spreading factor is read from characters 2-3, or from character 2 alone. A string shorter than 4 characters fails. A result is in -9..99. A digit at position 2 always parses. |
| `DataRate.LastFive` | ForwarderNode/nanoforwarder.py:113 | Python's `dr[-5:]`: a suffix of the string, five characters long, or the whole string if it is shorter. |
| `DataRate.DrToBw` | ForwarderNode/nanoforwarder.py:112-119 | The bandwidth is 125 kHz if and only if the last five characters are "BW125", and 250 kHz if and only if they are "BW250". Anything else gives 500 kHz. |
| `DataRate.NatToString` | ForwarderNode/nanoforwarder.py:122 | Python's `str(n)`: a non-empty string of digits whose decimal value is `n` and that has no leading zero. It has one character if and only if `n < 10`, and two if and only if `10 <= n < 100`. |
| `DataRate.IntToString` | ForwarderNode/nanoforwarder.py:122 | Python's `str(n)` for any integer: it starts with '-' if and only if `n < 0`. The rest is the digits of `abs(n)` without a leading zero. |
| `DataRate.SfBwToDr` | ForwarderNode/nanoforwarder.py:121-128 | The result starts with "SF" and ends with the bandwidth's five-character suffix. What lies between is `str(sf)`. |
| `DataRate.BwRoundTrip` | ForwarderNode/nanoforwarder.py:112-128 | `_dr_to_bw(_sf_bw_to_dr(sf, bw)) == bw` for every spreading factor and bandwidth. |
| `DataRate.SfNarrow` | ForwarderNode/nanoforwarder.py:106-128 | For `sf` in -9..99, `_dr_to_sf(_sf_bw_to_dr(sf, bw)) == sf`. |
| `DataRate.SfWide` | ForwarderNode/nanoforwarder.py:106-128 | For `sf` outside -9..99, the round trip does not give `sf` back. |
| `DataRate.SfRoundTrip` | ForwarderNode/nanoforwarder.py:106-128 | The spreading factor survives the round trip through the data-rate string if and only if it is in -9..99. |
| `DataRate.DefaultDataRate` | ForwarderNode/config.py:20 | The configured "SF7BW125" means SF 7 at 125 kHz, and "SF12BW500" means SF 12 at 500 kHz. |
| `BigEndian.PackU32` | ForwarderNode/nanoforwarder.py:193 | Packing gives four bytes for every counter. |
| `BigEndian.UnpackU32` | ForwarderNode/nanoforwarder.py:193 | Four big-endian bytes decode to a value in 0..2^32-1. |
| `BigEndian.UnpackPack` | ForwarderNode/nanoforwarder.py:192-193 | Decoding the packed counter gives the counter modulo 2^32, so a counter in 0..2^32-1 comes back unchanged. |
| `BigEndian.PackUnpack` | ForwarderNode/nanoforwarder.py:193 | Every four-byte payload is the packing of its decoding, so the encoding is a bijection from 0..2^32-1 onto four-byte strings. |
| `BigEndian.PackWraps` | ForwarderNode/nanoforwarder.py:192-193 | The payload depends only on the counter modulo 2^32. Adding 2^32 to the counter gives the same payload. |
| `BigEndian.PackMonotonic` | ForwarderNode/nanoforwarder.py:192-193 | Within 0..2^32-1, a larger counter packs to a lexicographically larger payload. |
| `Frequency.FreqToFloat` | ForwarderNode/nanoforwarder.py:177-183 | The result is `(mantissa, divider)` with `0 <= divider <= 6` and `mantissa * 10^(6-divider) == frequency`. No trailing zero is left while `divider > 0`. |
| `Frequency.MegahertzUnique` | ForwarderNode/nanoforwarder.py:177-180 | The frequency determines the loop's result: two pairs that meet the contract are equal. |
| `Frequency.ConfiguredFrequency` | ForwarderNode/config.py:19 | 903900000 Hz gives mantissa 9039 and divider 1, that is 903.9 MHz. |
| `Forwarder.AfterSend` | ForwarderNode/nanoforwarder.py:195-199 | A send keeps the session's credentials. A successful send advances its uplink frame counter by one, and a failed one leaves it. |
| `Forwarder.NanoForwarder.constructor` | ForwarderNode/nanoforwarder.py:22-41 | The counter starts at 0. Nothing is set up. SF and bandwidth come from the data-rate string. |
| `Forwarder.NanoForwarder.Start` | ForwarderNode/nanoforwarder.py:43-91 | The live session is a freshly joined ABP session (frame counter 0) if and only if mode ≠ 1, and so is the alarm. The raw radio and the receive handler exist if and only if mode ≠ 2. That session is saved if and only if mode = 3. The radio ends in raw mode with IQ inversion, or in LoRaWAN mode in mode 2. The trace is join, then save, then raw set-up. |
| `Forwarder.NanoForwarder.App` | ForwarderNode/nanoforwarder.py:185-211 | The counter rises by exactly 1 before the send, whether the send succeeds or not. The payload is the counter's 4-byte encoding and decodes to the counter modulo 2^32. The live session afterwards is the one sent with, advanced by the send. In mode 3 the trace is: switch to LoRaWAN, restore, send with the restored session, save the advanced session, back to raw LoRa with the start-up frequency, SF and bandwidth. NVRAM then holds the advanced session. In other modes the radio and NVRAM are unchanged. |
| `Forwarder.NanoForwarder.SendUpLink` | ForwarderNode/nanoforwarder.py:213-230 | The raw radio is set up again without IQ inversion, and the frame is sent upward. |
| `Forwarder.NanoForwarder.LoraCallback` | ForwarderNode/nanoforwarder.py:138-163 | The decision is `Relay(rx, level)`. Only a forwarded frame changes the radio and reaches the upward send. Nothing else changes. |
| `Forwarder.NanoForwarder.Stop` | ForwarderNode/nanoforwarder.py:93-104 | Stop succeeds if and only if both the raw radio and the alarm exist, that is, after `start` if and only if mode ∉ {1,2}. On success the handler is gone and the alarm is cancelled, so no callback can run again. A call without an alarm still removes the handler and puts the radio to sleep before raising. |

## Left out

- Logging: `_log`, the `print` calls in `_lora_cb` and the base64
  rendering in `_send_up_link`. They are diagnostics only and depend on the
  clock and on float formatting.
- `_lorawan_cb`: it is never installed and only prints.
- Hardware and library internals are abstracted to state transitions and
  trace events. This covers:
  - the 72-channel removal and re-addition at 903.9 MHz with data rates
    0..3;
  - the socket options (data rate 3, blocking or non-blocking);
  - the ABP join itself, which becomes `Joined(AbpSession)` with the
    configured address and keys and frame counter 0;
  - the radio's preamble of 8 and coding rate 4/5.
- Whether a socket send succeeds is an input (`txOk`, `sendOk`), because
  the radio's behaviour is not visible.
- Creating a LoRaWAN radio object is modelled as dropping the live session.
  The library's behaviour here is not visible; this assumption is why the
  code restores from NVRAM.
- The receive handler is modelled as staying installed across radio
  re-configurations.
- The `recv(256)` size limit: `LoraCallback` takes the received bytes as
  given.
- The float division at the end of `_freq_to_float`. `Frequency.FreqToFloat`
  returns the exact mantissa and divider that the division would use.
- `maxlevel`, which is never read, and the socket handles, which follow
  the role.
- What MicroPython does with a timer or handler after an exception escapes
  it is not modelled. The model reports the exception and the state at
  that point.
- Asynchronous interleaving of the timer and the receive interrupt. Each
  callback is one atomic method call.
- Calling `start` twice creates a second periodic alarm in the code. The
  model keeps a single `Armed` alarm.
- Forwarder.NanoForwarder.constructor: it requires the data-rate string to
  parse. It does not model the exception `__init__` raises otherwise,
  because a constructor here cannot fail.
- HopRelay.Relay: the division `hop_byte / 16` is exact in the model. On a
  port whose floats are single precision it could round for markers beyond
  2^24 in size, that is for levels beyond about a million. The configured
  levels are 1..15.
- Forwarder.AfterSend: whether the LoRaWAN stack also advances the frame
  counter on a send that raised is not visible. The model advances it only
  on a successful send. Of the session's per-send state only the uplink
  frame counter is modelled.
- ForwarderNode/main.py and the two config.py files are not part of this
  model beyond the two configured constants cited above.
