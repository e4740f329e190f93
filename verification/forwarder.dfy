/**
 * The nano forwarder object: its role-driven setup (`start`), the periodic
 * node uplink (`_app`), the raw-radio receive handler (`_lora_cb` with
 * `_send_up_link`) and `stop`.
 *
 * The hardware is reduced to state: which radio object was created last, the
 * live LoRaWAN session, the session saved in NVRAM, whether the receive
 * handler and the periodic alarm are installed. A ghost `Trace` records the
 * externally visible actions in the order they happen. Each callback runs as
 * one atomic method call.
 */
module Forwarder {
  import opened Wrappers
  import opened Bytes
  import opened HopRelay
  import opened DataRate
  import opened BigEndian

  /** How the single radio was last set up. */
  datatype RadioState =
    | Unset
      // `LoRa(mode=LoRa.LORA, ...)`, always with preamble 8 and coding rate 4/5
    | Raw(frequency: int, sf: int, bw: Bandwidth, txIq: bool)
    | LoRaWAN                    // `LoRa(mode=LoRa.LORAWAN)`
    | Sleeping                   // `power_mode(LoRa.SLEEP)`

  /**
   * The joined-network state the LoRaWAN stack keeps and NVRAM stores: the
   * ABP credentials and the uplink frame counter, which every transmitted
   * uplink advances.
   */
  datatype Session = Session(devAddr: int, nwkSKey: seq<Byte>, appSKey: seq<Byte>, fCntUp: nat)

  /** The session an ABP join with the configured address and keys starts: frame counter 0. */
  const AbpSession: Session := Session(
    0x2601160C,
    [0x58, 0x64, 0x35, 0x04, 0x95, 0xE1, 0x12, 0x3A, 0x5A, 0xD2, 0x21, 0xDF, 0x70, 0x0C, 0xCE, 0xC8],
    [0x4B, 0x75, 0x1B, 0x14, 0xB6, 0xC2, 0xC7, 0xBA, 0xB0, 0x0B, 0x46, 0xEE, 0xA3, 0x0E, 0x92, 0x0D],
    0)

  /** `s` holds the configured ABP credentials, whatever its frame counter. */
  predicate IsAbp(s: Session)
  {
    s.(fCntUp := 0) == AbpSession
  }

  /**
   * The live session after `lorawan_sock.send` on it: a send that succeeded
   * advanced the uplink frame counter by one, a failed one left it alone.
   */
  function AfterSend(live: Option<Session>, ok: bool): (r: Option<Session>)
    ensures r.Some? <==> live.Some?
    ensures r.Some? ==> r.value.(fCntUp := 0) == live.value.(fCntUp := 0)
    ensures r.Some? ==> r.value.fCntUp == live.value.fCntUp + (if ok then 1 else 0)
  {
    match live
    case None => None
    case Some(s) => if ok then Some(s.(fCntUp := s.fCntUp + 1)) else live
  }

  /** `self.app_alarm`: never created, running, or cancelled by `stop`. */
  datatype Alarm = NoAlarm | Armed | Cancelled

  datatype Event =
    | RadioSet(radio: RadioState)
    | Joined(session: Session)
    | NvramSave(saved: Option<Session>)
    | NvramRestore(restored: Option<Session>)
    | NodeSend(payload: seq<Byte>, live: Option<Session>, ok: bool)   // `lorawan_sock.send`
    | UplinkSend(frame: Frame, ok: bool)                                 // `lora_sock.send`
    | RadioSleep

  class NanoForwarder {
    const id: string
    const frequency: int
    const datarate: string
    const level: int
    /** 1: forwarder only, 2: node only, 3: both; any other value sets up both without switching. */
    const mode: int
    const sf: int
    const bw: Bandwidth

    /** The uplink counter `v_start`. */
    var vStart: int
    var radio: RadioState
    /** `self.lora is not None`. */
    var hasLora: bool
    /** `_lora_cb` is installed as the receive handler. */
    var rxHandler: bool
    var alarm: Alarm
    /** The session the LoRaWAN stack currently holds. */
    var session: Option<Session>
    /** The session saved in NVRAM. */
    var nvram: Option<Session>
    ghost var started: bool
    ghost var Trace: seq<Event>

    /** The raw-mode radio set-up, with or without IQ inversion on transmit. */
    function RawRadio(txIq: bool): RadioState
    {
      Raw(frequency, sf, bw, txIq)
    }

    /** What holds before `start` and between any two callbacks after it. */
    ghost predicate Valid()
      reads this
    {
      vStart >= 0 &&
      (hasLora <==> started && mode != 2) &&
      (rxHandler ==> started && mode != 2) &&
      (alarm == NoAlarm <==> !started || mode == 1) &&
      (session.Some? <==> started && mode != 1) &&
      (session.Some? ==> IsAbp(session.value)) &&
      (nvram.Some? <==> started && mode == 3) &&
      (nvram.Some? ==> nvram == session) &&
      (!started ==> vStart == 0 && radio == Unset)
    }

    /** `__init__`: the data rate must parse, or the constructor raises before the object exists. */
    constructor (id: string, frequency: int, datarate: string, level: int, mode: int)
      requires DrToSf(datarate).Some?
      ensures Valid() && !started && Trace == []
      ensures this.id == id && this.frequency == frequency && this.datarate == datarate
      ensures this.level == level && this.mode == mode
      ensures sf == DrToSf(datarate).value && bw == DrToBw(datarate)
      ensures vStart == 0 && radio == Unset && !hasLora && !rxHandler && alarm == NoAlarm
      ensures session == None && nvram == None
    {
      this.id := id;
      this.frequency := frequency;
      this.datarate := datarate;
      this.level := level;
      this.mode := mode;
      sf := DrToSf(datarate).value;
      bw := DrToBw(datarate);
      vStart := 0;
      radio := Unset;
      hasLora := false;
      rxHandler := false;
      alarm := NoAlarm;
      session := None;
      nvram := None;
      started := false;
      Trace := [];
    }

    /**
     * `start`: the role decides the set-up. Every mode but 1 joins the
     * network and arms the periodic uplink, every mode but 2 sets up the raw
     * radio with the receive handler, and mode 3 saves the joined session
     * before the radio leaves LoRaWAN mode.
     */
    method Start()
      requires Valid()
      modifies this
      ensures Valid() && started
      ensures session == if mode != 1 then Some(AbpSession) else None
      ensures alarm == (if mode != 1 then Armed else NoAlarm)
      ensures hasLora <==> mode != 2
      ensures rxHandler <==> mode != 2
      ensures nvram == if mode == 3 then Some(AbpSession) else None
      ensures radio == if mode == 2 then LoRaWAN else RawRadio(true)
      ensures vStart == old(vStart)
      ensures Trace == old(Trace)
                + (if mode != 1 then [RadioSet(LoRaWAN), Joined(AbpSession)] else [])
                + (if mode == 3 then [NvramSave(Some(AbpSession))] else [])
                + (if mode != 2 then [RadioSet(RawRadio(true))] else [])
    {
      if mode != 1 {
        radio := LoRaWAN;
        session := Some(AbpSession);
        Trace := Trace + [RadioSet(LoRaWAN), Joined(AbpSession)];
      }
      if mode == 3 {
        nvram := session;
        Trace := Trace + [NvramSave(session)];
      }
      if mode != 2 {
        radio := RawRadio(true);
        hasLora := true;
        rxHandler := true;
        Trace := Trace + [RadioSet(radio)];
      }
      if mode != 1 {
        alarm := Armed;
      }
      started := true;
    }

    /**
     * `_app`, one firing of the periodic alarm. In mode 3 the radio is
     * switched to LoRaWAN (a new LoRaWAN radio does not hold the session)
     * and the saved session restored; then the counter is incremented and
     * sent as four big-endian bytes, wrapped to 32 bits by the packing; the
     * send advances the live session's frame counter when it succeeds. In
     * mode 3 that advanced session is saved again and the raw radio set up
     * as `start` left it. `txOk` is whether the socket send succeeded: a
     * failure is caught and only logged.
     */
    method App(txOk: bool)
      requires Valid() && alarm == Armed
      modifies this
      ensures Valid()
      ensures vStart == old(vStart) + 1
      ensures UnpackU32(PackU32(vStart)) == vStart % Two32
      ensures session == AfterSend(old(session), txOk)
      ensures nvram == if mode == 3 then session else old(nvram)
      ensures radio == if mode == 3 then RawRadio(true) else old(radio)
      ensures hasLora == old(hasLora) && rxHandler == old(rxHandler) && alarm == old(alarm)
      ensures started == old(started)
      ensures Trace == old(Trace)
                + (if mode == 3 then [RadioSet(LoRaWAN), NvramRestore(old(nvram))] else [])
                + [NodeSend(PackU32(vStart), if mode == 3 then old(nvram) else old(session), txOk)]
                + (if mode == 3 then [NvramSave(session), RadioSet(RawRadio(true))] else [])
    {
      if mode == 3 {
        radio := LoRaWAN;
        session := None;
        Trace := Trace + [RadioSet(LoRaWAN)];
        session := nvram;
        Trace := Trace + [NvramRestore(nvram)];
      }
      vStart := vStart + 1;
      var payload := PackU32(vStart);
      UnpackPack(vStart);
      Trace := Trace + [NodeSend(payload, session, txOk)];
      session := AfterSend(session, txOk);
      if mode == 3 {
        nvram := session;
        Trace := Trace + [NvramSave(session)];
        radio := RawRadio(true);
        hasLora := true;
        Trace := Trace + [RadioSet(radio)];
      }
    }

    /**
     * `_send_up_link`: the raw radio is set up again, this time without IQ
     * inversion on transmit, and the frame sent on the raw socket. `sendOk`
     * is whether that send succeeded.
     */
    method SendUpLink(data: Frame, sendOk: bool)
      requires Valid() && started && mode != 2
      modifies this
      ensures Valid()
      ensures radio == RawRadio(false)
      ensures Trace == old(Trace) + [RadioSet(RawRadio(false)), UplinkSend(data, sendOk)]
      ensures vStart == old(vStart) && hasLora == old(hasLora) && rxHandler == old(rxHandler)
      ensures alarm == old(alarm) && session == old(session) && nvram == old(nvram)
      ensures started == old(started)
    {
      radio := RawRadio(false);
      hasLora := true;
      Trace := Trace + [RadioSet(radio), UplinkSend(data, sendOk)];
    }

    /**
     * `_lora_cb` on a received frame `rx`: the hop decision of `Relay`, and
     * on `Forward` the rewritten frame goes up. A malformed frame raises out
     * of the handler before anything is sent; a dropped one is only printed.
     */
    method LoraCallback(rx: Frame, sendOk: bool) returns (d: Decision)
      requires Valid() && rxHandler
      modifies this
      ensures Valid()
      ensures d == Relay(rx, level)
      ensures radio == if d.Forward? then RawRadio(false) else old(radio)
      ensures Trace == old(Trace) + if d.Forward? then [RadioSet(RawRadio(false)), UplinkSend(d.frame, sendOk)] else []
      ensures vStart == old(vStart) && hasLora == old(hasLora) && rxHandler == old(rxHandler)
      ensures alarm == old(alarm) && session == old(session) && nvram == old(nvram)
      ensures started == old(started)
    {
      d := Relay(rx, level);
      if d.Forward? {
        SendUpLink(d.frame, sendOk);
      }
    }

    /**
     * `stop`: remove the receive handler, put the radio to sleep, cancel the
     * alarm. `self.lora` and `self.app_alarm` are dereferenced without a
     * check, so the call raises where one of them was never created: without
     * a raw radio nothing happens, without an alarm the radio is already
     * asleep. After `start` it succeeds exactly in the modes that set up
     * both, and then neither callback can fire again.
     */
    method Stop() returns (ok: bool)
      requires Valid()
      modifies this
      ensures Valid()
      ensures ok <==> old(hasLora) && old(alarm) != NoAlarm
      ensures old(started) ==> (ok <==> mode != 1 && mode != 2)
      ensures ok ==> !rxHandler && alarm == Cancelled
      ensures old(hasLora) ==> !rxHandler && radio == Sleeping && Trace == old(Trace) + [RadioSleep]
      ensures !old(hasLora) ==> rxHandler == old(rxHandler) && radio == old(radio) && Trace == old(Trace)
      ensures alarm == if ok then Cancelled else old(alarm)
      ensures vStart == old(vStart) && hasLora == old(hasLora)
      ensures session == old(session) && nvram == old(nvram) && started == old(started)
    {
      if !hasLora {
        return false;
      }
      rxHandler := false;
      radio := Sleeping;
      Trace := Trace + [RadioSleep];
      if alarm == NoAlarm {
        return false;
      }
      alarm := Cancelled;
      ok := true;
    }
  }
}
