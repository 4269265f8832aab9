/**
 * Properties of the older call state machine (module CloudmontainCallModel):
 * the invariant it keeps, what each state does with each packet and timer,
 * CallInit synthesis in INIT, CallTerm synthesis in HANG and the sequence
 * counter the two share.
 */
module CloudmontainCallProperties {
  import opened Protocol
  import opened CloudmontainCallModel

  // ----------------------------------------------------------- invariant

  /** A task reference that, when set, names a task already created. */
  predicate Issued(m: Machine, task: Option<nat>) {
    task.Some? ==> 1 <= task.value <= m.timerSeed
  }

  /**
   * What holds between events: every held task was created, neither
   * transmit task is the flywheel, the flywheel is held exactly outside
   * IDLE, INIT's transmit task exactly in INIT, and outside IDLE the
   * transmitter's address is known. HANG's transmit task may outlive HANG.
   */
  predicate Inv(m: Machine) {
    && Issued(m, m.flywheel) && Issued(m, m.initTimer) && Issued(m, m.hangTimer)
    && (m.initTimer.Some? ==> m.flywheel != m.initTimer)
    && (m.hangTimer.Some? ==> m.flywheel != m.hangTimer)
    && (m.flywheel.Some? <==> m.state != Idle)
    && (m.initTimer.Some? <==> m.state == Init)
    && (m.state != Idle ==> m.info.sender.Some?)
  }

  lemma FreshInv()
    ensures Inv(Fresh) && Fresh.state == Idle && Fresh.hooks == [Entered(Idle)]
  {
  }

  lemma OnPacketPreservesInv(cfg: Config, m: Machine, p: Packet, from: Endpoint, t: Clock)
    requires Inv(m)
    ensures Inv(OnPacket(cfg, m, p, from, t))
  {
    match m.state
    case Idle =>
    case Init => OnPacketPreservesInvIn(cfg, m, p, from, t, Init);
    case Txing => OnPacketPreservesInvIn(cfg, m, p, from, t, Txing);
    case Hang => OnPacketPreservesInvIn(cfg, m, p, from, t, Hang);
  }

  /** OnPacketPreservesInv for the call states, one state at a time. */
  lemma OnPacketPreservesInvIn(cfg: Config, m: Machine, p: Packet, from: Endpoint, t: Clock, st: State)
    requires Inv(m) && m.state == st && st != Idle
    ensures Inv(OnPacket(cfg, m, p, from, t))
  {
  }

  lemma OnTimerPreservesInv(cfg: Config, m: Machine, id: nat, t: Clock)
    requires Inv(m)
    ensures Inv(OnTimer(cfg, m, id, t))
  {
  }

  // ------------------------------------------------------- context guard

  /** The old state's exit and the new state's entry run once each, in order, exactly when the state changed. */
  lemma OnPacketRunsHooksOnce(cfg: Config, m: Machine, p: Packet, from: Endpoint, t: Clock)
    ensures var m' := OnPacket(cfg, m, p, from, t);
      m'.hooks == m.hooks + (if m'.state != m.state then [Exited(m.state), Entered(m'.state)] else [])
  {
  }

  lemma OnTimerRunsHooksOnce(cfg: Config, m: Machine, id: nat, t: Clock)
    ensures var m' := OnTimer(cfg, m, id, t);
      m'.hooks == m.hooks + (if m'.state != m.state then [Exited(m.state), Entered(m'.state)] else [])
  {
  }

  /** A packet of any type other than the three call messages changes nothing, in every state. */
  lemma OtherPacketsIgnored(cfg: Config, m: Machine, p: Packet, from: Endpoint, t: Clock)
    requires p.Other?
    ensures OnPacket(cfg, m, p, from, t) == m
  {
  }

  // ---------------------------------------------------------------- IDLE

  /** IDLE ignores every timer and every packet but CallInit. */
  lemma IdleReactsOnlyToCallInit(cfg: Config, m: Machine, p: Packet, from: Endpoint, id: nat, t: Clock)
    requires m.state == Idle
    ensures OnTimer(cfg, m, id, t) == m
    ensures !p.CallInit? ==> OnPacket(cfg, m, p, from, t) == m
  {
  }

  /** A CallInit in IDLE is recorded and forwarded, and INIT's entry arms the flywheel and then the transmit timer. */
  lemma IdleCallInitStartsCall(cfg: Config, m: Machine, p: Packet, from: Endpoint, t: Clock)
    requires m.state == Idle && p.CallInit?
    ensures var m' := OnPacket(cfg, m, p, from, t);
      && m'.state == Init
      && m'.info == CallInfo(Some(from), p.sequence, p.source, p.target)
      && m'.callInitSeq == p.sequence
      && m'.forwarded == m.forwarded + [p]
      && m'.flywheel == Some(m.timerSeed + 1)
      && m'.initTimer == Some(m.timerSeed + 2)
      && m'.timerOps == m.timerOps + CancelOf(m.flywheel)
           + [Schedule(m.timerSeed + 1, cfg.flywheelPeriod), Schedule(m.timerSeed + 2, cfg.packetInterval)]
      && m'.hooks == m.hooks + [Exited(Idle), Entered(Init)]
  {
  }

  // ------------------------------------------------------- INIT and TXING

  /** In INIT and TXING a packet not from the recorded address, suid and target changes nothing. */
  lemma CallerPinnedInInitAndTxing(cfg: Config, m: Machine, p: Packet, from: Endpoint, t: Clock)
    requires m.state == Init || m.state == Txing
    requires !FromCaller(m, p, from)
    ensures OnPacket(cfg, m, p, from, t) == m
  {
  }

  /**
   * A repeated CallInit from the caller in INIT is forwarded and re-arms the
   * transmit task, with a delay that is not floored. When that delay is not
   * negative the flywheel is re-armed too; when it is negative the timer
   * refuses the task by throwing, and the flywheel is left as it was.
   */
  lemma InitCallInitRearms(cfg: Config, m: Machine, p: Packet, from: Endpoint, t: Clock)
    requires m.state == Init && p.CallInit? && FromCaller(m, p, from)
    ensures var m' := OnPacket(cfg, m, p, from, t);
      && m'.state == Init
      && m'.info == m.info
      && m'.callInitSeq == p.sequence
      && m'.forwarded == m.forwarded + [p]
      && m'.initTimer == Some(m.timerSeed + 1)
      && m'.hooks == m.hooks
    ensures var m', d := OnPacket(cfg, m, p, from, t), cfg.packetInterval + t.atForward - t.atRearm;
      d >= 0 ==>
        && m'.flywheel == Some(m.timerSeed + 2)
        && m'.timerOps == m.timerOps + [Schedule(m.timerSeed + 1, d)]
             + CancelOf(m.flywheel) + [Schedule(m.timerSeed + 2, cfg.flywheelPeriod)]
    ensures var m', d := OnPacket(cfg, m, p, from, t), cfg.packetInterval + t.atForward - t.atRearm;
      d < 0 ==>
        && m'.flywheel == m.flywheel
        && m'.timerSeed == m.timerSeed + 1
        && m'.timerOps == m.timerOps + [Refused(m.timerSeed + 1, d)]
  {
  }

  /** CallData from the caller in INIT is forwarded and moves to TXING, whose entry re-arms the flywheel. */
  lemma InitCallDataStartsVoice(cfg: Config, m: Machine, p: Packet, from: Endpoint, t: Clock)
    requires m.state == Init && p.CallData? && FromCaller(m, p, from)
    ensures var m' := OnPacket(cfg, m, p, from, t);
      && m'.state == Txing
      && m'.info == m.info
      && m'.forwarded == m.forwarded + [p]
      && m'.initTimer == None
      && m'.flywheel == Some(m.timerSeed + 1)
      && m'.timerOps == m.timerOps + CancelOf(m.initTimer) + CancelOf(m.flywheel)
           + [Schedule(m.timerSeed + 1, cfg.flywheelPeriod)]
      && m'.hooks == m.hooks + [Exited(Init), Entered(Txing)]
  {
  }

  /**
   * Entering HANG from INIT or TXING: INIT's transmit task is cancelled, the
   * flywheel is re-armed with the hang period, and HANG's own transmit task
   * is left as it was; no CallTerm is synthesised.
   */
  predicate EnteredHang(cfg: Config, m: Machine, m': Machine) {
    && m'.state == Hang
    && m'.info == m.info
    && m'.callInitSeq == m.callInitSeq
    && m'.initTimer == None
    && m'.hangTimer == m.hangTimer
    && m'.flywheel == Some(m.timerSeed + 1)
    && m'.timerOps == m.timerOps + CancelOf(m.initTimer) + CancelOf(m.flywheel)
         + [Schedule(m.timerSeed + 1, cfg.hangPeriod)]
    && m'.hooks == m.hooks + [Exited(m.state), Entered(Hang)]
  }

  /** A CallTerm from the caller in INIT or TXING records its sequences, is forwarded, and enters HANG. */
  lemma CallTermEntersHang(cfg: Config, m: Machine, p: Packet, from: Endpoint, t: Clock)
    requires Inv(m) && (m.state == Init || m.state == Txing)
    requires p.CallTerm? && FromCaller(m, p, from)
    ensures var m' := OnPacket(cfg, m, p, from, t);
      && EnteredHang(cfg, m, m')
      && m'.callTermSeq == p.sequence && m'.callTermAudioSeq == p.audioSeq
      && m'.forwarded == m.forwarded + [p]
  {
  }

  /** The flywheel firing in INIT or TXING enters HANG, forwarding nothing. */
  lemma FlywheelEntersHang(cfg: Config, m: Machine, id: nat, t: Clock)
    requires Inv(m) && (m.state == Init || m.state == Txing)
    requires m.flywheel == Some(id)
    ensures var m' := OnTimer(cfg, m, id, t);
      EnteredHang(cfg, m, m') && m'.forwarded == m.forwarded
  {
  }

  /** CallInit from the caller in TXING is forwarded and re-arms the flywheel. */
  lemma TxingCallInitKeepsCall(cfg: Config, m: Machine, p: Packet, from: Endpoint, t: Clock)
    requires m.state == Txing && p.CallInit? && FromCaller(m, p, from)
    ensures var m' := OnPacket(cfg, m, p, from, t);
      && m'.state == Txing
      && m'.info == m.info
      && m'.forwarded == m.forwarded + [p]
      && m'.flywheel == Some(m.timerSeed + 1)
      && m'.timerOps == m.timerOps + CancelOf(m.flywheel) + [Schedule(m.timerSeed + 1, cfg.flywheelPeriod)]
      && m'.hooks == m.hooks
  {
  }

  /** CallData from the caller in TXING records its sequence and audio sequence, is forwarded and re-arms the flywheel. */
  lemma TxingCallDataKeepsCall(cfg: Config, m: Machine, p: Packet, from: Endpoint, t: Clock)
    requires m.state == Txing && p.CallData? && FromCaller(m, p, from)
    ensures var m' := OnPacket(cfg, m, p, from, t);
      && m'.state == Txing
      && m'.callTermSeq == p.sequence && m'.callTermAudioSeq == p.audioSeq
      && m'.forwarded == m.forwarded + [p]
      && m'.flywheel == Some(m.timerSeed + 1)
      && m'.timerOps == m.timerOps + CancelOf(m.flywheel) + [Schedule(m.timerSeed + 1, cfg.flywheelPeriod)]
      && m'.hooks == m.hooks
  {
  }

  // ----------------------------------------------------- stale timers

  /** The tasks a state's node compares an expiry against. */
  function Armed(m: Machine): set<nat> {
    var fw := if m.flywheel.Some? then {m.flywheel.value} else {};
    match m.state
    case Idle => {}
    case Init => fw + (if m.initTimer.Some? then {m.initTimer.value} else {})
    case Txing => fw
    case Hang => fw + (if m.hangTimer.Some? then {m.hangTimer.value} else {})
  }

  /** An expiry of a task the current state does not hold changes nothing. */
  lemma StaleTimerIgnored(cfg: Config, m: Machine, id: nat, t: Clock)
    requires id !in Armed(m)
    ensures OnTimer(cfg, m, id, t) == m
  {
  }

  // ------------------------------------------------------ INIT synthesis

  /**
   * INIT's transmit task firing synthesises the next CallInit and re-arms
   * itself, a re-arm the timer refuses when the delay is negative; the
   * flywheel is left alone.
   */
  lemma InitTimerSynthesisesCallInit(cfg: Config, m: Machine, t: Clock)
    requires Inv(m) && m.state == Init
    ensures var m' := OnTimer(cfg, m, m.initTimer.value, t);
      && m'.state == Init
      && m'.info == m.info
      && m'.callInitSeq == Inc(m.callInitSeq)
      && m'.forwarded == m.forwarded + [CallInit(m.info.source, m.info.target, Inc(m.callInitSeq))]
      && m'.flywheel == m.flywheel
      && m'.initTimer == Some(m.timerSeed + 1)
      && m'.timerOps == m.timerOps + [
           var d := TxDelay(cfg, t.atForward, t.atRearm);
           if d >= 0 then Schedule(m.timerSeed + 1, d) else Refused(m.timerSeed + 1, d)]
      && m'.hooks == m.hooks
  {
  }

  /**
   * One firing of INIT's own transmit task written out: the next CallInit,
   * then the re-arm. InitFireIsOnTimer shows it is what OnTimer does in INIT.
   */
  function InitFire(cfg: Config, m: Machine, t: Clock): Machine {
    InitRearmTxTimer(cfg, SendCallInit(m, t), t)
  }

  lemma InitFireIsOnTimer(cfg: Config, m: Machine, t: Clock)
    requires Inv(m) && m.state == Init
    ensures OnTimer(cfg, m, m.initTimer.value, t) == InitFire(cfg, m, t)
  {
  }

  lemma InitFirePreservesInv(cfg: Config, m: Machine, t: Clock)
    requires Inv(m) && m.state == Init
    ensures Inv(InitFire(cfg, m, t))
  {
    InitFireIsOnTimer(cfg, m, t);
    OnTimerPreservesInv(cfg, m, m.initTimer.value, t);
  }

  /** The machine after INIT's transmit task fires once per clock in `ts`, with no other input. */
  function InitTimerRun(cfg: Config, m: Machine, ts: seq<Clock>): Machine
    decreases |ts|
  {
    if |ts| == 0 || m.state != Init || m.initTimer.None? then m
    else InitTimerRun(cfg, InitFire(cfg, m, ts[0]), ts[1..])
  }

  /** While the caller is silent in INIT, k firings send exactly the next k CallInit messages, in order. */
  lemma {:induction false} InitTimerRunTrace(cfg: Config, m: Machine, ts: seq<Clock>)
    requires Inv(m) && m.state == Init
    ensures var m' := InitTimerRun(cfg, m, ts);
      && Inv(m') && m'.state == Init
      && m'.info == m.info
      && m'.flywheel == m.flywheel
      && m'.callInitSeq == ToShort(m.callInitSeq + |ts|)
      && m'.forwarded == m.forwarded + CallInitRun(m.info, m.callInitSeq, |ts|)
    decreases |ts|
  {
    if |ts| == 0 {
      assert CallInitRun(m.info, m.callInitSeq, 0) == [];
    } else {
      var m1 := InitFire(cfg, m, ts[0]);
      InitFirePreservesInv(cfg, m, ts[0]);
      assert InitTimerRun(cfg, m, ts) == InitTimerRun(cfg, m1, ts[1..]);
      InitTimerRunTrace(cfg, m1, ts[1..]);
      CallInitRunCons(m.info, m.callInitSeq, |ts|);
      ToShortAdd(m.callInitSeq + 1, |ts| - 1);
    }
  }

  // ---------------------------------------------------------------- HANG

  /**
   * The hang flywheel firing ends the call: IDLE, the flywheel cancelled and
   * cleared, nothing forwarded; HANG's transmit task reference is kept.
   */
  lemma HangFlywheelEndsCall(cfg: Config, m: Machine, id: nat, t: Clock)
    requires m.state == Hang && m.flywheel == Some(id)
    ensures var m' := OnTimer(cfg, m, id, t);
      && m'.state == Idle
      && m'.flywheel == None
      && m'.hangTimer == m.hangTimer
      && m'.forwarded == m.forwarded
      && m'.timerOps == m.timerOps + [Cancel(id)]
      && m'.hooks == m.hooks + [Exited(Hang), Entered(Idle)]
  {
  }

  /** A CallInit for the call's group in HANG, from any sender, takes the floor and re-enters INIT. */
  lemma HangCallInitTakesFloor(cfg: Config, m: Machine, p: Packet, from: Endpoint, t: Clock)
    requires m.state == Hang && p.CallInit? && p.target == m.info.target
    ensures var m' := OnPacket(cfg, m, p, from, t);
      && m'.state == Init
      && m'.info == CallInfo(Some(from), p.sequence, p.source, p.target)
      && m'.callInitSeq == m.callInitSeq
      && m'.forwarded == m.forwarded + [p]
      && m'.flywheel == Some(m.timerSeed + 1)
      && m'.initTimer == Some(m.timerSeed + 2)
      && m'.timerOps == m.timerOps + CancelOf(m.flywheel)
           + [Schedule(m.timerSeed + 1, cfg.flywheelPeriod), Schedule(m.timerSeed + 2, cfg.packetInterval)]
      && m'.hooks == m.hooks + [Exited(Hang), Entered(Init)]
  {
  }

  /** CallData in HANG from the recorded address is forwarded and re-arms the flywheel with the hang period. */
  lemma HangCallDataExtendsHang(cfg: Config, m: Machine, p: Packet, from: Endpoint, t: Clock)
    requires m.state == Hang && p.CallData? && m.info.sender == Some(from)
    ensures var m' := OnPacket(cfg, m, p, from, t);
      && m'.state == Hang
      && m'.info == m.info
      && m'.forwarded == m.forwarded + [p]
      && m'.flywheel == Some(m.timerSeed + 1)
      && m'.timerOps == m.timerOps + CancelOf(m.flywheel) + [Schedule(m.timerSeed + 1, cfg.hangPeriod)]
      && m'.hooks == m.hooks
  {
  }

  /**
   * A CallTerm in HANG from the recorded address records its sequences, is
   * forwarded, and arms HANG's transmit task, which the timer refuses when
   * its delay is negative.
   */
  lemma HangCallTermArmsTx(cfg: Config, m: Machine, p: Packet, from: Endpoint, t: Clock)
    requires m.state == Hang && p.CallTerm? && m.info.sender == Some(from)
    ensures var m' := OnPacket(cfg, m, p, from, t);
      && m'.state == Hang
      && m'.info == m.info
      && m'.callInitSeq == m.callInitSeq
      && m'.callTermSeq == p.sequence && m'.callTermAudioSeq == p.audioSeq
      && m'.forwarded == m.forwarded + [p]
      && m'.flywheel == m.flywheel
      && m'.hangTimer == Some(m.timerSeed + 1)
      && m'.timerOps == m.timerOps + [
           var d := TxDelay(cfg, t.atForward, t.atRearm);
           if d >= 0 then Schedule(m.timerSeed + 1, d) else Refused(m.timerSeed + 1, d)]
      && m'.hooks == m.hooks
  {
  }

  /**
   * HANG drops a CallInit for another group and CallData or CallTerm from
   * another address; the ids of CallData and CallTerm are not checked.
   */
  lemma HangDropsOthers(cfg: Config, m: Machine, p: Packet, from: Endpoint, t: Clock)
    requires m.state == Hang
    ensures p.CallInit? && p.target != m.info.target ==> OnPacket(cfg, m, p, from, t) == m
    ensures (p.CallData? || p.CallTerm?) && m.info.sender != Some(from) ==> OnPacket(cfg, m, p, from, t) == m
  {
  }

  /**
   * HANG's transmit task firing synthesises a CallTerm whose sequence is
   * the next value of the CallInit counter and whose audio sequence is the
   * next of its own, and re-arms the task (refused by the timer when the
   * delay is negative).
   */
  lemma HangTimerSynthesisesCallTerm(cfg: Config, m: Machine, t: Clock)
    requires Inv(m) && m.state == Hang && m.hangTimer.Some?
    ensures var m' := OnTimer(cfg, m, m.hangTimer.value, t);
      && m'.state == Hang
      && m'.info == m.info
      && m'.callInitSeq == Inc(m.callInitSeq)
      && m'.callTermAudioSeq == Inc(m.callTermAudioSeq)
      && m'.forwarded == m.forwarded
           + [CallTerm(m.info.source, m.info.target, Inc(m.callInitSeq), Inc(m.callTermAudioSeq), 0)]
      && m'.flywheel == m.flywheel
      && m'.hangTimer == Some(m.timerSeed + 1)
      && m'.timerOps == m.timerOps + [
           var d := TxDelay(cfg, t.atForward, t.atRearm);
           if d >= 0 then Schedule(m.timerSeed + 1, d) else Refused(m.timerSeed + 1, d)]
      && m'.hooks == m.hooks
  {
  }

  /**
   * One firing of HANG's own transmit task written out: the next CallTerm,
   * then the re-arm. HangFireIsOnTimer shows it is what OnTimer does in HANG.
   */
  function HangFire(cfg: Config, m: Machine, t: Clock): Machine {
    HangRearmTxTimer(cfg, SendCallTerm(m, t), t)
  }

  lemma HangFireIsOnTimer(cfg: Config, m: Machine, t: Clock)
    requires Inv(m) && m.state == Hang && m.hangTimer.Some?
    ensures OnTimer(cfg, m, m.hangTimer.value, t) == HangFire(cfg, m, t)
  {
  }

  lemma HangFirePreservesInv(cfg: Config, m: Machine, t: Clock)
    requires Inv(m) && m.state == Hang && m.hangTimer.Some?
    ensures Inv(HangFire(cfg, m, t))
  {
    HangFireIsOnTimer(cfg, m, t);
    OnTimerPreservesInv(cfg, m, m.hangTimer.value, t);
  }

  /** The machine after HANG's transmit task fires once per clock in `ts`, with no other input. */
  function HangTimerRun(cfg: Config, m: Machine, ts: seq<Clock>): Machine
    decreases |ts|
  {
    if |ts| == 0 || m.state != Hang || m.hangTimer.None? then m
    else HangTimerRun(cfg, HangFire(cfg, m, ts[0]), ts[1..])
  }

  /** The CallTerm messages synthesised from sequence `s` and audio sequence `a`: (s+1, a+1), (s+2, a+2), ... */
  function TermRun(info: CallInfo, s: Short, a: Short, k: nat): (r: seq<Packet>)
    ensures |r| == k
  {
    seq(k, i requires 0 <= i < k => CallTerm(info.source, info.target, ToShort(s + i + 1), ToShort(a + i + 1), 0))
  }

  lemma TermRunCons(info: CallInfo, s: Short, a: Short, k: nat)
    requires k >= 1
    ensures TermRun(info, s, a, k)
         == [CallTerm(info.source, info.target, Inc(s), Inc(a), 0)] + TermRun(info, Inc(s), Inc(a), k - 1)
  {
    var r, r' := TermRun(info, s, a, k), [CallTerm(info.source, info.target, Inc(s), Inc(a), 0)] + TermRun(info, Inc(s), Inc(a), k - 1);
    forall i | 0 < i < k ensures r[i] == r'[i] {
      TermRunShift(info, s, a, k, i);
    }
  }

  lemma TermRunShift(info: CallInfo, s: Short, a: Short, k: nat, i: nat)
    requires 0 < i < k
    ensures TermRun(info, Inc(s), Inc(a), k - 1)[i - 1] == TermRun(info, s, a, k)[i]
  {
    var s1: int, a1: int := s + 1, a + 1;
    assert Inc(s) == ToShort(s1) && Inc(a) == ToShort(a1);
    ToShortAdd(s1, i);
    ToShortAdd(a1, i);
  }

  /** Until the hang flywheel fires, k firings of HANG's transmit task keep the invariant, HANG, the call and the flywheel. */
  lemma {:induction false} HangTimerRunKeeps(cfg: Config, m: Machine, ts: seq<Clock>)
    requires Inv(m) && m.state == Hang && m.hangTimer.Some?
    ensures var m' := HangTimerRun(cfg, m, ts);
      && Inv(m') && m'.state == Hang && m'.hangTimer.Some?
      && m'.info == m.info
      && m'.flywheel == m.flywheel
    decreases |ts|
  {
    if |ts| > 0 {
      var m1 := HangFire(cfg, m, ts[0]);
      HangFirePreservesInv(cfg, m, ts[0]);
      assert m1.state == Hang && m1.hangTimer.Some? && m1.info == m.info && m1.flywheel == m.flywheel;
      HangTimerRunKeeps(cfg, m1, ts[1..]);
    }
  }

  /** The CallInit counter after k firings: advanced by k, modulo 2^16. */
  lemma {:induction false} HangTimerRunInitSeq(cfg: Config, m: Machine, ts: seq<Clock>)
    requires Inv(m) && m.state == Hang && m.hangTimer.Some?
    ensures HangTimerRun(cfg, m, ts).callInitSeq == ToShort(m.callInitSeq + |ts|)
    decreases |ts|
  {
    var s: int := m.callInitSeq;
    if |ts| > 0 {
      var m1 := HangFire(cfg, m, ts[0]);
      HangFirePreservesInv(cfg, m, ts[0]);
      assert m1.state == Hang && m1.hangTimer.Some? && m1.callInitSeq == ToShort(s + 1);
      HangTimerRunInitSeq(cfg, m1, ts[1..]);
      ToShortAdd(s + 1, |ts| - 1);
    } else {
      assert ToShort(s) == s;
    }
  }

  /** The CallTerm audio counter after k firings: advanced by k, modulo 2^16. */
  lemma {:induction false} HangTimerRunAudio(cfg: Config, m: Machine, ts: seq<Clock>)
    requires Inv(m) && m.state == Hang && m.hangTimer.Some?
    ensures HangTimerRun(cfg, m, ts).callTermAudioSeq == ToShort(m.callTermAudioSeq + |ts|)
    decreases |ts|
  {
    var a: int := m.callTermAudioSeq;
    if |ts| > 0 {
      var m1 := HangFire(cfg, m, ts[0]);
      HangFirePreservesInv(cfg, m, ts[0]);
      assert m1.state == Hang && m1.hangTimer.Some? && m1.callTermAudioSeq == ToShort(a + 1);
      HangTimerRunAudio(cfg, m1, ts[1..]);
      ToShortAdd(a + 1, |ts| - 1);
    } else {
      assert ToShort(a) == a;
    }
  }

  /** The messages of k firings: exactly k CallTerms continuing both counters, in order. */
  lemma {:induction false} HangTimerRunForwarded(cfg: Config, m: Machine, ts: seq<Clock>)
    requires Inv(m) && m.state == Hang && m.hangTimer.Some?
    ensures HangTimerRun(cfg, m, ts).forwarded
         == m.forwarded + TermRun(m.info, m.callInitSeq, m.callTermAudioSeq, |ts|)
    decreases |ts|
  {
    var s, a := m.callInitSeq, m.callTermAudioSeq;
    if |ts| == 0 {
      assert TermRun(m.info, s, a, 0) == [];
    } else {
      var m1 := HangFire(cfg, m, ts[0]);
      HangFirePreservesInv(cfg, m, ts[0]);
      assert m1.state == Hang && m1.hangTimer.Some? && m1.info == m.info;
      assert m1.callInitSeq == Inc(s) && m1.callTermAudioSeq == Inc(a);
      assert m1.forwarded == m.forwarded + [CallTerm(m.info.source, m.info.target, Inc(s), Inc(a), 0)];
      TermRunCons(m.info, s, a, |ts|);
      HangTimerRunForwarded(cfg, m1, ts[1..]);
    }
  }

  /**
   * Until the hang flywheel fires, k firings of HANG's transmit task send
   * exactly k CallTerms whose sequence numbers continue the CallInit counter
   * and whose audio sequences continue the CallTerm counter, in order; the
   * machine stays in HANG and the flywheel is not touched.
   */
  lemma HangTimerRunTrace(cfg: Config, m: Machine, ts: seq<Clock>)
    requires Inv(m) && m.state == Hang && m.hangTimer.Some?
    ensures var m' := HangTimerRun(cfg, m, ts);
      && Inv(m') && m'.state == Hang && m'.hangTimer.Some?
      && m'.info == m.info
      && m'.flywheel == m.flywheel
      && m'.callInitSeq == ToShort(m.callInitSeq + |ts|)
      && m'.callTermAudioSeq == ToShort(m.callTermAudioSeq + |ts|)
      && m'.forwarded == m.forwarded + TermRun(m.info, m.callInitSeq, m.callTermAudioSeq, |ts|)
  {
    HangTimerRunKeeps(cfg, m, ts);
    HangTimerRunInitSeq(cfg, m, ts);
    HangTimerRunAudio(cfg, m, ts);
    HangTimerRunForwarded(cfg, m, ts);
  }
}
