/**
 * Properties of the newer call state machine (module RepeatorCallModel):
 * the invariant it keeps, what each state does with each packet and timer,
 * the synthesis of CallInit while the caller is silent in INIT, and the
 * teardown sequence of HANG.
 */
module RepeatorCallProperties {
  import opened Protocol
  import opened RepeatorCallModel

  // ----------------------------------------------------------- invariant

  /** A task reference that, when set, names a task already created. */
  predicate Issued(m: Machine, task: Option<nat>) {
    task.Some? ==> 1 <= task.value <= m.timerSeed
  }

  /**
   * What holds between events: every held task was created, the INIT
   * transmit task differs from the flywheel, INIT (and only INIT) holds its
   * transmit task, HANG (and only HANG) holds its own, INIT and TXING hold a
   * flywheel, and outside IDLE the transmitter's address is known.
   */
  predicate Inv(m: Machine) {
    && Issued(m, m.flywheel) && Issued(m, m.initTimer) && Issued(m, m.hangTimer)
    && (m.initTimer.Some? ==> m.flywheel != m.initTimer)
    && (m.initTimer.Some? <==> m.state == Init)
    && (m.hangTimer.Some? <==> m.state == Hang)
    && (m.state == Init || m.state == Txing ==> m.flywheel.Some?)
    && (m.state != Idle ==> m.info.sender.Some?)
  }

  lemma FreshInv()
    ensures Inv(Fresh) && Fresh.state == Idle && Fresh.hooks == [Entered(Idle)]
  {
  }

  lemma OnPacketPreservesInv(cfg: Config, m: Machine, p: Packet, from: Endpoint, t: Clock)
    requires Inv(m)
    ensures Inv(OnPacket(cfg, m, p, from, t))
  {
  }

  lemma OnTimerPreservesInv(cfg: Config, m: Machine, id: nat, t: Clock)
    requires Inv(m)
    ensures Inv(OnTimer(cfg, m, id, t))
  {
  }

  // ------------------------------------------------------- context guard

  /**
   * The entry/exit guard: an event runs the old state's exit and the new
   * state's entry exactly once, in that order, when and only when the state
   * changed; otherwise it runs no hook at all.
   */
  lemma OnPacketRunsHooksOnce(cfg: Config, m: Machine, p: Packet, from: Endpoint, t: Clock)
    ensures var m' := OnPacket(cfg, m, p, from, t);
      m'.hooks == m.hooks + (if m'.state != m.state then [Exited(m.state), Entered(m'.state)] else [])
  {
  }

  lemma OnTimerRunsHooksOnce(cfg: Config, m: Machine, id: nat, t: Clock)
    ensures var m' := OnTimer(cfg, m, id, t);
      m'.hooks == m.hooks + (if m'.state != m.state then [Exited(m.state), Entered(m'.state)] else [])
  {
  }

  /** A packet of any type other than the three call messages changes nothing, in every state. */
  lemma OtherPacketsIgnored(cfg: Config, m: Machine, p: Packet, from: Endpoint, t: Clock)
    requires p.Other?
    ensures OnPacket(cfg, m, p, from, t) == m
  {
  }

  // ---------------------------------------------------------------- IDLE

  /** IDLE ignores every timer and every packet but CallInit. */
  lemma IdleReactsOnlyToCallInit(cfg: Config, m: Machine, p: Packet, from: Endpoint, id: nat, t: Clock)
    requires m.state == Idle
    ensures OnTimer(cfg, m, id, t) == m
    ensures !p.CallInit? ==> OnPacket(cfg, m, p, from, t) == m
  {
  }

  /**
   * A CallInit in IDLE starts a call from its sender: the context is recorded,
   * the sequence taken over, the packet forwarded once, and INIT's entry arms
   * a fresh flywheel (cancelling a stale one) and then the transmit timer.
   */
  lemma IdleCallInitStartsCall(cfg: Config, m: Machine, p: Packet, from: Endpoint, t: Clock)
    requires m.state == Idle && p.CallInit?
    ensures var m' := OnPacket(cfg, m, p, from, t);
      && m'.state == Init
      && m'.info == CallInfo(Some(from), p.sequence, p.source, p.target)
      && m'.callInitSeq == p.sequence
      && m'.forwarded == m.forwarded + [p]
      && m'.lastTime == t.atForward
      && m'.timerSeed == m.timerSeed + 2
      && m'.flywheel == Some(m.timerSeed + 1)
      && m'.initTimer == Some(m.timerSeed + 2)
      && m'.timerOps == m.timerOps + CancelOf(m.flywheel)
           + [Schedule(m.timerSeed + 1, cfg.flywheelPeriod), Schedule(m.timerSeed + 2, cfg.packetInterval)]
      && m'.hooks == m.hooks + [Exited(Idle), Entered(Init)]
  {
  }

  // ------------------------------------------------------- INIT and TXING

  /** In INIT and TXING a packet not from the recorded address, source and target changes nothing. */
  lemma CallerPinnedInInitAndTxing(cfg: Config, m: Machine, p: Packet, from: Endpoint, t: Clock)
    requires m.state == Init || m.state == Txing
    requires !FromCaller(m, p, from)
    ensures OnPacket(cfg, m, p, from, t) == m
  {
  }

  /**
   * A repeated CallInit from the caller in INIT is forwarded, its sequence
   * taken over, the transmit timer re-armed with a non-negative delay (the
   * previous transmit task is left scheduled) and the flywheel re-armed; the
   * call context is not touched.
   */
  lemma InitCallInitRearms(cfg: Config, m: Machine, p: Packet, from: Endpoint, t: Clock)
    requires m.state == Init && p.CallInit? && FromCaller(m, p, from)
    ensures var m' := OnPacket(cfg, m, p, from, t);
      && m'.state == Init
      && m'.info == m.info
      && m'.callInitSeq == p.sequence
      && m'.forwarded == m.forwarded + [p]
      && m'.initTimer == Some(m.timerSeed + 1)
      && m'.flywheel == Some(m.timerSeed + 2)
      && m'.timerOps == m.timerOps + [Schedule(m.timerSeed + 1, InitTxDelay(cfg, t.atForward, t.atRearm))]
           + CancelOf(m.flywheel) + [Schedule(m.timerSeed + 2, cfg.flywheelPeriod)]
      && m'.timerOps[|m.timerOps|].delay >= 0
      && m'.hooks == m.hooks
  {
  }

  /** CallData from the caller in INIT is forwarded and moves to TXING, whose entry re-arms the flywheel. */
  lemma InitCallDataStartsVoice(cfg: Config, m: Machine, p: Packet, from: Endpoint, t: Clock)
    requires m.state == Init && p.CallData? && FromCaller(m, p, from)
    ensures var m' := OnPacket(cfg, m, p, from, t);
      && m'.state == Txing
      && m'.info == m.info
      && m'.forwarded == m.forwarded + [p]
      && m'.initTimer == None
      && m'.flywheel == Some(m.timerSeed + 1)
      && m'.timerOps == m.timerOps + CancelOf(m.initTimer) + CancelOf(m.flywheel)
           + [Schedule(m.timerSeed + 1, cfg.flywheelPeriod)]
      && m'.hooks == m.hooks + [Exited(Init), Entered(Txing)]
  {
  }

  /**
   * Entering HANG from INIT or TXING: the countdown is set to N and at once
   * decremented by the first synthesised CallTerm, which is the only packet
   * forwarded; HANG's transmit timer is armed.
   */
  predicate EnteredHang(cfg: Config, m: Machine, m': Machine, t: Clock) {
    && m'.state == Hang
    && m'.info == m.info
    && m'.hangCountdown == Dec(cfg.hangCountdown)
    && m'.callTermAudioSeq == Inc(m.callTermAudioSeq)
    && m'.forwarded == m.forwarded + [SynthCallTerm(m.info, Inc(m.callTermAudioSeq), Dec(cfg.hangCountdown))]
    && m'.lastTime == t.atForward
    && m'.initTimer == None
    && m'.hangTimer == Some(m.timerSeed + 1)
    && m'.timerSeed == m.timerSeed + 1
    && m'.hooks == m.hooks + [Exited(m.state), Entered(Hang)]
  }

  /** A CallTerm from the caller in INIT or TXING records its sequence and enters HANG without forwarding it. */
  lemma CallTermEntersHang(cfg: Config, m: Machine, p: Packet, from: Endpoint, t: Clock)
    requires Inv(m) && (m.state == Init || m.state == Txing)
    requires p.CallTerm? && FromCaller(m, p, from)
    ensures var m' := OnPacket(cfg, m, p, from, t);
      EnteredHang(cfg, m, m', t) && m'.callTermSeq == p.sequence
  {
  }

  /** The flywheel firing in INIT or TXING enters HANG. */
  lemma FlywheelEntersHang(cfg: Config, m: Machine, id: nat, t: Clock)
    requires Inv(m) && (m.state == Init || m.state == Txing)
    requires m.flywheel == Some(id)
    ensures EnteredHang(cfg, m, OnTimer(cfg, m, id, t), t)
  {
  }

  /** CallInit from the caller in TXING is forwarded and re-arms the flywheel, staying in TXING. */
  lemma TxingCallInitKeepsCall(cfg: Config, m: Machine, p: Packet, from: Endpoint, t: Clock)
    requires m.state == Txing && p.CallInit? && FromCaller(m, p, from)
    ensures var m' := OnPacket(cfg, m, p, from, t);
      && m'.state == Txing
      && m'.info == m.info
      && m'.callInitSeq == m.callInitSeq
      && m'.forwarded == m.forwarded + [p]
      && m'.flywheel == Some(m.timerSeed + 1)
      && m'.timerOps == m.timerOps + CancelOf(m.flywheel) + [Schedule(m.timerSeed + 1, cfg.flywheelPeriod)]
      && m'.hooks == m.hooks
  {
  }

  /** CallData from the caller in TXING records its sequence, is forwarded and re-arms the flywheel. */
  lemma TxingCallDataKeepsCall(cfg: Config, m: Machine, p: Packet, from: Endpoint, t: Clock)
    requires m.state == Txing && p.CallData? && FromCaller(m, p, from)
    ensures var m' := OnPacket(cfg, m, p, from, t);
      && m'.state == Txing
      && m'.info == m.info
      && m'.callTermSeq == p.sequence
      && m'.forwarded == m.forwarded + [p]
      && m'.flywheel == Some(m.timerSeed + 1)
      && m'.timerOps == m.timerOps + CancelOf(m.flywheel) + [Schedule(m.timerSeed + 1, cfg.flywheelPeriod)]
      && m'.hooks == m.hooks
  {
  }

  // ------------------------------------------------------ INIT synthesis

  /**
   * The tasks a state's node compares an expiry against: INIT the flywheel
   * and its transmit task, TXING the flywheel, HANG its transmit task.
   */
  function Armed(m: Machine): set<nat> {
    match m.state
    case Idle => {}
    case Init =>
      (if m.flywheel.Some? then {m.flywheel.value} else {}) + (if m.initTimer.Some? then {m.initTimer.value} else {})
    case Txing => if m.flywheel.Some? then {m.flywheel.value} else {}
    case Hang => if m.hangTimer.Some? then {m.hangTimer.value} else {}
  }

  /** An expiry of a task the current state does not hold (a stale or cancelled one) changes nothing. */
  lemma StaleTimerIgnored(cfg: Config, m: Machine, id: nat, t: Clock)
    requires id !in Armed(m)
    ensures OnTimer(cfg, m, id, t) == m
  {
  }

  /**
   * The INIT transmit task firing synthesises the next CallInit of the
   * call (sequence one more, wrapping) and re-arms itself with a
   * non-negative delay; the flywheel is left alone.
   */
  lemma InitTimerSynthesisesCallInit(cfg: Config, m: Machine, t: Clock)
    requires Inv(m) && m.state == Init
    ensures var m' := OnTimer(cfg, m, m.initTimer.value, t);
      && m'.state == Init
      && m'.info == m.info
      && m'.callInitSeq == Inc(m.callInitSeq)
      && m'.forwarded == m.forwarded + [CallInit(m.info.source, m.info.target, Inc(m.callInitSeq))]
      && m'.flywheel == m.flywheel
      && m'.initTimer == Some(m.timerSeed + 1)
      && m'.timerOps == m.timerOps + [Schedule(m.timerSeed + 1, InitTxDelay(cfg, t.atForward, t.atRearm))]
      && m'.hooks == m.hooks
  {
  }

  /**
   * One firing of INIT's own transmit task written out: the next CallInit,
   * then the re-arm. InitFireIsOnTimer shows it is what OnTimer does in INIT.
   */
  function InitFire(cfg: Config, m: Machine, t: Clock): Machine {
    InitRearmTxTimer(cfg, SendCallInit(m, t), t)
  }

  lemma InitFireIsOnTimer(cfg: Config, m: Machine, t: Clock)
    requires Inv(m) && m.state == Init
    ensures OnTimer(cfg, m, m.initTimer.value, t) == InitFire(cfg, m, t)
  {
  }

  lemma InitFirePreservesInv(cfg: Config, m: Machine, t: Clock)
    requires Inv(m) && m.state == Init
    ensures Inv(InitFire(cfg, m, t))
  {
    InitFireIsOnTimer(cfg, m, t);
    OnTimerPreservesInv(cfg, m, m.initTimer.value, t);
  }

  /** The machine after INIT's transmit task fires once per clock in `ts`, with no other input. */
  function InitTimerRun(cfg: Config, m: Machine, ts: seq<Clock>): Machine
    decreases |ts|
  {
    if |ts| == 0 || m.state != Init || m.initTimer.None? then m
    else InitTimerRun(cfg, InitFire(cfg, m, ts[0]), ts[1..])
  }

  /**
   * While the caller is silent in INIT, k firings of the transmit task emit
   * exactly the k CallInit messages following the last sequence number, in
   * order, and leave the machine in INIT with its flywheel unchanged.
   */
  lemma {:induction false} InitTimerRunTrace(cfg: Config, m: Machine, ts: seq<Clock>)
    requires Inv(m) && m.state == Init
    ensures var m' := InitTimerRun(cfg, m, ts);
      && Inv(m') && m'.state == Init
      && m'.info == m.info
      && m'.flywheel == m.flywheel
      && m'.callInitSeq == ToShort(m.callInitSeq + |ts|)
      && m'.forwarded == m.forwarded + CallInitRun(m.info, m.callInitSeq, |ts|)
      && m'.timerSeed == m.timerSeed + |ts|
    decreases |ts|
  {
    if |ts| == 0 {
      assert CallInitRun(m.info, m.callInitSeq, 0) == [];
    } else {
      var m1 := InitFire(cfg, m, ts[0]);
      InitFirePreservesInv(cfg, m, ts[0]);
      assert InitTimerRun(cfg, m, ts) == InitTimerRun(cfg, m1, ts[1..]);
      InitTimerRunTrace(cfg, m1, ts[1..]);
      CallInitRunCons(m.info, m.callInitSeq, |ts|);
      ToShortAdd(m.callInitSeq + 1, |ts| - 1);
    }
  }

  // ---------------------------------------------------------------- HANG

  /** A CallInit for the call's group in HANG, from any sender, takes the floor and re-enters INIT. */
  lemma HangCallInitTakesFloor(cfg: Config, m: Machine, p: Packet, from: Endpoint, t: Clock)
    requires m.state == Hang && p.CallInit? && p.target == m.info.target
    ensures var m' := OnPacket(cfg, m, p, from, t);
      && m'.state == Init
      && m'.info == CallInfo(Some(from), p.sequence, p.source, p.target)
      && m'.callInitSeq == m.callInitSeq
      && m'.forwarded == m.forwarded + [p]
      && m'.hangTimer == None
      && m'.flywheel == Some(m.timerSeed + 1)
      && m'.initTimer == Some(m.timerSeed + 2)
      && m'.timerOps == m.timerOps + CancelOf(m.hangTimer) + CancelOf(m.flywheel)
           + [Schedule(m.timerSeed + 1, cfg.flywheelPeriod), Schedule(m.timerSeed + 2, cfg.packetInterval)]
      && m'.hooks == m.hooks + [Exited(Hang), Entered(Init)]
  {
  }

  /**
   * Everything else in HANG: a CallInit for another group, CallData not
   * from the caller, every CallTerm and every other type are dropped;
   * CallData from the caller is forwarded with no other change.
   */
  lemma HangPacketsOtherwise(cfg: Config, m: Machine, p: Packet, from: Endpoint, t: Clock)
    requires m.state == Hang
    ensures p.CallInit? && p.target != m.info.target ==> OnPacket(cfg, m, p, from, t) == m
    ensures p.CallData? && !FromCaller(m, p, from) ==> OnPacket(cfg, m, p, from, t) == m
    ensures p.CallData? && FromCaller(m, p, from) ==>
              OnPacket(cfg, m, p, from, t) == m.(forwarded := m.forwarded + [p], lastTime := t.atForward)
    ensures p.CallTerm? || p.Other? ==> OnPacket(cfg, m, p, from, t) == m
  {
  }

  /**
   * HANG's transmit task firing sends the next CallTerm (audio sequence one
   * more, countdown one less); when the countdown reaches 0 the machine
   * goes to IDLE, cancelling the task, otherwise it re-arms the task.
   */
  lemma HangTimerStep(cfg: Config, m: Machine, t: Clock)
    requires Inv(m) && m.state == Hang
    ensures var m' := OnTimer(cfg, m, m.hangTimer.value, t);
      var c := Dec(m.hangCountdown);
      && m'.info == m.info
      && m'.hangCountdown == c
      && m'.callTermAudioSeq == Inc(m.callTermAudioSeq)
      && m'.forwarded == m.forwarded + [SynthCallTerm(m.info, Inc(m.callTermAudioSeq), c)]
      && (c == 0 ==>
            && m'.state == Idle && m'.hangTimer == None
            && m'.timerOps == m.timerOps + [Cancel(m.hangTimer.value)]
            && m'.hooks == m.hooks + [Exited(Hang), Entered(Idle)])
      && (c != 0 ==>
            && m'.state == Hang && m'.hangTimer == Some(m.timerSeed + 1)
            && m'.timerOps == m.timerOps + [Schedule(m.timerSeed + 1, HangTxDelay(cfg, c))]
            && m'.hooks == m.hooks)
  {
  }

  /**
   * One firing of HANG's own transmit task written out: the CallTerm, then
   * either the move to IDLE (exit hook, cancel, entry hook) or the re-arm.
   * HangFireIsOnTimer shows it is what OnTimer does in HANG.
   */
  function HangFire(cfg: Config, m: Machine, t: Clock): Machine
    requires m.hangTimer.Some?
  {
    var m1 := SendCallTerm(m, t);
    if m1.hangCountdown == 0 then
      m1.(state := Idle, hangTimer := None, timerOps := m1.timerOps + [Cancel(m.hangTimer.value)],
          hooks := m1.hooks + [Exited(Hang), Entered(Idle)])
    else HangRearmTxTimer(cfg, m1)
  }

  lemma HangFireIsOnTimer(cfg: Config, m: Machine, t: Clock)
    requires m.state == Hang && m.hangTimer.Some?
    ensures OnTimer(cfg, m, m.hangTimer.value, t) == HangFire(cfg, m, t)
  {
  }

  lemma HangFirePreservesInv(cfg: Config, m: Machine, t: Clock)
    requires Inv(m) && m.state == Hang
    ensures Inv(HangFire(cfg, m, t))
  {
    HangFireIsOnTimer(cfg, m, t);
    OnTimerPreservesInv(cfg, m, m.hangTimer.value, t);
  }

  /** The machine after HANG's transmit task fires once per clock in `ts`, with no other input. */
  function HangTimerRun(cfg: Config, m: Machine, ts: seq<Clock>): Machine
    decreases |ts|
  {
    if |ts| == 0 || m.state != Hang || m.hangTimer.None? then m
    else HangTimerRun(cfg, HangFire(cfg, m, ts[0]), ts[1..])
  }

  /** The CallTerm messages synthesised from audio sequence `a` and countdown `c`: (a+1, c-1), (a+2, c-2), ... */
  function TermRun(info: CallInfo, a: Short, c: Short, k: nat): (r: seq<Packet>)
    ensures |r| == k
  {
    seq(k, i requires 0 <= i < k => SynthCallTerm(info, ToShort(a + i + 1), ToShort(c - i - 1)))
  }

  lemma TermRunCons(info: CallInfo, a: Short, c: Short, k: nat)
    requires k >= 1
    ensures TermRun(info, a, c, k) == [SynthCallTerm(info, Inc(a), Dec(c))] + TermRun(info, Inc(a), Dec(c), k - 1)
  {
    var r, r' := TermRun(info, a, c, k), [SynthCallTerm(info, Inc(a), Dec(c))] + TermRun(info, Inc(a), Dec(c), k - 1);
    forall i | 0 < i < k ensures r[i] == r'[i] {
      TermRunShift(info, a, c, k, i);
    }
  }

  lemma TermRunShift(info: CallInfo, a: Short, c: Short, k: nat, i: nat)
    requires 0 < i < k
    ensures TermRun(info, Inc(a), Dec(c), k - 1)[i - 1] == TermRun(info, a, c, k)[i]
  {
    var a1: int, c1: int := a + 1, c - 1;
    assert Inc(a) == ToShort(a1) && Dec(c) == ToShort(c1);
    var j: int := i;
    ToShortAdd(a1, j);
    ToShortAdd(c1, -j);
  }

  /**
   * With a countdown of c >= 1 left in HANG and no input, k <= c firings of
   * the transmit task keep the invariant and the call and count the
   * countdown down by k; the machine is in IDLE exactly when k == c.
   */
  lemma {:induction false} HangTimerRunCounters(cfg: Config, m: Machine, ts: seq<Clock>)
    requires Inv(m) && m.state == Hang
    requires 1 <= m.hangCountdown && |ts| <= m.hangCountdown
    ensures var m' := HangTimerRun(cfg, m, ts);
      && Inv(m')
      && m'.state == (if |ts| == m.hangCountdown then Idle else Hang)
      && m'.info == m.info
      && m'.hangCountdown == m.hangCountdown - |ts|
    decreases |ts|
  {
    if |ts| > 0 {
      var m1 := HangFire(cfg, m, ts[0]);
      HangFirePreservesInv(cfg, m, ts[0]);
      assert m1.hangCountdown == m.hangCountdown - 1 && m1.info == m.info;
      assert m1.state == (if m.hangCountdown == 1 then Idle else Hang);
      if m.hangCountdown == 1 {
        assert HangTimerRun(cfg, m1, ts[1..]) == m1;
      } else {
        HangTimerRunCounters(cfg, m1, ts[1..]);
      }
    }
  }

  /** Under the same conditions, the audio sequence goes up by k, modulo 2^16. */
  lemma {:induction false} HangTimerRunAudio(cfg: Config, m: Machine, ts: seq<Clock>)
    requires Inv(m) && m.state == Hang
    requires 1 <= m.hangCountdown && |ts| <= m.hangCountdown
    ensures HangTimerRun(cfg, m, ts).callTermAudioSeq == ToShort(m.callTermAudioSeq + |ts|)
    decreases |ts|
  {
    var a: int := m.callTermAudioSeq;
    if |ts| > 0 {
      var m1 := HangFire(cfg, m, ts[0]);
      HangFirePreservesInv(cfg, m, ts[0]);
      assert m1.hangCountdown == m.hangCountdown - 1;
      assert m1.state == (if m.hangCountdown == 1 then Idle else Hang);
      assert m1.callTermAudioSeq == ToShort(a + 1);
      if m.hangCountdown == 1 {
        assert HangTimerRun(cfg, m1, ts[1..]) == m1;
      } else {
        HangTimerRunAudio(cfg, m1, ts[1..]);
        ToShortAdd(a + 1, |ts| - 1);
      }
    } else {
      assert ToShort(a) == a;
    }
  }

  /**
   * Under the same conditions, those k firings send exactly the next k
   * CallTerms, in order, and nothing else.
   */
  lemma {:induction false} HangTimerRunForwarded(cfg: Config, m: Machine, ts: seq<Clock>)
    requires Inv(m) && m.state == Hang
    requires 1 <= m.hangCountdown && |ts| <= m.hangCountdown
    ensures HangTimerRun(cfg, m, ts).forwarded
         == m.forwarded + TermRun(m.info, m.callTermAudioSeq, m.hangCountdown, |ts|)
    decreases |ts|
  {
    var a, c := m.callTermAudioSeq, m.hangCountdown;
    if |ts| == 0 {
      assert TermRun(m.info, a, c, 0) == [];
    } else {
      var m1 := HangFire(cfg, m, ts[0]);
      HangFirePreservesInv(cfg, m, ts[0]);
      assert m1.state == (if c == 1 then Idle else Hang) && m1.hangCountdown == c - 1;
      assert m1.callTermAudioSeq == Inc(a) && m1.info == m.info;
      assert HangTimerRun(cfg, m, ts) == HangTimerRun(cfg, m1, ts[1..]);
      TermRunCons(m.info, a, c, |ts|);
      var rest := TermRun(m.info, Inc(a), Dec(c), |ts| - 1);
      assert m1.forwarded == m.forwarded + [SynthCallTerm(m.info, Inc(a), Dec(c))];
      if c == 1 {
        assert |ts| == 1 && rest == [];
        assert HangTimerRun(cfg, m1, ts[1..]) == m1;
      } else {
        HangTimerRunForwarded(cfg, m1, ts[1..]);
      }
    }
  }

  /** The two halves together: the state, counters and messages after k firings in HANG. */
  lemma HangTimerRunTrace(cfg: Config, m: Machine, ts: seq<Clock>)
    requires Inv(m) && m.state == Hang
    requires 1 <= m.hangCountdown && |ts| <= m.hangCountdown
    ensures var m' := HangTimerRun(cfg, m, ts);
      && Inv(m')
      && m'.state == (if |ts| == m.hangCountdown then Idle else Hang)
      && m'.info == m.info
      && m'.hangCountdown == m.hangCountdown - |ts|
      && m'.callTermAudioSeq == ToShort(m.callTermAudioSeq + |ts|)
      && m'.forwarded == m.forwarded + TermRun(m.info, m.callTermAudioSeq, m.hangCountdown, |ts|)
  {
    HangTimerRunCounters(cfg, m, ts);
    HangTimerRunAudio(cfg, m, ts);
    HangTimerRunForwarded(cfg, m, ts);
  }

  /**
   * Liveness of teardown (N >= 2): once the flywheel fires in INIT or TXING
   * and nothing else arrives, N - 1 firings of HANG's transmit task bring
   * the machine to IDLE, not one earlier, and in all exactly N CallTerms are
   * sent, with countdowns N-1, N-2, ..., 0.
   */
  lemma TeardownSendsNCallTerms(cfg: Config, m: Machine, f: nat, t0: Clock, ts: seq<Clock>)
    requires Inv(m) && (m.state == Init || m.state == Txing) && m.flywheel == Some(f)
    requires cfg.hangCountdown >= 2 && |ts| == cfg.hangCountdown - 1
    ensures var h := OnTimer(cfg, m, f, t0);
      && h.state == Hang
      && (forall k :: 0 <= k < |ts| ==> HangTimerRun(cfg, h, ts[..k]).state == Hang)
      && HangTimerRun(cfg, h, ts).state == Idle
      && HangTimerRun(cfg, h, ts).forwarded
           == m.forwarded + TermRun(m.info, m.callTermAudioSeq, cfg.hangCountdown, cfg.hangCountdown)
  {
    FlywheelEntersHang(cfg, m, f, t0);
    OnTimerPreservesInv(cfg, m, f, t0);
    HangRunToIdle(cfg, m, OnTimer(cfg, m, f, t0), t0, ts);
  }

  /** From the HANG the flywheel entered, N - 1 firings stay in HANG until the last, which reaches IDLE. */
  lemma HangRunToIdle(cfg: Config, m: Machine, h: Machine, t0: Clock, ts: seq<Clock>)
    requires EnteredHang(cfg, m, h, t0) && Inv(h)
    requires cfg.hangCountdown >= 2 && |ts| == cfg.hangCountdown - 1
    ensures forall k :: 0 <= k < |ts| ==> HangTimerRun(cfg, h, ts[..k]).state == Hang
    ensures HangTimerRun(cfg, h, ts).state == Idle
    ensures HangTimerRun(cfg, h, ts).forwarded
              == m.forwarded + TermRun(m.info, m.callTermAudioSeq, cfg.hangCountdown, cfg.hangCountdown)
  {
    forall k | 0 <= k < |ts| ensures HangTimerRun(cfg, h, ts[..k]).state == Hang {
      HangTimerRunTrace(cfg, h, ts[..k]);
    }
    HangTimerRunTrace(cfg, h, ts);
    TermRunCons(m.info, m.callTermAudioSeq, cfg.hangCountdown, cfg.hangCountdown);
  }

  // ------------------------------------------ teardown with N == 1 (finding)

  /**
   * As written, with CALL_HANG_COUNTDOWN == 1 HANG's entry already brings
   * the countdown to 0, so the first firing makes it -1, sends a second
   * CallTerm and stays in HANG: the `0 == countdown` test is missed.
   */
  lemma HangCountdownOneOvershoots(cfg: Config, m: Machine, f: nat, t0: Clock, t1: Clock)
    requires Inv(m) && m.state == Txing && m.flywheel == Some(f) && cfg.hangCountdown == 1
    ensures var h := OnTimer(cfg, m, f, t0);
      && h.state == Hang && h.hangCountdown == 0 && h.hangTimer == Some(m.timerSeed + 1)
      && var h1 := OnTimer(cfg, h, m.timerSeed + 1, t1);
         h1.state == Hang && h1.hangCountdown == -1 && |h1.forwarded| == |m.forwarded| + 2
  {
  }

  /** HANG's transmit expiry as intended: when the entry's CallTerm was the last one, go to IDLE without sending. */
  function HangTimerExpiredCorrected(cfg: Config, m: Machine, id: nat, t: Clock): Machine {
    if m.hangTimer == Some(id) && m.hangCountdown == 0 then m.(state := Idle)
    else HangTimerExpired(cfg, m, id, t)
  }

  function OnTimerCorrected(cfg: Config, m: Machine, id: nat, t: Clock): Machine {
    var m1 := if m.state == Hang then HangTimerExpiredCorrected(cfg, m, id, t) else NodeTimerExpired(cfg, m, id, t);
    UpdateStateContext(cfg, m.state, m1, t)
  }

  /** HANG's own transmit task firing at each clock of `ts` in turn, with the corrected expiry. */
  function HangTimerRunCorrected(cfg: Config, m: Machine, ts: seq<Clock>): Machine
    decreases |ts|
  {
    if |ts| == 0 || m.state != Hang || m.hangTimer.None? then m
    else HangTimerRunCorrected(cfg, OnTimerCorrected(cfg, m, m.hangTimer.value, ts[0]), ts[1..])
  }

  /** While the countdown has not run out, the corrected run is the run of the code as written. */
  lemma {:induction false} CorrectedRunAgrees(cfg: Config, m: Machine, ts: seq<Clock>)
    requires Inv(m) && m.state == Hang
    requires 1 <= m.hangCountdown && |ts| <= m.hangCountdown
    ensures HangTimerRunCorrected(cfg, m, ts) == HangTimerRun(cfg, m, ts)
    decreases |ts|
  {
    if |ts| > 0 && m.hangTimer.Some? {
      var m1 := HangFire(cfg, m, ts[0]);
      CorrectedAgreesOffZero(cfg, m, m.hangTimer.value, ts[0]);
      HangFireIsOnTimer(cfg, m, ts[0]);
      HangTimerRunTrace(cfg, m, [ts[0]]);
      assert HangTimerRun(cfg, m, [ts[0]]) == HangTimerRun(cfg, m1, []);
      if m1.state == Hang {
        CorrectedRunAgrees(cfg, m1, ts[1..]);
      }
    }
  }

  /**
   * With the corrected expiry, teardown sends exactly N CallTerms for every
   * N >= 1 and reaches IDLE. For N == 1 the first firing goes to IDLE
   * without sending; for N >= 2 the corrected run of N - 1 firings reaches
   * IDLE having sent the N CallTerms, and every one of its steps is the
   * step of the code as written.
   */
  lemma TeardownCorrected(cfg: Config, m: Machine, f: nat, t0: Clock, t1: Clock, ts: seq<Clock>)
    requires Inv(m) && (m.state == Init || m.state == Txing) && m.flywheel == Some(f)
    requires cfg.hangCountdown >= 1 && |ts| == cfg.hangCountdown - 1
    ensures var h := OnTimerCorrected(cfg, m, f, t0);
      && h == OnTimer(cfg, m, f, t0)
      && h.state == Hang && h.hangTimer == Some(m.timerSeed + 1)
      && h.forwarded == m.forwarded + TermRun(m.info, m.callTermAudioSeq, cfg.hangCountdown, 1)
      && (cfg.hangCountdown == 1 ==>
            && OnTimerCorrected(cfg, h, m.timerSeed + 1, t1).state == Idle
            && OnTimerCorrected(cfg, h, m.timerSeed + 1, t1).forwarded == h.forwarded)
      && (cfg.hangCountdown >= 2 ==>
            && HangTimerRunCorrected(cfg, h, ts).state == Idle
            && HangTimerRunCorrected(cfg, h, ts).forwarded
                 == m.forwarded + TermRun(m.info, m.callTermAudioSeq, cfg.hangCountdown, cfg.hangCountdown))
      && (forall k, id, t :: 0 <= k < |ts| ==>
            OnTimerCorrected(cfg, HangTimerRun(cfg, h, ts[..k]), id, t) == OnTimer(cfg, HangTimerRun(cfg, h, ts[..k]), id, t))
  {
    var h := OnTimerCorrected(cfg, m, f, t0);
    CorrectedAgreesOffZero(cfg, m, f, t0);
    FlywheelEntersHang(cfg, m, f, t0);
    OnTimerPreservesInv(cfg, m, f, t0);
    assert TermRun(m.info, m.callTermAudioSeq, cfg.hangCountdown, 1)
        == [SynthCallTerm(m.info, Inc(m.callTermAudioSeq), Dec(cfg.hangCountdown))];
    forall k, id, t | 0 <= k < |ts|
      ensures OnTimerCorrected(cfg, HangTimerRun(cfg, h, ts[..k]), id, t) == OnTimer(cfg, HangTimerRun(cfg, h, ts[..k]), id, t)
    {
      HangTimerRunTrace(cfg, h, ts[..k]);
      CorrectedAgreesOffZero(cfg, HangTimerRun(cfg, h, ts[..k]), id, t);
    }
    if cfg.hangCountdown >= 2 {
      TeardownSendsNCallTerms(cfg, m, f, t0, ts);
      CorrectedRunAgrees(cfg, h, ts);
    }
  }

  /** The corrected expiry differs from the code as written only when HANG's countdown is already 0. */
  lemma CorrectedAgreesOffZero(cfg: Config, m: Machine, id: nat, t: Clock)
    requires m.state != Hang || m.hangCountdown != 0
    ensures OnTimerCorrected(cfg, m, id, t) == OnTimer(cfg, m, id, t)
  {
  }
}
