/**
 * The older per-group call state machine (cloudmontain/CallProcessor.java)
 * as functions on a value, laid out as RepeatorCallModel is. It differs
 * from the newer one in what each state does: a CallTerm is forwarded,
 * HANG is timed by the flywheel (re-armed with the hang period) rather
 * than by a countdown, HANG's transmit task is armed only by a CallTerm
 * received in HANG, synthesised CallInit and CallTerm share one sequence
 * counter, and the transmit delay is not floored: a negative one makes
 * java.util.Timer throw, which ends the handler early.
 */
module CloudmontainCallModel {
  import opened Protocol

  /** CALL_FLYWHEEL_PERIOD, CALL_HANG_PERIOD and CALL_PACKET_INTERVAL (milliseconds). */
  datatype Config = Config(flywheelPeriod: int, hangPeriod: int, packetInterval: int)

  datatype Machine = Machine(
    state: State,                // mState
    info: CallInfo,              // mCallInfo (source is mSuid)
    callInitSeq: Short,          // mCallInitSeq
    callTermSeq: Short,          // mCallTermSeq
    callTermAudioSeq: Short,     // mCallTermAudioSeq
    lastTime: int,               // mLastTime
    timerSeed: nat,              // mTimerSeed
    flywheel: Option<nat>,       // mFlywheelTimerTask
    initTimer: Option<nat>,      // StateInit.mTimerTask
    hangTimer: Option<nat>,      // StateHang.mTimerTask
    forwarded: seq<Packet>,      // every forwardToGrpMembers(proto), in order
    timerOps: seq<TimerOp>,      // every schedule / cancel, in order
    hooks: seq<Hook>)            // every entry() / exit(), in order

  /** A freshly constructed processor: IDLE, nothing armed, IDLE's entry has run. */
  const Fresh: Machine :=
    Machine(Idle, NoCall, 0, 0, 0, 0, 0, None, None, None, [], [], [Entered(Idle)])

  function CancelOf(task: Option<nat>): seq<TimerOp> {
    if task.Some? then [Cancel(task.value)] else []
  }

  // ------------------------------------------------------ shared helpers

  function RecordCallInfo(m: Machine, p: Packet, from: Endpoint): Machine {
    m.(info := CallInfo(Some(from), p.sequence, p.source, p.target))
  }

  function ForwardToGrpMembers(m: Machine, p: Packet, t: Clock): Machine {
    m.(lastTime := t.atForward, forwarded := m.forwarded + [p])
  }

  /** createTimerTask: the new task's id is the incremented seed. */
  function CreateTimerTask(m: Machine): Machine {
    m.(timerSeed := m.timerSeed + 1)
  }

  function RearmFlyWheel(m: Machine, dur: int): Machine {
    var m1 := CreateTimerTask(m.(timerOps := m.timerOps + CancelOf(m.flywheel)));
    m1.(flywheel := Some(m1.timerSeed), timerOps := m1.timerOps + [Schedule(m1.timerSeed, dur)])
  }

  function CancelFlywheel(m: Machine): Machine {
    m.(timerOps := m.timerOps + CancelOf(m.flywheel), flywheel := None)
  }

  function SendCallInit(m: Machine, t: Clock): Machine {
    var s := Inc(m.callInitSeq);
    ForwardToGrpMembers(m.(callInitSeq := s), CallInit(m.info.source, m.info.target, s), t)
  }

  /**
   * The synthesised CallTerm takes its sequence number from the CallInit
   * counter and its audio sequence from the CallTerm one, both incremented;
   * its countdown field is not set by this code and is 0 here.
   */
  function SendCallTerm(m: Machine, t: Clock): Machine {
    var s := Inc(m.callInitSeq);
    var a := Inc(m.callTermAudioSeq);
    ForwardToGrpMembers(m.(callInitSeq := s, callTermAudioSeq := a),
                        CallTerm(m.info.source, m.info.target, s, a, 0), t)
  }

  /**
   * The transmit delay of both rearmTxTimer methods: the interval plus the
   * (nanosecond) time of the last forward minus the time now, with no floor.
   */
  function TxDelay(cfg: Config, lastTime: int, now: int): int {
    cfg.packetInterval + lastTime - now
  }

  /**
   * The timer call of rearmTxTimer for the task `id`: scheduled when the
   * delay is not negative, refused otherwise. A refusal throws out of the
   * handler, so whatever the handler would do next is not done.
   */
  function ScheduleTx(cfg: Config, id: nat, lastTime: int, now: int): TimerOp {
    var d := TxDelay(cfg, lastTime, now);
    if d >= 0 then Schedule(id, d) else Refused(id, d)
  }

  /** The ids validatePacket reads: those of a call message, and 0, 0 for any other type. */
  function Ids(p: Packet): (int, int) {
    if p.Other? then (0, 0) else (p.source, p.target)
  }

  /** validatePacket of INIT and TXING: the recorded address and port, the recorded suid and target. */
  predicate FromCaller(m: Machine, p: Packet, from: Endpoint) {
    m.info.sender == Some(from) && Ids(p) == (m.info.source, m.info.target)
  }

  // ---------------------------------------------------------------- IDLE

  function IdlePacketReceived(m: Machine, p: Packet, from: Endpoint, t: Clock): Machine {
    if p.CallInit? then
      ForwardToGrpMembers(RecordCallInfo(m, p, from).(callInitSeq := p.sequence), p, t).(state := Init)
    else m
  }

  // ---------------------------------------------------------------- INIT

  function InitEntry(cfg: Config, m: Machine): Machine {
    var m1 := CreateTimerTask(RearmFlyWheel(m, cfg.flywheelPeriod));
    m1.(initTimer := Some(m1.timerSeed), timerOps := m1.timerOps + [Schedule(m1.timerSeed, cfg.packetInterval)])
  }

  function InitExit(m: Machine): Machine {
    m.(timerOps := m.timerOps + CancelOf(m.initTimer), initTimer := None)
  }

  function InitRearmTxTimer(cfg: Config, m: Machine, t: Clock): Machine {
    var m1 := CreateTimerTask(m);
    m1.(initTimer := Some(m1.timerSeed),
        timerOps := m1.timerOps + [ScheduleTx(cfg, m1.timerSeed, m1.lastTime, t.atRearm)])
  }

  function InitTimerExpired(cfg: Config, m: Machine, id: nat, t: Clock): Machine {
    if m.flywheel == Some(id) then m.(state := Hang)
    else if m.initTimer == Some(id) then InitRearmTxTimer(cfg, SendCallInit(m, t), t)
    else m
  }

  function InitPacketReceived(cfg: Config, m: Machine, p: Packet, from: Endpoint, t: Clock): Machine {
    if !FromCaller(m, p, from) then m
    else match p
      case CallInit(_, _, s) =>
        var m1 := InitRearmTxTimer(cfg, ForwardToGrpMembers(m.(callInitSeq := s), p, t), t);
        if TxDelay(cfg, m1.lastTime, t.atRearm) >= 0 then RearmFlyWheel(m1, cfg.flywheelPeriod) else m1
      case CallData(_, _, _, _) => ForwardToGrpMembers(m, p, t).(state := Txing)
      case CallTerm(_, _, s, a, _) =>
        ForwardToGrpMembers(m.(callTermSeq := s, callTermAudioSeq := a), p, t).(state := Hang)
      case Other(_, _, _) => m
  }

  // --------------------------------------------------------------- TXING

  function TxingEntry(cfg: Config, m: Machine): Machine {
    RearmFlyWheel(m, cfg.flywheelPeriod)
  }

  function TxingTimerExpired(m: Machine, id: nat): Machine {
    if m.flywheel == Some(id) then m.(state := Hang) else m
  }

  function TxingPacketReceived(cfg: Config, m: Machine, p: Packet, from: Endpoint, t: Clock): Machine {
    if !FromCaller(m, p, from) then m
    else match p
      case CallInit(_, _, _) => RearmFlyWheel(ForwardToGrpMembers(m, p, t), cfg.flywheelPeriod)
      case CallData(_, _, s, a) =>
        RearmFlyWheel(ForwardToGrpMembers(m.(callTermSeq := s, callTermAudioSeq := a), p, t), cfg.flywheelPeriod)
      case CallTerm(_, _, s, a, _) =>
        ForwardToGrpMembers(m.(callTermSeq := s, callTermAudioSeq := a), p, t).(state := Hang)
      case Other(_, _, _) => m
  }

  // ---------------------------------------------------------------- HANG

  function HangEntry(cfg: Config, m: Machine): Machine {
    RearmFlyWheel(m, cfg.hangPeriod)
  }

  /** HANG's exit cancels the flywheel; its own transmit task is left as it is. */
  function HangExit(m: Machine): Machine {
    CancelFlywheel(m)
  }

  function HangRearmTxTimer(cfg: Config, m: Machine, t: Clock): Machine {
    var m1 := CreateTimerTask(m);
    m1.(hangTimer := Some(m1.timerSeed),
        timerOps := m1.timerOps + [ScheduleTx(cfg, m1.timerSeed, m1.lastTime, t.atRearm)])
  }

  function HangTimerExpired(cfg: Config, m: Machine, id: nat, t: Clock): Machine {
    if m.flywheel == Some(id) then m.(state := Idle)
    else if m.hangTimer == Some(id) then HangRearmTxTimer(cfg, SendCallTerm(m, t), t)
    else m
  }

  /** validatePacket of HANG: a CallInit by target only, CallData and CallTerm by address only, the rest pass. */
  predicate HangAccepts(m: Machine, p: Packet, from: Endpoint) {
    match p
    case CallInit(_, _, _) => p.target == m.info.target
    case CallData(_, _, _, _) => m.info.sender == Some(from)
    case CallTerm(_, _, _, _, _) => m.info.sender == Some(from)
    case Other(_, _, _) => true
  }

  function HangPacketReceived(cfg: Config, m: Machine, p: Packet, from: Endpoint, t: Clock): Machine {
    if !HangAccepts(m, p, from) then m
    else match p
      case CallInit(_, _, _) => ForwardToGrpMembers(RecordCallInfo(m, p, from), p, t).(state := Init)
      case CallData(_, _, _, _) => RearmFlyWheel(ForwardToGrpMembers(m, p, t), cfg.hangPeriod)
      case CallTerm(_, _, s, a, _) =>
        HangRearmTxTimer(cfg, ForwardToGrpMembers(m.(callTermSeq := s, callTermAudioSeq := a), p, t), t)
      case Other(_, _, _) => m
  }

  // ------------------------------------------------------------ dispatch

  function NodeEntry(cfg: Config, m: Machine): Machine {
    var m1 := m.(hooks := m.hooks + [Entered(m.state)]);
    match m.state
    case Idle => m1
    case Init => InitEntry(cfg, m1)
    case Txing => TxingEntry(cfg, m1)
    case Hang => HangEntry(cfg, m1)
  }

  function NodeExit(m: Machine, node: State): Machine {
    var m1 := m.(hooks := m.hooks + [Exited(node)]);
    match node
    case Init => InitExit(m1)
    case Hang => HangExit(m1)
    case _ => m1
  }

  function NodePacketReceived(cfg: Config, m: Machine, p: Packet, from: Endpoint, t: Clock): Machine {
    match m.state
    case Idle => IdlePacketReceived(m, p, from, t)
    case Init => InitPacketReceived(cfg, m, p, from, t)
    case Txing => TxingPacketReceived(cfg, m, p, from, t)
    case Hang => HangPacketReceived(cfg, m, p, from, t)
  }

  function NodeTimerExpired(cfg: Config, m: Machine, id: nat, t: Clock): Machine {
    match m.state
    case Idle => m
    case Init => InitTimerExpired(cfg, m, id, t)
    case Txing => TxingTimerExpired(m, id)
    case Hang => HangTimerExpired(cfg, m, id, t)
  }

  function UpdateStateContext(cfg: Config, orig: State, m: Machine): Machine {
    if m.state != orig then NodeEntry(cfg, NodeExit(m, orig)) else m
  }

  function OnPacket(cfg: Config, m: Machine, p: Packet, from: Endpoint, t: Clock): Machine {
    UpdateStateContext(cfg, m.state, NodePacketReceived(cfg, m, p, from, t))
  }

  function OnTimer(cfg: Config, m: Machine, id: nat, t: Clock): Machine {
    UpdateStateContext(cfg, m.state, NodeTimerExpired(cfg, m, id, t))
  }
}
