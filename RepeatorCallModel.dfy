/**
 * The newer per-group call state machine (repeator/CallProcessor.java) as
 * functions on a value. A `Machine` holds every field the Java object
 * updates, plus three logs: the packets handed to the repeater, the calls
 * made on the timer, and the entry/exit hooks that ran. Each function
 * below is one Java method; `OnPacket` and `OnTimer` are the two public
 * entry points, `packetReceived` and `timerExpired`.
 */
module RepeatorCallModel {
  import opened Protocol

  /** CALL_FLYWHEEL_PERIOD and CALL_PACKET_INTERVAL (milliseconds) and CALL_HANG_COUNTDOWN. */
  datatype Config = Config(flywheelPeriod: int, packetInterval: int, hangCountdown: Short)

  datatype Machine = Machine(
    state: State,                // mState
    info: CallInfo,              // mCallInfo
    callInitSeq: Short,          // mCallInitSeq
    callTermSeq: Short,          // mCallTermSeq
    callTermAudioSeq: Short,     // mCallTermAudioSeq
    hangCountdown: Short,        // mCallHangCountdown
    lastTime: int,               // mLastTime
    timerSeed: nat,              // mTimerSeed
    flywheel: Option<nat>,       // mFlywheelTimerTask
    initTimer: Option<nat>,      // StateInit.mTimerTask
    hangTimer: Option<nat>,      // StateHang.mTimerTask
    forwarded: seq<Packet>,      // every forwardToGrpMembers(proto), in order
    timerOps: seq<TimerOp>,      // every schedule / cancel, in order
    hooks: seq<Hook>)            // every entry() / exit(), in order

  /** A freshly constructed processor: IDLE, nothing armed, IDLE's entry has run. */
  const Fresh: Machine :=
    Machine(Idle, NoCall, 0, 0, 0, 0, 0, 0, None, None, None, [], [], [Entered(Idle)])

  function CancelOf(task: Option<nat>): seq<TimerOp> {
    if task.Some? then [Cancel(task.value)] else []
  }

  // ------------------------------------------------------ shared helpers

  function RecordCallInfo(m: Machine, p: Packet, from: Endpoint): Machine {
    m.(info := CallInfo(Some(from), p.sequence, p.source, p.target))
  }

  function ForwardToGrpMembers(m: Machine, p: Packet, t: Clock): Machine {
    m.(lastTime := t.atForward, forwarded := m.forwarded + [p])
  }

  /** createTimerTask: the new task's id is the incremented seed. */
  function CreateTimerTask(m: Machine): Machine {
    m.(timerSeed := m.timerSeed + 1)
  }

  function RearmFlyWheel(m: Machine, dur: int): Machine {
    var m1 := CreateTimerTask(m.(timerOps := m.timerOps + CancelOf(m.flywheel)));
    m1.(flywheel := Some(m1.timerSeed), timerOps := m1.timerOps + [Schedule(m1.timerSeed, dur)])
  }

  /** cancelFlywheel: cancel the flywheel, if any, and drop the reference (not called in this version). */
  function CancelFlywheel(m: Machine): Machine {
    m.(timerOps := m.timerOps + CancelOf(m.flywheel), flywheel := None)
  }

  function SendCallInit(m: Machine, t: Clock): Machine {
    var s := Inc(m.callInitSeq);
    ForwardToGrpMembers(m.(callInitSeq := s), CallInit(m.info.source, m.info.target, s), t)
  }

  /** The synthesised CallTerm; its sequence field is not set by this code and is 0 here. */
  function SynthCallTerm(info: CallInfo, audioSeq: Short, countdown: Short): Packet {
    CallTerm(info.source, info.target, 0, audioSeq, countdown)
  }

  function SendCallTerm(m: Machine, t: Clock): Machine {
    var a := Inc(m.callTermAudioSeq);
    var c := Dec(m.hangCountdown);
    ForwardToGrpMembers(m.(callTermAudioSeq := a, hangCountdown := c), SynthCallTerm(m.info, a, c), t)
  }

  /** validatePacket of INIT and TXING: sender address and port, source and target all match. */
  predicate FromCaller(m: Machine, p: Packet, from: Endpoint) {
    m.info.sender == Some(from) && p.source == m.info.source && p.target == m.info.target
  }

  // ---------------------------------------------------------------- IDLE

  function IdlePacketReceived(m: Machine, p: Packet, from: Endpoint, t: Clock): Machine {
    if p.CallInit? then
      ForwardToGrpMembers(RecordCallInfo(m, p, from).(callInitSeq := p.sequence), p, t).(state := Init)
    else m
  }

  // ---------------------------------------------------------------- INIT

  /** The re-armed INIT transmit delay: the interval corrected by the elapsed time, floored. */
  function InitTxDelay(cfg: Config, lastTime: int, now: int): (d: int)
    ensures d >= 0
    ensures cfg.packetInterval + TruncDivMillion(lastTime - now) >= 0 ==>
              d == cfg.packetInterval + TruncDivMillion(lastTime - now)
  {
    var raw := cfg.packetInterval + TruncDivMillion(lastTime - now);
    if raw < 0 then 1 else raw
  }

  function InitEntry(cfg: Config, m: Machine): Machine {
    var m1 := CreateTimerTask(RearmFlyWheel(m, cfg.flywheelPeriod));
    m1.(initTimer := Some(m1.timerSeed), timerOps := m1.timerOps + [Schedule(m1.timerSeed, cfg.packetInterval)])
  }

  function InitExit(m: Machine): Machine {
    m.(timerOps := m.timerOps + CancelOf(m.initTimer), initTimer := None)
  }

  function InitRearmTxTimer(cfg: Config, m: Machine, t: Clock): Machine {
    var m1 := CreateTimerTask(m);
    var delay := InitTxDelay(cfg, m1.lastTime, t.atRearm);
    m1.(initTimer := Some(m1.timerSeed), timerOps := m1.timerOps + [Schedule(m1.timerSeed, delay)])
  }

  function InitTimerExpired(cfg: Config, m: Machine, id: nat, t: Clock): Machine {
    if m.flywheel == Some(id) then m.(state := Hang)
    else if m.initTimer == Some(id) then InitRearmTxTimer(cfg, SendCallInit(m, t), t)
    else m
  }

  function InitPacketReceived(cfg: Config, m: Machine, p: Packet, from: Endpoint, t: Clock): Machine {
    if !FromCaller(m, p, from) then m
    else match p
      case CallInit(_, _, s) =>
        RearmFlyWheel(InitRearmTxTimer(cfg, ForwardToGrpMembers(m.(callInitSeq := s), p, t), t), cfg.flywheelPeriod)
      case CallData(_, _, _, _) => ForwardToGrpMembers(m, p, t).(state := Txing)
      case CallTerm(_, _, s, _, _) => m.(callTermSeq := s, state := Hang)
      case Other(_, _, _) => m
  }

  // --------------------------------------------------------------- TXING

  function TxingEntry(cfg: Config, m: Machine): Machine {
    RearmFlyWheel(m, cfg.flywheelPeriod)
  }

  function TxingTimerExpired(m: Machine, id: nat): Machine {
    if m.flywheel == Some(id) then m.(state := Hang) else m
  }

  function TxingPacketReceived(cfg: Config, m: Machine, p: Packet, from: Endpoint, t: Clock): Machine {
    if !FromCaller(m, p, from) then m
    else match p
      case CallInit(_, _, _) => RearmFlyWheel(ForwardToGrpMembers(m, p, t), cfg.flywheelPeriod)
      case CallData(_, _, s, _) =>
        RearmFlyWheel(ForwardToGrpMembers(m.(callTermSeq := s), p, t), cfg.flywheelPeriod)
      case CallTerm(_, _, s, _, _) => m.(callTermSeq := s, state := Hang)
      case Other(_, _, _) => m
  }

  // ---------------------------------------------------------------- HANG

  /** The re-armed HANG transmit delay, floored as the code does. */
  function HangTxDelay(cfg: Config, countdown: Short): (d: int)
    ensures d >= 0
    ensures TruncDivMillion((cfg.hangCountdown - countdown) * cfg.packetInterval) >= 0 ==>
              d == TruncDivMillion((cfg.hangCountdown - countdown) * cfg.packetInterval)
  {
    var raw := TruncDivMillion((cfg.hangCountdown - countdown) * cfg.packetInterval);
    if raw < 0 then 1 else raw
  }

  function HangRearmTxTimer(cfg: Config, m: Machine): Machine {
    var m1 := CreateTimerTask(m);
    m1.(hangTimer := Some(m1.timerSeed),
        timerOps := m1.timerOps + [Schedule(m1.timerSeed, HangTxDelay(cfg, m1.hangCountdown))])
  }

  function HangEntry(cfg: Config, m: Machine, t: Clock): Machine {
    HangRearmTxTimer(cfg, SendCallTerm(m.(hangCountdown := cfg.hangCountdown), t))
  }

  function HangExit(m: Machine): Machine {
    m.(timerOps := m.timerOps + CancelOf(m.hangTimer), hangTimer := None)
  }

  function HangTimerExpired(cfg: Config, m: Machine, id: nat, t: Clock): Machine {
    if m.hangTimer == Some(id) then
      var m1 := SendCallTerm(m, t);
      if m1.hangCountdown == 0 then m1.(state := Idle) else HangRearmTxTimer(cfg, m1)
    else m
  }

  /** validatePacket of HANG: a CallInit by target only; CallData and CallTerm by address and ids. */
  predicate HangAccepts(m: Machine, p: Packet, from: Endpoint) {
    match p
    case CallInit(_, _, _) => p.target == m.info.target
    case CallData(_, _, _, _) => FromCaller(m, p, from)
    case CallTerm(_, _, _, _, _) => FromCaller(m, p, from)
    case Other(_, _, _) => false
  }

  function HangPacketReceived(m: Machine, p: Packet, from: Endpoint, t: Clock): Machine {
    if !HangAccepts(m, p, from) then m
    else match p
      case CallInit(_, _, _) => ForwardToGrpMembers(RecordCallInfo(m, p, from), p, t).(state := Init)
      case CallData(_, _, _, _) => ForwardToGrpMembers(m, p, t)
      case CallTerm(_, _, _, _, _) => m
      case Other(_, _, _) => m
  }

  // ------------------------------------------------------------ dispatch

  /** `mStateNode.entry()` for the node of the current state. */
  function NodeEntry(cfg: Config, m: Machine, t: Clock): Machine {
    var m1 := m.(hooks := m.hooks + [Entered(m.state)]);
    match m.state
    case Idle => m1
    case Init => InitEntry(cfg, m1)
    case Txing => TxingEntry(cfg, m1)
    case Hang => HangEntry(cfg, m1, t)
  }

  /** `mStateNode.exit()` for the node of state `node`. */
  function NodeExit(m: Machine, node: State): Machine {
    var m1 := m.(hooks := m.hooks + [Exited(node)]);
    match node
    case Init => InitExit(m1)
    case Hang => HangExit(m1)
    case _ => m1
  }

  function NodePacketReceived(cfg: Config, m: Machine, p: Packet, from: Endpoint, t: Clock): Machine {
    match m.state
    case Idle => IdlePacketReceived(m, p, from, t)
    case Init => InitPacketReceived(cfg, m, p, from, t)
    case Txing => TxingPacketReceived(cfg, m, p, from, t)
    case Hang => HangPacketReceived(m, p, from, t)
  }

  function NodeTimerExpired(cfg: Config, m: Machine, id: nat, t: Clock): Machine {
    match m.state
    case Idle => m
    case Init => InitTimerExpired(cfg, m, id, t)
    case Txing => TxingTimerExpired(m, id)
    case Hang => HangTimerExpired(cfg, m, id, t)
  }

  /** updateStateContext: exit the saved node and enter the new one when the state changed. */
  function UpdateStateContext(cfg: Config, orig: State, m: Machine, t: Clock): Machine {
    if m.state != orig then NodeEntry(cfg, NodeExit(m, orig), t) else m
  }

  /** packetReceived: save the state, let the node handle the packet, update. */
  function OnPacket(cfg: Config, m: Machine, p: Packet, from: Endpoint, t: Clock): Machine {
    UpdateStateContext(cfg, m.state, NodePacketReceived(cfg, m, p, from, t), t)
  }

  /** timerExpired: save the state, let the node handle the expiry, update. */
  function OnTimer(cfg: Config, m: Machine, id: nat, t: Clock): Machine {
    UpdateStateContext(cfg, m.state, NodeTimerExpired(cfg, m, id, t), t)
  }
}
