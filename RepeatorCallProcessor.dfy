/**
 * The newer call processor (repeator/CallProcessor.java) as an object whose
 * methods update its fields in place, one method per Java method. The four
 * state nodes are the `stateNode` field together with the per-state
 * methods; each node's own `mTimerTask` is a field of its own here
 * (`initTimerTask`, `hangTimerTask`). Every method is proved to compute what
 * the matching function of RepeatorCallModel computes, so the properties
 * proved in RepeatorCallProperties hold of the object.
 */
module RepeatorCallProcessor {
  import opened Protocol
  import opened Membership
  import M = RepeatorCallModel
  import P = RepeatorCallProperties

  class CallProcessor {
    const cfg: M.Config
    /** mOnlineSubs: the roster taken when the processor is created. */
    const onlineSubs: seq<OnlineRecord>

    var state: State                      // mState
    var stateOrig: State                  // mStateOrig
    var stateNode: State                  // mStateNode, named by the state it was looked up for
    var callInfo: CallInfo                // mCallInfo
    var callInitSeq: Short                // mCallInitSeq
    var callTermSeq: Short                // mCallTermSeq
    var callTermAudioSeq: Short           // mCallTermAudioSeq
    var callHangCountdown: Short          // mCallHangCountdown
    var lastTime: int                     // mLastTime
    var timerSeed: nat                    // mTimerSeed
    var flywheelTimerTask: Option<nat>    // mFlywheelTimerTask
    var initTimerTask: Option<nat>        // StateInit.mTimerTask
    var hangTimerTask: Option<nat>        // StateHang.mTimerTask
    ghost var forwarded: seq<Packet>      // the packets passed to mRptr.repeat
    ghost var timerOps: seq<TimerOp>      // the calls on mTimer and on tasks
    ghost var hooks: seq<Hook>            // the entry()/exit() calls

    ghost function Snapshot(): M.Machine
      reads this
    {
      M.Machine(state, callInfo, callInitSeq, callTermSeq, callTermAudioSeq, callHangCountdown,
                lastTime, timerSeed, flywheelTimerTask, initTimerTask, hangTimerTask,
                forwarded, timerOps, hooks)
    }

    /** Between events the node is the current state's and the model's invariant holds. */
    ghost predicate Valid()
      reads this
    {
      stateNode == state && P.Inv(Snapshot())
    }

    /** The constructor's initializeSM() and the IDLE node's entry(), which only logs. */
    constructor (cfg: M.Config, onlineSubs: seq<OnlineRecord>)
      ensures Valid() && Snapshot() == M.Fresh
      ensures this.cfg == cfg && this.onlineSubs == onlineSubs
    {
      this.cfg := cfg;
      this.onlineSubs := onlineSubs;
      state, stateOrig, stateNode := Idle, Idle, Idle;
      callInfo := NoCall;
      callInitSeq, callTermSeq, callTermAudioSeq, callHangCountdown := 0, 0, 0, 0;
      lastTime, timerSeed := 0, 0;
      flywheelTimerTask, initTimerTask, hangTimerTask := None, None, None;
      forwarded, timerOps := [], [];
      hooks := [Entered(Idle)];
    }

    // ------------------------------------------------------------ events

    method PacketReceived(p: Packet, from: Endpoint, t: Clock)
      requires Valid()
      modifies this
      ensures Valid() && Snapshot() == M.OnPacket(cfg, old(Snapshot()), p, from, t)
    {
      SaveStateContext();
      NodePacketReceived(p, from, t);
      UpdateStateContext(t);
      P.OnPacketPreservesInv(cfg, old(Snapshot()), p, from, t);
    }

    method TimerExpired(id: nat, t: Clock)
      requires Valid()
      modifies this
      ensures Valid() && Snapshot() == M.OnTimer(cfg, old(Snapshot()), id, t)
    {
      SaveStateContext();
      NodeTimerExpired(id, t);
      UpdateStateContext(t);
      P.OnTimerPreservesInv(cfg, old(Snapshot()), id, t);
    }

    method SaveStateContext()
      modifies this
      ensures stateOrig == state && stateNode == old(stateNode) && Snapshot() == old(Snapshot())
    {
      stateOrig := state;
    }

    method UpdateStateContext(t: Clock)
      requires stateNode == stateOrig
      modifies this
      ensures stateNode == state && stateOrig == old(stateOrig)
      ensures Snapshot() == M.UpdateStateContext(cfg, old(stateOrig), old(Snapshot()), t)
    {
      if state != stateOrig {
        NodeExit();
        stateNode := state;
        NodeEntry(t);
      }
    }

    // ---------------------------------------------------------- dispatch

    method NodeEntry(t: Clock)
      requires stateNode == state
      modifies this
      ensures stateNode == old(stateNode) && stateOrig == old(stateOrig)
      ensures Snapshot() == M.NodeEntry(cfg, old(Snapshot()), t)
    {
      hooks := hooks + [Entered(stateNode)];
      match stateNode
      case Idle =>
      case Init => InitEntry();
      case Txing => TxingEntry();
      case Hang => HangEntry(t);
    }

    method NodeExit()
      modifies this
      ensures stateNode == old(stateNode) && stateOrig == old(stateOrig)
      ensures Snapshot() == M.NodeExit(old(Snapshot()), old(stateNode))
    {
      hooks := hooks + [Exited(stateNode)];
      match stateNode
      case Init => InitExit();
      case Hang => HangExit();
      case _ =>
    }

    method NodePacketReceived(p: Packet, from: Endpoint, t: Clock)
      requires stateNode == state
      modifies this
      ensures stateNode == old(stateNode) && stateOrig == old(stateOrig)
      ensures Snapshot() == M.NodePacketReceived(cfg, old(Snapshot()), p, from, t)
    {
      match stateNode
      case Idle => IdlePacketReceived(p, from, t);
      case Init => InitPacketReceived(p, from, t);
      case Txing => TxingPacketReceived(p, from, t);
      case Hang => HangPacketReceived(p, from, t);
    }

    method NodeTimerExpired(id: nat, t: Clock)
      requires stateNode == state
      modifies this
      ensures stateNode == old(stateNode) && stateOrig == old(stateOrig)
      ensures Snapshot() == M.NodeTimerExpired(cfg, old(Snapshot()), id, t)
    {
      match stateNode
      case Idle =>
      case Init => InitTimerExpired(id, t);
      case Txing => TxingTimerExpired(id);
      case Hang => HangTimerExpired(id, t);
    }

    // ---------------------------------------------------- shared helpers

    method RecordCallInfo(p: Packet, from: Endpoint)
      requires p.CallInit?
      modifies this
      ensures stateNode == old(stateNode) && stateOrig == old(stateOrig)
      ensures Snapshot() == M.RecordCallInfo(old(Snapshot()), p, from)
    {
      callInfo := CallInfo(Some(from), p.sequence, p.source, p.target);
    }

    /** The repeater call itself is not part of this model; the packet is logged. */
    method ForwardToGrpMembers(p: Packet, t: Clock)
      modifies this
      ensures stateNode == old(stateNode) && stateOrig == old(stateOrig)
      ensures Snapshot() == M.ForwardToGrpMembers(old(Snapshot()), p, t)
    {
      lastTime := t.atForward;
      forwarded := forwarded + [p];
    }

    method CreateTimerTask() returns (id: nat)
      modifies this
      ensures stateNode == old(stateNode) && stateOrig == old(stateOrig)
      ensures Snapshot() == M.CreateTimerTask(old(Snapshot())) && id == timerSeed
    {
      timerSeed := timerSeed + 1;
      id := timerSeed;
    }

    method RearmFlyWheel(dur: int)
      modifies this
      ensures stateNode == old(stateNode) && stateOrig == old(stateOrig)
      ensures Snapshot() == M.RearmFlyWheel(old(Snapshot()), dur)
    {
      if flywheelTimerTask.Some? {
        timerOps := timerOps + [Cancel(flywheelTimerTask.value)];
      }
      var task := CreateTimerTask();
      flywheelTimerTask := Some(task);
      timerOps := timerOps + [Schedule(task, dur)];
    }

    method CancelFlywheel()
      modifies this
      ensures stateNode == old(stateNode) && stateOrig == old(stateOrig)
      ensures Snapshot() == M.CancelFlywheel(old(Snapshot()))
    {
      if flywheelTimerTask.Some? {
        timerOps := timerOps + [Cancel(flywheelTimerTask.value)];
        flywheelTimerTask := None;
      }
    }

    method SendCallInit(t: Clock)
      modifies this
      ensures stateNode == old(stateNode) && stateOrig == old(stateOrig)
      ensures Snapshot() == M.SendCallInit(old(Snapshot()), t)
    {
      callInitSeq := Inc(callInitSeq);
      ForwardToGrpMembers(CallInit(callInfo.source, callInfo.target, callInitSeq), t);
    }

    method SendCallTerm(t: Clock)
      modifies this
      ensures stateNode == old(stateNode) && stateOrig == old(stateOrig)
      ensures Snapshot() == M.SendCallTerm(old(Snapshot()), t)
    {
      callTermAudioSeq := Inc(callTermAudioSeq);
      callHangCountdown := Dec(callHangCountdown);
      ForwardToGrpMembers(CallTerm(callInfo.source, callInfo.target, 0, callTermAudioSeq, callHangCountdown), t);
    }

    /** validatePacket of INIT and TXING. */
    function ValidateFromCaller(p: Packet, from: Endpoint): (ok: bool)
      reads this
      ensures ok == M.FromCaller(Snapshot(), p, from)
    {
      callInfo.sender == Some(from) && p.source == callInfo.source && p.target == callInfo.target
    }

    // ------------------------------------------------------------- IDLE

    method IdlePacketReceived(p: Packet, from: Endpoint, t: Clock)
      modifies this
      ensures stateNode == old(stateNode) && stateOrig == old(stateOrig)
      ensures Snapshot() == M.IdlePacketReceived(old(Snapshot()), p, from, t)
    {
      if p.CallInit? {
        RecordCallInfo(p, from);
        callInitSeq := p.sequence;
        ForwardToGrpMembers(p, t);
        state := Init;
      }
    }

    // ------------------------------------------------------------- INIT

    method InitEntry()
      modifies this
      ensures stateNode == old(stateNode) && stateOrig == old(stateOrig)
      ensures Snapshot() == M.InitEntry(cfg, old(Snapshot()))
    {
      RearmFlyWheel(cfg.flywheelPeriod);
      var task := CreateTimerTask();
      initTimerTask := Some(task);
      timerOps := timerOps + [Schedule(task, cfg.packetInterval)];
    }

    method InitExit()
      modifies this
      ensures stateNode == old(stateNode) && stateOrig == old(stateOrig)
      ensures Snapshot() == M.InitExit(old(Snapshot()))
    {
      if initTimerTask.Some? {
        timerOps := timerOps + [Cancel(initTimerTask.value)];
        initTimerTask := None;
      }
    }

    method InitTimerExpired(id: nat, t: Clock)
      modifies this
      ensures stateNode == old(stateNode) && stateOrig == old(stateOrig)
      ensures Snapshot() == M.InitTimerExpired(cfg, old(Snapshot()), id, t)
    {
      if flywheelTimerTask == Some(id) {
        state := Hang;
      } else if initTimerTask == Some(id) {
        SendCallInit(t);
        InitRearmTxTimer(t);
      }
    }

    method InitPacketReceived(p: Packet, from: Endpoint, t: Clock)
      modifies this
      ensures stateNode == old(stateNode) && stateOrig == old(stateOrig)
      ensures Snapshot() == M.InitPacketReceived(cfg, old(Snapshot()), p, from, t)
    {
      if !ValidateFromCaller(p, from) {
        return;
      }
      match p
      case CallInit(_, _, s) =>
        callInitSeq := s;
        ForwardToGrpMembers(p, t);
        InitRearmTxTimer(t);
        RearmFlyWheel(cfg.flywheelPeriod);
      case CallData(_, _, _, _) =>
        ForwardToGrpMembers(p, t);
        state := Txing;
      case CallTerm(_, _, s, _, _) =>
        callTermSeq := s;
        state := Hang;
      case Other(_, _, _) =>
    }

    /** INIT's rearmTxTimer: a new transmit task, delayed by the interval less the time since the last forward. */
    method InitRearmTxTimer(t: Clock)
      modifies this
      ensures stateNode == old(stateNode) && stateOrig == old(stateOrig)
      ensures Snapshot() == M.InitRearmTxTimer(cfg, old(Snapshot()), t)
    {
      var task := CreateTimerTask();
      initTimerTask := Some(task);
      var delay := cfg.packetInterval + TruncDivMillion(lastTime - t.atRearm);
      if delay < 0 {
        delay := 1;
      }
      timerOps := timerOps + [Schedule(task, delay)];
    }

    // ------------------------------------------------------------ TXING

    method TxingEntry()
      modifies this
      ensures stateNode == old(stateNode) && stateOrig == old(stateOrig)
      ensures Snapshot() == M.TxingEntry(cfg, old(Snapshot()))
    {
      RearmFlyWheel(cfg.flywheelPeriod);
    }

    method TxingTimerExpired(id: nat)
      modifies this
      ensures stateNode == old(stateNode) && stateOrig == old(stateOrig)
      ensures Snapshot() == M.TxingTimerExpired(old(Snapshot()), id)
    {
      if flywheelTimerTask == Some(id) {
        state := Hang;
      }
    }

    method TxingPacketReceived(p: Packet, from: Endpoint, t: Clock)
      modifies this
      ensures stateNode == old(stateNode) && stateOrig == old(stateOrig)
      ensures Snapshot() == M.TxingPacketReceived(cfg, old(Snapshot()), p, from, t)
    {
      if !ValidateFromCaller(p, from) {
        return;
      }
      match p
      case CallInit(_, _, _) =>
        ForwardToGrpMembers(p, t);
        RearmFlyWheel(cfg.flywheelPeriod);
      case CallData(_, _, s, _) =>
        callTermSeq := s;
        ForwardToGrpMembers(p, t);
        RearmFlyWheel(cfg.flywheelPeriod);
      case CallTerm(_, _, s, _, _) =>
        callTermSeq := s;
        state := Hang;
      case Other(_, _, _) =>
    }

    // ------------------------------------------------------------- HANG

    method HangEntry(t: Clock)
      modifies this
      ensures stateNode == old(stateNode) && stateOrig == old(stateOrig)
      ensures Snapshot() == M.HangEntry(cfg, old(Snapshot()), t)
    {
      callHangCountdown := cfg.hangCountdown;
      SendCallTerm(t);
      HangRearmTxTimer();
    }

    method HangExit()
      modifies this
      ensures stateNode == old(stateNode) && stateOrig == old(stateOrig)
      ensures Snapshot() == M.HangExit(old(Snapshot()))
    {
      if hangTimerTask.Some? {
        timerOps := timerOps + [Cancel(hangTimerTask.value)];
        hangTimerTask := None;
      }
    }

    method HangTimerExpired(id: nat, t: Clock)
      modifies this
      ensures stateNode == old(stateNode) && stateOrig == old(stateOrig)
      ensures Snapshot() == M.HangTimerExpired(cfg, old(Snapshot()), id, t)
    {
      if hangTimerTask == Some(id) {
        SendCallTerm(t);
        if callHangCountdown == 0 {
          state := Idle;
        } else {
          HangRearmTxTimer();
        }
      }
    }

    method HangPacketReceived(p: Packet, from: Endpoint, t: Clock)
      modifies this
      ensures stateNode == old(stateNode) && stateOrig == old(stateOrig)
      ensures Snapshot() == M.HangPacketReceived(old(Snapshot()), p, from, t)
    {
      if !HangValidatePacket(p, from) {
        return;
      }
      match p
      case CallInit(_, _, _) =>
        RecordCallInfo(p, from);
        ForwardToGrpMembers(p, t);
        state := Init;
      case CallData(_, _, _, _) =>
        ForwardToGrpMembers(p, t);
      case CallTerm(_, _, _, _, _) =>
      case Other(_, _, _) =>
    }

    /** HANG's rearmTxTimer: a new transmit task, delayed by the formula of the code, floored. */
    method HangRearmTxTimer()
      modifies this
      ensures stateNode == old(stateNode) && stateOrig == old(stateOrig)
      ensures Snapshot() == M.HangRearmTxTimer(cfg, old(Snapshot()))
    {
      var task := CreateTimerTask();
      hangTimerTask := Some(task);
      var delay := TruncDivMillion((cfg.hangCountdown - callHangCountdown) * cfg.packetInterval);
      if delay < 0 {
        delay := 1;
      }
      timerOps := timerOps + [Schedule(task, delay)];
    }

    /** validatePacket of HANG. */
    function HangValidatePacket(p: Packet, from: Endpoint): (ok: bool)
      reads this
      ensures ok == M.HangAccepts(Snapshot(), p, from)
    {
      match p
      case CallInit(_, _, _) => p.target == callInfo.target
      case CallData(_, _, _, _) => ValidateFromCaller(p, from)
      case CallTerm(_, _, _, _, _) => ValidateFromCaller(p, from)
      case Other(_, _, _) => false
    }
  }
}
