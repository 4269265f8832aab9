# Trunk center call relay, modelled in Dafny

This project models the core of a push-to-talk trunking relay. It covers three parts:

- **The per-group call processors, in two versions.**
  - The newer one is `repeator/CallProcessor.java`.
  - The older one is `cloudmontain/CallProcessor.java`.
  - Each is a four-state machine: IDLE, INIT (a call is being set up), TXING (voice) and HANG (the call is ending).
  - It reacts to received packets (`packetReceived`) and to expiries of its timer tasks (`timerExpired`).
  - It forwards packets to the group, synthesises CallInit and CallTerm messages on the transmitter's behalf, and arms and cancels timer tasks.
- **The fan-out policy** (`Repeator.repeat`). It sends a message to every online member of the group. CallData is not echoed back to the transmitter.
- **The membership and presence store**, in two copies: `SubscriberDatabase` and `SubscriberDatabase_old`.
  - It keeps subscriber→groups and group→subscribers, in both directions, and a presence map from subscriber to address.
  - Each processor takes its roster from the store once, when it is constructed (`getOnlineMembers`).

## How the call processors are modelled

Each processor version is split into three modules:

- **A pure model** (`RepeatorCallModel`, `CloudmontainCallModel`).
  - A `Machine` value holds every field of the Java object.
  - There is one function per Java method, with the same branches and the same order of side effects.
  - The side effects are three logs, appended in order:
    - the packets handed to the repeater (`forwarded`);
    - the `schedule`/`cancel` calls on the timer (`timerOps`);
    - the runs of state entry/exit code (`hooks`).
- **The properties** (`RepeatorCallProperties`, `CloudmontainCallProperties`). These are lemmas about the model: the invariant every event preserves, what each state does with each packet and timer, and inductive lemmas about runs of timer expiries.
- **A class** (`RepeatorCallProcessor.CallProcessor`, `CloudmontainCallProcessor.CallProcessor`).
  - Its fields are the Java fields, which its methods update in place, one method per Java method.
  - Each method's contract equates the object's new state with the model function applied to the old state. So the properties hold of the object.
  - `PacketReceived` and `TimerExpired` also keep the invariant.

Each Java timer task is identified by the value of `mTimerSeed` when it was created. A task reference is an `Option<nat>` holding that id, and comparing task references compares ids.

Each event receives a `Clock` holding the value of `System.nanoTime()` at its forward and at its re-arm.

Java `short` arithmetic is written out, wrap-around included: `Protocol.ToShort`, `Protocol.Inc` and `Protocol.Dec`.

In the newer version, CALL_HANG_COUNTDOWN (N) is a parameter of `Config`. Its value is defined outside the files modelled here.

## Model

| member | source | states |
|---|---|---|
| Protocol.ToShort | src/com/bluesky/cloudmontain/repeator/CallProcessor.java:105-108 | the narrowing to `short` returns the short congruent to its argument modulo 2^16, and leaves a value already in range unchanged |
| Protocol.Inc | src/com/bluesky/cloudmontain/repeator/CallProcessor.java:105-108 | `++` on a short adds one, and wraps from 32767 to -32768 |
| Protocol.Dec | src/com/bluesky/cloudmontain/repeator/CallProcessor.java:113-117 | `--` on a short subtracts one, and wraps from -32768 to 32767 |
| Protocol.TruncDivMillion | src/com/bluesky/cloudmontain/repeator/CallProcessor.java:428-429 | Java's long division by 10^6 truncates toward zero, on either sign |
| RepeatorCallModel.InitTxDelay | src/com/bluesky/cloudmontain/repeator/CallProcessor.java:248-256 | INIT's transmit delay is never negative, and equals the code's formula when that formula is not negative |
| RepeatorCallModel.HangTxDelay | src/com/bluesky/cloudmontain/repeator/CallProcessor.java:426-434 | HANG's transmit delay is never negative, and equals the code's truncated formula when that formula is not negative |
| RepeatorCallProperties.FreshInv | src/com/bluesky/cloudmontain/repeator/CallProcessor.java:24-34 | a new processor is in IDLE, has run IDLE's entry and satisfies the invariant |
| RepeatorCallProperties.OnPacketPreservesInv | src/com/bluesky/cloudmontain/repeator/CallProcessor.java:36-40 | every packet event preserves the invariant. The invariant says: task ids were issued; INIT's transmit task is not the flywheel; INIT holds its transmit task exactly in INIT, and HANG holds its own exactly in HANG; INIT and TXING hold a flywheel; outside IDLE the sender is known |
| RepeatorCallProperties.OnTimerPreservesInv | src/com/bluesky/cloudmontain/repeator/CallProcessor.java:42-46 | every timer event preserves the invariant |
| RepeatorCallProperties.OnPacketRunsHooksOnce | src/com/bluesky/cloudmontain/repeator/CallProcessor.java:36-58 | a packet event runs the old state's exit and then the new state's entry, once each, exactly when the state changed; otherwise it runs neither |
| RepeatorCallProperties.OnTimerRunsHooksOnce | src/com/bluesky/cloudmontain/repeator/CallProcessor.java:42-58 | the same guarantee for a timer event |
| RepeatorCallProperties.OtherPacketsIgnored | src/com/bluesky/cloudmontain/repeator/CallProcessor.java:166-175 | a packet that is not CallInit, CallData or CallTerm changes nothing in any state |
| RepeatorCallProperties.IdleReactsOnlyToCallInit | src/com/bluesky/cloudmontain/repeator/CallProcessor.java:148-176 | in IDLE every timer, and every packet but CallInit, changes nothing |
| RepeatorCallProperties.IdleCallInitStartsCall | src/com/bluesky/cloudmontain/repeator/CallProcessor.java:166-175 | a CallInit in IDLE: records its sender, sequence, source and target; is forwarded once; moves to INIT. INIT's entry then arms the flywheel with the flywheel period and the transmit task with the packet interval, and the log shows exactly these effects |
| RepeatorCallProperties.CallerPinnedInInitAndTxing | src/com/bluesky/cloudmontain/repeator/CallProcessor.java:258-278 | in INIT and TXING a packet whose address, port, source or target differs from the recorded call changes nothing: nothing is forwarded, nothing is scheduled, the state is unchanged |
| RepeatorCallProperties.InitCallInitRearms | src/com/bluesky/cloudmontain/repeator/CallProcessor.java:217-243 | a valid CallInit in INIT: takes over its sequence; is forwarded; re-arms the transmit task with a non-negative delay, then the flywheel; stays in INIT |
| RepeatorCallProperties.InitCallDataStartsVoice | src/com/bluesky/cloudmontain/repeator/CallProcessor.java:217-243 | a valid CallData in INIT is forwarded and moves to TXING. The move cancels INIT's transmit task, and TXING's entry re-arms the flywheel |
| RepeatorCallProperties.CallTermEntersHang | src/com/bluesky/cloudmontain/repeator/CallProcessor.java:217-243 | a valid CallTerm in INIT or TXING: records its sequence; is not forwarded; enters HANG. HANG's entry sets the countdown to N and sends one synthesised CallTerm |
| RepeatorCallProperties.FlywheelEntersHang | src/com/bluesky/cloudmontain/repeator/CallProcessor.java:204-214 | the flywheel expiring in INIT or TXING enters HANG, with the same entry effects |
| RepeatorCallProperties.TxingCallInitKeepsCall | src/com/bluesky/cloudmontain/repeator/CallProcessor.java:309-333 | a valid CallInit in TXING is forwarded and re-arms the flywheel; the state stays TXING |
| RepeatorCallProperties.TxingCallDataKeepsCall | src/com/bluesky/cloudmontain/repeator/CallProcessor.java:309-333 | a valid CallData in TXING records its sequence, is forwarded and re-arms the flywheel |
| RepeatorCallProperties.StaleTimerIgnored | src/com/bluesky/cloudmontain/repeator/CallProcessor.java:204-214 | the expiry of a task that the current state does not compare against changes nothing, in every state |
| RepeatorCallProperties.InitTimerSynthesisesCallInit | src/com/bluesky/cloudmontain/repeator/CallProcessor.java:204-214 | INIT's transmit task expiring sends a CallInit with the next sequence (mod 2^16) and re-arms the task with a non-negative delay; the flywheel is untouched |
| RepeatorCallProperties.InitFireIsOnTimer | src/com/bluesky/cloudmontain/repeator/CallProcessor.java:205-214 | in INIT, the expiry of INIT's own transmit task is exactly the CallInit send followed by the re-arm, with no state change and no hook |
| RepeatorCallProperties.InitTimerRunTrace | src/com/bluesky/cloudmontain/repeator/CallProcessor.java:105-108 | k expiries of INIT's transmit task, with no other input, send exactly the CallInits with sequences s+1, ..., s+k (wrapping), in order, and leave the machine in INIT |
| RepeatorCallProperties.HangCallInitTakesFloor | src/com/bluesky/cloudmontain/repeator/CallProcessor.java:399-421 | a CallInit for the call's target in HANG, from any address or source, becomes the new call context, is forwarded and moves to INIT |
| RepeatorCallProperties.HangPacketsOtherwise | src/com/bluesky/cloudmontain/repeator/CallProcessor.java:441-474 | in HANG the following are dropped: a CallInit for another target; CallData not from the caller; every CallTerm; every other type. CallData from the caller is forwarded, with no other change |
| RepeatorCallProperties.HangTimerStep | src/com/bluesky/cloudmontain/repeator/CallProcessor.java:384-396 | HANG's transmit task expiring sends a CallTerm with audio sequence +1 and countdown -1. The machine goes to IDLE if the countdown is then 0; otherwise it re-arms the task |
| RepeatorCallProperties.HangFireIsOnTimer | src/com/bluesky/cloudmontain/repeator/CallProcessor.java:385-396 | in HANG, the expiry of HANG's own transmit task is exactly the CallTerm send followed by either the whole move to IDLE (exit, cancel, entry) or the re-arm |
| RepeatorCallProperties.HangTimerRunTrace | src/com/bluesky/cloudmontain/repeator/CallProcessor.java:113-117 | with countdown c >= 1 and no input, k <= c expiries send exactly the next k CallTerms, in order. The machine is in IDLE exactly when k == c |
| RepeatorCallProperties.TeardownSendsNCallTerms | src/com/bluesky/cloudmontain/repeator/CallProcessor.java:366-396 | with N >= 2: after the flywheel expires and nothing else arrives, exactly N CallTerms are sent, with countdowns N-1, ..., 0. IDLE is reached after N-1 expiries and not before |
| RepeatorCallProperties.HangCountdownOneOvershoots | src/com/bluesky/cloudmontain/repeator/CallProcessor.java:384-396 | as written, with N == 1, one HANG expiry leaves the machine in HANG with countdown -1 and two CallTerms sent |
| RepeatorCallProperties.TeardownCorrected | src/com/bluesky/cloudmontain/repeator/CallProcessor.java:384-396 | with the corrected expiry, teardown sends N CallTerms for every N >= 1. For N == 1 the first expiry goes to IDLE without a second send. For N >= 2 the corrected run of N - 1 expiries reaches IDLE having sent exactly the N CallTerms with countdowns N-1, ..., 0, and each of its steps agrees with the code as written |
| RepeatorCallProperties.CorrectedRunAgrees | src/com/bluesky/cloudmontain/repeator/CallProcessor.java:384-396 | from HANG with countdown c >= 1, up to c expiries under the corrected expiry give the same machine as under the code as written |
| RepeatorCallProperties.CorrectedAgreesOffZero | src/com/bluesky/cloudmontain/repeator/CallProcessor.java:384-396 | the corrected expiry differs from the code as written only in HANG with countdown 0 |
| RepeatorCallProcessor.CallProcessor.constructor | src/com/bluesky/cloudmontain/repeator/CallProcessor.java:24-34 | the new object is the model's fresh machine, IDLE, and satisfies the invariant |
| RepeatorCallProcessor.CallProcessor.PacketReceived | src/com/bluesky/cloudmontain/repeator/CallProcessor.java:36-40 | keeps the invariant; the new state is the model's packet event on the old state |
| RepeatorCallProcessor.CallProcessor.TimerExpired | src/com/bluesky/cloudmontain/repeator/CallProcessor.java:42-46 | keeps the invariant; the new state is the model's timer event on the old state |
| RepeatorCallProcessor.CallProcessor.SaveStateContext | src/com/bluesky/cloudmontain/repeator/CallProcessor.java:48-50 | records the current state as the original one and changes nothing else |
| RepeatorCallProcessor.CallProcessor.UpdateStateContext | src/com/bluesky/cloudmontain/repeator/CallProcessor.java:52-58 | on a state change, runs the old node's exit and the new node's entry, and leaves the node matching the state |
| RepeatorCallProcessor.CallProcessor.NodeEntry | src/com/bluesky/cloudmontain/repeator/CallProcessor.java:56 | runs the current node's entry, as the model's NodeEntry |
| RepeatorCallProcessor.CallProcessor.NodeExit | src/com/bluesky/cloudmontain/repeator/CallProcessor.java:54 | runs the current node's exit, as the model's NodeExit |
| RepeatorCallProcessor.CallProcessor.NodePacketReceived | src/com/bluesky/cloudmontain/repeator/CallProcessor.java:38 | dispatches the packet to the current node's handler, as the model |
| RepeatorCallProcessor.CallProcessor.NodeTimerExpired | src/com/bluesky/cloudmontain/repeator/CallProcessor.java:44 | dispatches the expiry to the current node's handler, as the model |
| RepeatorCallProcessor.CallProcessor.RecordCallInfo | src/com/bluesky/cloudmontain/repeator/CallProcessor.java:60-65 | the call context becomes the CallInit's sender, sequence, source and target |
| RepeatorCallProcessor.CallProcessor.ForwardToGrpMembers | src/com/bluesky/cloudmontain/repeator/CallProcessor.java:68-71 | records the forward time and appends the packet to the forwarded log |
| RepeatorCallProcessor.CallProcessor.CreateTimerTask | src/com/bluesky/cloudmontain/repeator/CallProcessor.java:73-82 | increments the seed and returns it as the new task's id |
| RepeatorCallProcessor.CallProcessor.RearmFlyWheel | src/com/bluesky/cloudmontain/repeator/CallProcessor.java:88-94 | cancels the old flywheel if any, then schedules a new one with the given duration |
| RepeatorCallProcessor.CallProcessor.CancelFlywheel | src/com/bluesky/cloudmontain/repeator/CallProcessor.java:96-101 | cancels and clears the flywheel if set |
| RepeatorCallProcessor.CallProcessor.SendCallInit | src/com/bluesky/cloudmontain/repeator/CallProcessor.java:105-108 | pre-increments the CallInit sequence and forwards a CallInit carrying it |
| RepeatorCallProcessor.CallProcessor.SendCallTerm | src/com/bluesky/cloudmontain/repeator/CallProcessor.java:113-117 | pre-increments the audio sequence, pre-decrements the countdown and forwards a CallTerm carrying both |
| RepeatorCallProcessor.CallProcessor.ValidateFromCaller | src/com/bluesky/cloudmontain/repeator/CallProcessor.java:258-278 | true exactly when the address, source and target are the recorded call's |
| RepeatorCallProcessor.CallProcessor.IdlePacketReceived | src/com/bluesky/cloudmontain/repeator/CallProcessor.java:166-175 | IDLE's packet handler, as the model |
| RepeatorCallProcessor.CallProcessor.InitEntry | src/com/bluesky/cloudmontain/repeator/CallProcessor.java:188-193 | arms the flywheel, then a new transmit task with the packet interval |
| RepeatorCallProcessor.CallProcessor.InitExit | src/com/bluesky/cloudmontain/repeator/CallProcessor.java:196-202 | cancels and clears INIT's transmit task |
| RepeatorCallProcessor.CallProcessor.InitTimerExpired | src/com/bluesky/cloudmontain/repeator/CallProcessor.java:205-214 | the flywheel moves to HANG; INIT's own task sends a CallInit and re-arms; any other task is ignored |
| RepeatorCallProcessor.CallProcessor.InitPacketReceived | src/com/bluesky/cloudmontain/repeator/CallProcessor.java:217-243 | INIT's packet handler, as the model |
| RepeatorCallProcessor.CallProcessor.InitRearmTxTimer | src/com/bluesky/cloudmontain/repeator/CallProcessor.java:248-256 | schedules a new transmit task with the floored delay |
| RepeatorCallProcessor.CallProcessor.TxingEntry | src/com/bluesky/cloudmontain/repeator/CallProcessor.java:290-293 | re-arms the flywheel |
| RepeatorCallProcessor.CallProcessor.TxingTimerExpired | src/com/bluesky/cloudmontain/repeator/CallProcessor.java:301-306 | the flywheel moves to HANG; any other task is ignored |
| RepeatorCallProcessor.CallProcessor.TxingPacketReceived | src/com/bluesky/cloudmontain/repeator/CallProcessor.java:309-333 | TXING's packet handler, as the model |
| RepeatorCallProcessor.CallProcessor.HangEntry | src/com/bluesky/cloudmontain/repeator/CallProcessor.java:367-373 | sets the countdown to N, sends a CallTerm and arms HANG's transmit task |
| RepeatorCallProcessor.CallProcessor.HangExit | src/com/bluesky/cloudmontain/repeator/CallProcessor.java:376-382 | cancels and clears HANG's transmit task |
| RepeatorCallProcessor.CallProcessor.HangTimerExpired | src/com/bluesky/cloudmontain/repeator/CallProcessor.java:385-396 | HANG's task sends a CallTerm, then goes to IDLE at countdown 0 or re-arms |
| RepeatorCallProcessor.CallProcessor.HangPacketReceived | src/com/bluesky/cloudmontain/repeator/CallProcessor.java:399-421 | HANG's packet handler, as the model |
| RepeatorCallProcessor.CallProcessor.HangRearmTxTimer | src/com/bluesky/cloudmontain/repeator/CallProcessor.java:426-434 | schedules a new transmit task with the floored delay |
| RepeatorCallProcessor.CallProcessor.HangValidatePacket | src/com/bluesky/cloudmontain/repeator/CallProcessor.java:441-474 | a CallInit is checked on target only, CallData and CallTerm against the whole recorded call, and any other type is refused |
| CloudmontainCallProperties.FreshInv | src/com/bluesky/cloudmontain/CallProcessor.java:24-32 | a new processor is in IDLE, has run IDLE's entry and satisfies the invariant |
| CloudmontainCallProperties.OnPacketPreservesInv | src/com/bluesky/cloudmontain/CallProcessor.java:34-38 | every packet event preserves the invariant. The invariant says: task ids were issued; neither transmit task is the flywheel; the flywheel is held exactly outside IDLE; INIT's transmit task is held exactly in INIT; outside IDLE the sender is known |
| CloudmontainCallProperties.OnTimerPreservesInv | src/com/bluesky/cloudmontain/CallProcessor.java:40-44 | every timer event preserves the invariant |
| CloudmontainCallProperties.OnPacketRunsHooksOnce | src/com/bluesky/cloudmontain/CallProcessor.java:34-56 | exit then entry run once each exactly when a packet event changes the state, and never otherwise |
| CloudmontainCallProperties.OnTimerRunsHooksOnce | src/com/bluesky/cloudmontain/CallProcessor.java:40-56 | the same for a timer event |
| CloudmontainCallProperties.OtherPacketsIgnored | src/com/bluesky/cloudmontain/CallProcessor.java:164-174 | a packet of any other type changes nothing in any state |
| CloudmontainCallProperties.IdleReactsOnlyToCallInit | src/com/bluesky/cloudmontain/CallProcessor.java:146-174 | in IDLE every timer, and every packet but CallInit, changes nothing |
| CloudmontainCallProperties.IdleCallInitStartsCall | src/com/bluesky/cloudmontain/CallProcessor.java:164-174 | a CallInit in IDLE is recorded with its sequence, forwarded, and moves to INIT. INIT's entry arms the flywheel and then the transmit task |
| CloudmontainCallProperties.CallerPinnedInInitAndTxing | src/com/bluesky/cloudmontain/CallProcessor.java:255-291 | in INIT and TXING a packet not matching the recorded address, suid and target changes nothing |
| CloudmontainCallProperties.InitCallInitRearms | src/com/bluesky/cloudmontain/CallProcessor.java:216-244 | a valid CallInit in INIT takes over its sequence, is forwarded, and re-arms the transmit task with the unfloored delay. When that delay is not negative the flywheel is re-armed after it; when it is negative the timer refuses the task by throwing, and the flywheel is left as it was |
| CloudmontainCallProperties.InitCallDataStartsVoice | src/com/bluesky/cloudmontain/CallProcessor.java:216-244 | a valid CallData in INIT is forwarded and moves to TXING, re-arming the flywheel |
| CloudmontainCallProperties.CallTermEntersHang | src/com/bluesky/cloudmontain/CallProcessor.java:234-239 | a valid CallTerm in INIT or TXING: records its sequence and audio sequence; is forwarded; enters HANG. HANG's entry re-arms the flywheel with the hang period and keeps the CallInit counter |
| CloudmontainCallProperties.FlywheelEntersHang | src/com/bluesky/cloudmontain/CallProcessor.java:204-213 | the flywheel expiring in INIT or TXING enters HANG with nothing forwarded |
| CloudmontainCallProperties.TxingCallInitKeepsCall | src/com/bluesky/cloudmontain/CallProcessor.java:322-350 | a valid CallInit in TXING is forwarded and re-arms the flywheel |
| CloudmontainCallProperties.TxingCallDataKeepsCall | src/com/bluesky/cloudmontain/CallProcessor.java:322-350 | a valid CallData in TXING records its sequence and audio sequence, is forwarded and re-arms the flywheel |
| CloudmontainCallProperties.StaleTimerIgnored | src/com/bluesky/cloudmontain/CallProcessor.java:412-422 | the expiry of a task that the current state does not compare against changes nothing |
| CloudmontainCallProperties.InitTimerSynthesisesCallInit | src/com/bluesky/cloudmontain/CallProcessor.java:204-213 | INIT's transmit task expiring sends the next CallInit and re-arms the task with the code's delay, a schedule the timer refuses when that delay is negative |
| CloudmontainCallProperties.InitFireIsOnTimer | src/com/bluesky/cloudmontain/CallProcessor.java:204-213 | in INIT, the expiry of INIT's own transmit task is exactly the CallInit send followed by the re-arm |
| CloudmontainCallProperties.InitTimerRunTrace | src/com/bluesky/cloudmontain/CallProcessor.java:103-107 | k expiries in INIT send exactly the CallInits with sequences s+1, ..., s+k (wrapping), and the counter ends at s+k |
| CloudmontainCallProperties.HangFlywheelEndsCall | src/com/bluesky/cloudmontain/CallProcessor.java:412-422 | the hang flywheel expiring moves to IDLE: the flywheel is cancelled and cleared, nothing is forwarded, and HANG's transmit task is left as it was |
| CloudmontainCallProperties.HangCallInitTakesFloor | src/com/bluesky/cloudmontain/CallProcessor.java:425-452 | a CallInit for the call's target in HANG, from any sender, is recorded, forwarded and moves to INIT |
| CloudmontainCallProperties.HangCallDataExtendsHang | src/com/bluesky/cloudmontain/CallProcessor.java:425-452 | CallData from the recorded address in HANG is forwarded and re-arms the flywheel with the hang period |
| CloudmontainCallProperties.HangCallTermArmsTx | src/com/bluesky/cloudmontain/CallProcessor.java:425-452 | a CallTerm from the recorded address in HANG records its sequences, is forwarded, and arms HANG's transmit task, a schedule the timer refuses when the delay is negative |
| CloudmontainCallProperties.HangDropsOthers | src/com/bluesky/cloudmontain/CallProcessor.java:468-504 | HANG drops a CallInit for another target, and CallData or CallTerm from another address |
| CloudmontainCallProperties.HangTimerSynthesisesCallTerm | src/com/bluesky/cloudmontain/CallProcessor.java:112-116 | HANG's transmit task expiring sends a CallTerm. Its sequence is the next value of the CallInit counter and its audio sequence the next of its own; the task is re-armed, a schedule the timer refuses when the delay is negative |
| CloudmontainCallProperties.HangFireIsOnTimer | src/com/bluesky/cloudmontain/CallProcessor.java:412-422 | in HANG, the expiry of HANG's own transmit task is exactly the CallTerm send followed by the re-arm, with no state change |
| CloudmontainCallProperties.HangTimerRunTrace | src/com/bluesky/cloudmontain/CallProcessor.java:112-116 | k expiries in HANG send CallTerms with sequences s+1, ..., s+k continuing the CallInit counter, and audio sequences a+1, ..., a+k. The flywheel is untouched |
| CloudmontainCallProcessor.CallProcessor.constructor | src/com/bluesky/cloudmontain/CallProcessor.java:24-32 | the new object is the model's fresh machine and satisfies the invariant |
| CloudmontainCallProcessor.CallProcessor.PacketReceived | src/com/bluesky/cloudmontain/CallProcessor.java:34-38 | keeps the invariant; the new state is the model's packet event on the old state |
| CloudmontainCallProcessor.CallProcessor.TimerExpired | src/com/bluesky/cloudmontain/CallProcessor.java:40-44 | keeps the invariant; the new state is the model's timer event on the old state |
| CloudmontainCallProcessor.CallProcessor.SaveStateContext | src/com/bluesky/cloudmontain/CallProcessor.java:46-48 | records the current state as the original one and changes nothing else |
| CloudmontainCallProcessor.CallProcessor.UpdateStateContext | src/com/bluesky/cloudmontain/CallProcessor.java:50-56 | on a state change, runs the old node's exit and the new node's entry |
| CloudmontainCallProcessor.CallProcessor.NodeEntry | src/com/bluesky/cloudmontain/CallProcessor.java:54 | runs the current node's entry, as the model |
| CloudmontainCallProcessor.CallProcessor.NodeExit | src/com/bluesky/cloudmontain/CallProcessor.java:52 | runs the current node's exit, as the model |
| CloudmontainCallProcessor.CallProcessor.NodePacketReceived | src/com/bluesky/cloudmontain/CallProcessor.java:36 | dispatches the packet to the current node, as the model |
| CloudmontainCallProcessor.CallProcessor.NodeTimerExpired | src/com/bluesky/cloudmontain/CallProcessor.java:42 | dispatches the expiry to the current node, as the model |
| CloudmontainCallProcessor.CallProcessor.RecordCallInfo | src/com/bluesky/cloudmontain/CallProcessor.java:58-63 | the call context becomes the CallInit's sender, sequence, suid and target |
| CloudmontainCallProcessor.CallProcessor.ForwardToGrpMembers | src/com/bluesky/cloudmontain/CallProcessor.java:66-69 | records the forward time and appends the packet to the forwarded log |
| CloudmontainCallProcessor.CallProcessor.CreateTimerTask | src/com/bluesky/cloudmontain/CallProcessor.java:71-80 | increments the seed and returns it as the new task's id |
| CloudmontainCallProcessor.CallProcessor.RearmFlyWheel | src/com/bluesky/cloudmontain/CallProcessor.java:86-92 | cancels the old flywheel if any and schedules a new one |
| CloudmontainCallProcessor.CallProcessor.CancelFlywheel | src/com/bluesky/cloudmontain/CallProcessor.java:94-99 | cancels and clears the flywheel if set |
| CloudmontainCallProcessor.CallProcessor.SendCallInit | src/com/bluesky/cloudmontain/CallProcessor.java:103-107 | pre-increments the CallInit counter and forwards a CallInit carrying it |
| CloudmontainCallProcessor.CallProcessor.SendCallTerm | src/com/bluesky/cloudmontain/CallProcessor.java:112-116 | pre-increments the audio sequence and the CallInit counter, then forwards a CallTerm carrying both |
| CloudmontainCallProcessor.CallProcessor.ValidateFromCaller | src/com/bluesky/cloudmontain/CallProcessor.java:255-291 | true exactly when the address matches and the packet's suid and target (0 and 0 for other types) are the recorded ones |
| CloudmontainCallProcessor.CallProcessor.IdlePacketReceived | src/com/bluesky/cloudmontain/CallProcessor.java:164-174 | IDLE's packet handler, as the model |
| CloudmontainCallProcessor.CallProcessor.InitEntry | src/com/bluesky/cloudmontain/CallProcessor.java:187-192 | arms the flywheel, then a new transmit task |
| CloudmontainCallProcessor.CallProcessor.InitExit | src/com/bluesky/cloudmontain/CallProcessor.java:195-201 | cancels and clears INIT's transmit task |
| CloudmontainCallProcessor.CallProcessor.InitTimerExpired | src/com/bluesky/cloudmontain/CallProcessor.java:204-213 | the flywheel moves to HANG; INIT's task sends a CallInit and re-arms |
| CloudmontainCallProcessor.CallProcessor.InitPacketReceived | src/com/bluesky/cloudmontain/CallProcessor.java:216-244 | INIT's packet handler, as the model. A CallInit whose transmit schedule the timer refuses ends the handler before the flywheel is re-armed |
| CloudmontainCallProcessor.CallProcessor.InitRearmTxTimer | src/com/bluesky/cloudmontain/CallProcessor.java:249-253 | creates a new transmit task and schedules it with the interval plus the last forward time minus now. A negative delay is refused, and `scheduled` is false exactly then |
| CloudmontainCallProcessor.CallProcessor.TxingEntry | src/com/bluesky/cloudmontain/CallProcessor.java:303-306 | re-arms the flywheel |
| CloudmontainCallProcessor.CallProcessor.TxingTimerExpired | src/com/bluesky/cloudmontain/CallProcessor.java:314-319 | the flywheel moves to HANG; any other task is ignored |
| CloudmontainCallProcessor.CallProcessor.TxingPacketReceived | src/com/bluesky/cloudmontain/CallProcessor.java:322-350 | TXING's packet handler, as the model |
| CloudmontainCallProcessor.CallProcessor.HangEntry | src/com/bluesky/cloudmontain/CallProcessor.java:400-403 | re-arms the flywheel with the hang period |
| CloudmontainCallProcessor.CallProcessor.HangExit | src/com/bluesky/cloudmontain/CallProcessor.java:406-409 | cancels and clears the flywheel only |
| CloudmontainCallProcessor.CallProcessor.HangTimerExpired | src/com/bluesky/cloudmontain/CallProcessor.java:412-422 | the flywheel moves to IDLE; HANG's task sends a CallTerm and re-arms |
| CloudmontainCallProcessor.CallProcessor.HangPacketReceived | src/com/bluesky/cloudmontain/CallProcessor.java:425-452 | HANG's packet handler, as the model |
| CloudmontainCallProcessor.CallProcessor.HangRearmTxTimer | src/com/bluesky/cloudmontain/CallProcessor.java:457-461 | creates and schedules a new HANG transmit task with the unfloored delay, refused when negative; `scheduled` is false exactly then |
| CloudmontainCallProcessor.CallProcessor.HangValidatePacket | src/com/bluesky/cloudmontain/CallProcessor.java:468-504 | a CallInit is checked on target only; CallData and CallTerm on address only; anything else passes |
| Repeator.Recipients | src/com/bluesky/cloudmontain/Repeator.java:26-33 | there are at most as many sends as roster entries, and every send carries the one serialised message |
| Repeator.Repeator.constructor | src/com/bluesky/cloudmontain/Repeator.java:17-19 | a new repeater has sent nothing |
| Repeator.Repeator.Repeat | src/com/bluesky/cloudmontain/Repeator.java:21-34 | the sends appended to the UDP log are exactly `Recipients` of the roster, in roster order |
| Repeator.RecipientsExactly | src/com/bluesky/cloudmontain/Repeator.java:26-33 | a datagram is sent exactly when it carries the message to the address of a roster entry that receives it, so no address outside the roster is sent to |
| Repeator.ControlReachesEveryEntry | src/com/bluesky/cloudmontain/Repeator.java:30-31 | CallInit and CallTerm go to every roster entry, the transmitter included, one send per entry in roster order |
| Repeator.RecipientsLength | src/com/bluesky/cloudmontain/Repeator.java:28-31 | the number of sends is the roster length, less the entries with the transmitter's id for CallData and other types |
| Repeator.DistinctCountId | src/com/bluesky/cloudmontain/Repeator.java:28 | in a roster with distinct ids, the transmitter's id occurs once if at all |
| Repeator.GroupFanOut | src/com/bluesky/cloudmontain/Repeator.java:26-33 | on a group's online roster, control messages reach every online member; CallData reaches all of them except the transmitter, when the transmitter is online |
| Membership.RosterGrows | src/com/bluesky/cloudmontain/SubscriberDatabase.java:94-102 | one step of the roster walk keeps the roster correct for the subscribers walked so far |
| Membership.RosterUniqueUpToOrder | src/com/bluesky/cloudmontain/SubscriberDatabase.java:91-104 | two correct rosters of the same group and presence have the same entries and the same length: the roster is determined up to order |
| Membership.DistinctIdsLength | src/com/bluesky/cloudmontain/SubscriberDatabase.java:91-104 | two id-distinct rosters with the same entries have the same length |
| Membership.DistinctCard | src/com/bluesky/cloudmontain/SubscriberDatabase.java:91-104 | an id-distinct roster has as many entries as distinct elements |
| SubscriberDatabase.SubscriberDatabase.constructor | src/com/bluesky/cloudmontain/SubscriberDatabase.java:20-25 | the store starts empty and consistent |
| SubscriberDatabase.SubscriberDatabase.HasSubscriber | src/com/bluesky/cloudmontain/SubscriberDatabase.java:27-29 | in a consistent store, every subscriber that some group lists is known |
| SubscriberDatabase.SubscriberDatabase.HasGroup | src/com/bluesky/cloudmontain/SubscriberDatabase.java:31-33 | in a consistent store, every group that some subscriber lists is known |
| SubscriberDatabase.SubscriberDatabase.IsGroupMember | src/com/bluesky/cloudmontain/SubscriberDatabase.java:35-42 | false for an unknown subscriber; in a consistent store, it agrees with the group's own list |
| SubscriberDatabase.SubscriberDatabase.GetGroupMember | src/com/bluesky/cloudmontain/SubscriberDatabase.java:44-46 | for a known group, in a consistent store, it is exactly the ids that are members |
| SubscriberDatabase.SubscriberDatabase.AddSubscriber | src/com/bluesky/cloudmontain/SubscriberDatabase.java:48-55 | idempotent: a known id is left untouched, otherwise a subscriber with no groups is added; afterwards the id is known; consistency is kept; nothing else changes |
| SubscriberDatabase.SubscriberDatabase.AddGroup | src/com/bluesky/cloudmontain/SubscriberDatabase.java:57-64 | idempotent in the same way for groups |
| SubscriberDatabase.SubscriberDatabase.Signup | src/com/bluesky/cloudmontain/SubscriberDatabase.java:66-72 | a no-op unless both ids are known; otherwise both sides gain the link. Membership grows by exactly that pair, and consistency is kept |
| SubscriberDatabase.SubscriberDatabase.Online | src/com/bluesky/cloudmontain/SubscriberDatabase.java:78-80 | last write wins for that subscriber; membership is untouched |
| SubscriberDatabase.SubscriberDatabase.Offline | src/com/bluesky/cloudmontain/SubscriberDatabase.java:82-84 | removes only that subscriber's presence entry; membership is untouched |
| SubscriberDatabase.SubscriberDatabase.GetOnlineMembers | src/com/bluesky/cloudmontain/SubscriberDatabase.java:91-104 | returns exactly the members of the group with a non-null address, each once, with its current address |
| SubscriberDatabaseOld.SubscriberDatabaseOld.constructor | src/com/bluesky/cloudmontain/database/SubscriberDatabase_old.java:20-25 | the store starts empty and consistent |
| SubscriberDatabaseOld.SubscriberDatabaseOld.HasSubscriber | src/com/bluesky/cloudmontain/database/SubscriberDatabase_old.java:27-29 | in a consistent store, every subscriber that some group lists is known |
| SubscriberDatabaseOld.SubscriberDatabaseOld.HasGroup | src/com/bluesky/cloudmontain/database/SubscriberDatabase_old.java:31-33 | in a consistent store, every group that some subscriber lists is known |
| SubscriberDatabaseOld.SubscriberDatabaseOld.IsGroupMember | src/com/bluesky/cloudmontain/database/SubscriberDatabase_old.java:35-42 | false for an unknown subscriber; agrees with the group's side in a consistent store |
| SubscriberDatabaseOld.SubscriberDatabaseOld.GetGroupMember | src/com/bluesky/cloudmontain/database/SubscriberDatabase_old.java:44-46 | exactly the member ids of a known group |
| SubscriberDatabaseOld.SubscriberDatabaseOld.AddSubscriber | src/com/bluesky/cloudmontain/database/SubscriberDatabase_old.java:48-55 | a guarded no-op for a known id; otherwise adds a subscriber with no groups; keeps consistency |
| SubscriberDatabaseOld.SubscriberDatabaseOld.AddGroup | src/com/bluesky/cloudmontain/database/SubscriberDatabase_old.java:57-64 | a guarded no-op for a known id; otherwise adds an empty group; keeps consistency |
| SubscriberDatabaseOld.SubscriberDatabaseOld.Signup | src/com/bluesky/cloudmontain/database/SubscriberDatabase_old.java:66-72 | ignored for unknown ids; otherwise links both sides, keeping membership symmetric |
| SubscriberDatabaseOld.SubscriberDatabaseOld.Online | src/com/bluesky/cloudmontain/database/SubscriberDatabase_old.java:78-80 | overwrites one presence entry |
| SubscriberDatabaseOld.SubscriberDatabaseOld.Offline | src/com/bluesky/cloudmontain/database/SubscriberDatabase_old.java:82-84 | removes one presence entry |
| SubscriberDatabaseOld.SubscriberDatabaseOld.GetOnlineMembers | src/com/bluesky/cloudmontain/database/SubscriberDatabase_old.java:95-107 | for a known group, returns one record (suid, addr) for exactly each present member, built by the record constructor at lines 87-90 |

## Left out

- Network I/O is not modelled.
  - The UDP service is represented by the log of sends (`Repeator.Repeator.sent`).
  - A processor's call into the repeater is represented by its `forwarded` log.
  - Serialisation into the `ByteBuffer` payload is not modelled: a send carries the decoded message.
- Time and timers are not modelled as real time.
  - `System.nanoTime()` readings are parameters of each event (`Clock`).
  - `java.util.Timer` is represented by the log of `schedule`/`cancel` calls, a refused `schedule` included. A task fires only when the caller delivers its expiry.
  - No claim is made about the real cadence. The delays mix milliseconds with nanoseconds: the newer HANG delay truncates to 0 for realistic constants, and the older delays can be negative.
  - An actual `Timer.schedule` with a negative delay throws `IllegalArgumentException`, and both `rearmTxTimer` methods of the older version can ask for one. The model logs such a call as `Refused` and ends the handler there, as the exception does. The task reference is still recorded, because it is assigned before the call.
  - Not modelled is what the exception does next. When it is thrown on the timer's own thread (a transmit task expiring, in the base class) it ends that thread: every later `schedule` then throws `IllegalStateException`, and no armed task fires again. `ThreadedCP`, which is not part of this model, runs the handlers on an executor instead, where the timer survives.
  - CloudmontainCallProperties.InitTimerRunTrace and CloudmontainCallProperties.HangTimerRunTrace cover every expiry the caller delivers. In the source, a task logged as `Refused` never fires, so a run whose delay turns negative stops there.
- Concurrency is not modelled. The timer thread and the receive thread can call into a processor at the same time; the model delivers events one at a time.
- The older version compares `InetAddress` objects with `!=`, which compares references. The model compares addresses by value.
- These are represented by integers and are not modelled:
  - 64-bit `long` ids: unbounded integers with no wrap-around;
  - `mTimerSeed`, an `int` that could wrap after 2^31 tasks: a natural number.
- The identifier and type fields of synthesised messages that this code does not set are 0 in the model: the sequence of the newer CallTerm and the countdown of the older one. The protocol classes that build them are not part of this model.
- `CallInformation`, `GlobalConstants` and `NamedTimerTask` are not part of this model.
  - The call context is a datatype (address, sequence, source, target).
  - The constants are fields of `Config`, and N stays symbolic.
  - A task is its id.
- Logging, the `Observer` interface, `ThreadedCP`, `TrunkManager`, `EchoingCallProcessor`, `UDPService` and both `Main` classes are not part of this model.
- SubscriberDatabase.SubscriberDatabase.GetGroupMember returns a set. The source returns a list in the hash set's iteration order, which is not modelled; the same applies to SubscriberDatabaseOld.
- SubscriberDatabase.SubscriberDatabase.GetOnlineMembers must be called with a known group. The source dereferences the group without a check and throws `NullPointerException` otherwise. The same applies to GetGroupMember and to the old copy.
- SubscriberDatabase.SubscriberDatabase.GetOnlineMembers and SubscriberDatabaseOld.SubscriberDatabaseOld.GetOnlineMembers walk the set in an order the model does not fix: any order is allowed. The result is proved correct in every order and unique up to order.
- `Subscriber.su_id` and `Group.grp_id` are modelled as fields of immutable values replaced in the map. The source mutates them in place, and no other reference to them escapes.
- HangTimerExpiredCorrected and OnTimerCorrected are not used by `RepeatorCallProcessor.CallProcessor`. The class, like the source, follows the code as written, which `HangCountdownOneOvershoots` records. The corrected step is proved separately.

## Findings

| source | as written | input that shows it | evidently intended | confidence | as-written member | corrected member |
|---|---|---|---|---|---|---|
| src/com/bluesky/cloudmontain/repeator/CallProcessor.java:366-396 | HANG's entry already decrements the countdown through `sendCallTerm`, and each expiry decrements it again before testing `0 == mCallHangCountdown`. With CALL_HANG_COUNTDOWN == 1, the entry leaves the countdown at 0 and the first expiry makes it -1. The test is missed, and CallTerms continue until the short wraps back round to 0. | CALL_HANG_COUNTDOWN = 1: the flywheel expires in TXING, then HANG's transmit task expires once | exactly N CallTerms for every N >= 1, then IDLE | medium, not executed (N's value is defined outside the files modelled here) | RepeatorCallProperties.HangCountdownOneOvershoots | RepeatorCallProperties.TeardownCorrected |
