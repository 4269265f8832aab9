/**
 * Values shared by the call processors, the fan-out policy and the
 * membership store: Java's 16-bit `short` arithmetic, network endpoints,
 * the protocol messages as abstract records, the call context, and the
 * observable side effects (timer operations and entry/exit hooks).
 */
module Protocol {

  datatype Option<T> = None | Some(value: T)

  // ---------------------------------------------------------------- short

  const SHORT_MIN: int := -0x8000
  const SHORT_MAX: int := 0x7FFF
  const SHORT_RANGE: int := 0x1_0000

  /** The values of a Java `short`. */
  type Short = x: int | -0x8000 <= x < 0x8000

  /** Java's narrowing conversion `(short) x`: the short congruent to x modulo 2^16. */
  function ToShort(x: int): (r: Short)
    ensures (r - x) % SHORT_RANGE == 0
    ensures SHORT_MIN <= x <= SHORT_MAX ==> r == x
  {
    var q := (x + 0x8000) % SHORT_RANGE;
    assert x + 0x8000 == SHORT_RANGE * ((x + 0x8000) / SHORT_RANGE) + q;
    q - 0x8000
  }

  /** `++x` on a short: one more, wrapping from SHORT_MAX to SHORT_MIN. */
  function Inc(x: Short): (r: Short)
    ensures (r - x - 1) % SHORT_RANGE == 0
    ensures x < SHORT_MAX ==> r == x + 1
    ensures x == SHORT_MAX ==> r == SHORT_MIN
  {
    ToShort(x + 1)
  }

  /** `--x` on a short: one less, wrapping from SHORT_MIN to SHORT_MAX. */
  function Dec(x: Short): (r: Short)
    ensures (r - x + 1) % SHORT_RANGE == 0
    ensures x > SHORT_MIN ==> r == x - 1
    ensures x == SHORT_MIN ==> r == SHORT_MAX
  {
    ToShort(x - 1)
  }

  /** Narrowing is insensitive to a multiple of 2^16 added to its argument. */
  lemma ToShortShift(x: int, k: int)
    ensures ToShort(x + SHORT_RANGE * k) == ToShort(x)
  {
    var a, b := ToShort(x + SHORT_RANGE * k), ToShort(x);
    assert (a - b) % SHORT_RANGE == 0 by {
      assert (a - (x + SHORT_RANGE * k)) % SHORT_RANGE == 0;
      assert (b - x) % SHORT_RANGE == 0;
      var i := (a - (x + SHORT_RANGE * k)) / SHORT_RANGE;
      var j := (b - x) / SHORT_RANGE;
      assert a - b == SHORT_RANGE * (i + k - j);
    }
    assert -SHORT_RANGE < a - b < SHORT_RANGE;
  }

  /** Narrowing twice is narrowing once: `(short)((short)x + n) == (short)(x + n)`. */
  lemma ToShortAdd(x: int, n: int)
    ensures ToShort(ToShort(x) + n) == ToShort(x + n)
  {
    var t := ToShort(x);
    var k := (t - x) / SHORT_RANGE;
    assert t - x == SHORT_RANGE * k;
    ToShortShift(x + n, k);
    assert t + n == x + n + SHORT_RANGE * k;
  }

  // ------------------------------------------------------------ addresses

  /** An `InetSocketAddress`: the host address (opaque) and the UDP port. */
  datatype Endpoint = Endpoint(ip: int, port: int)

  // --------------------------------------------------------------- packets

  /**
   * The decoded protocol messages a call processor handles. Every message
   * carries a source subscriber id, a target group id (Java `long`s) and a
   * 16-bit sequence number; CallData also carries an audio sequence, and
   * CallTerm an audio sequence and a teardown countdown. `Other` stands for
   * every remaining type (Registration, Ack, ...). The wire encoding is not
   * part of this model.
   */
  datatype Packet =
    | CallInit(source: int, target: int, sequence: Short)
    | CallData(source: int, target: int, sequence: Short, audioSeq: Short)
    | CallTerm(source: int, target: int, sequence: Short, audioSeq: Short, countdown: Short)
    | Other(source: int, target: int, sequence: Short)

  /**
   * The call context (`CallInformation`): the transmitter's address (null
   * until the first CallInit is recorded), the recorded sequence number, the
   * transmitting subscriber and the target group.
   */
  datatype CallInfo = CallInfo(sender: Option<Endpoint>, sequence: Short, source: int, target: int)

  const NoCall: CallInfo := CallInfo(None, 0, 0, 0)

  // ---------------------------------------------------------- side effects

  /**
   * A call on `java.util.Timer`: `schedule(task, delay)`, `task.cancel()`, or a
   * `schedule(task, delay)` the timer refused because the delay was negative
   * (it throws IllegalArgumentException, and the task is never scheduled).
   */
  datatype TimerOp = Schedule(id: nat, delay: int) | Cancel(id: nat) | Refused(id: nat, delay: int)

  /** The four call states. */
  datatype State = Idle | Init | Txing | Hang

  /** A run of a state node's `entry()` or `exit()`. */
  datatype Hook = Entered(state: State) | Exited(state: State)

  /**
   * The two readings of `System.nanoTime()` an event can make: the one taken
   * when a packet is forwarded and, later in the same event, the one taken
   * when a transmit timer is re-armed.
   */
  datatype Clock = Clock(atForward: int, atRearm: int)

  const MILLION: int := 1_000_000

  /**
   * Java's `a / (1000L * 1000)` on a `long`: division by 10^6 truncating
   * toward zero (Dafny's own `/` rounds toward negative infinity).
   */
  function TruncDivMillion(a: int): (r: int)
    ensures 0 <= a ==> 0 <= r * MILLION <= a < r * MILLION + MILLION
    ensures a < 0 ==> r * MILLION - MILLION < a <= r * MILLION <= 0
  {
    if a >= 0 then a / MILLION else -((-a) / MILLION)
  }

  // ------------------------------------------------------ synthesised runs

  /** The CallInit messages synthesised after sequence number `s`: s+1, s+2, ... (wrapping). */
  function CallInitRun(info: CallInfo, s: Short, k: nat): (r: seq<Packet>)
    ensures |r| == k
  {
    seq(k, i requires 0 <= i < k => CallInit(info.source, info.target, ToShort(s + i + 1)))
  }

  lemma CallInitRunCons(info: CallInfo, s: Short, k: nat)
    requires k >= 1
    ensures CallInitRun(info, s, k) == [CallInit(info.source, info.target, Inc(s))] + CallInitRun(info, Inc(s), k - 1)
  {
    var r, r' := CallInitRun(info, s, k), [CallInit(info.source, info.target, Inc(s))] + CallInitRun(info, Inc(s), k - 1);
    forall i | 0 <= i < k ensures r[i] == r'[i] {
      if i > 0 {
        ToShortAdd(s + 1, i);
      }
    }
  }
}
