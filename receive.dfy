/**
 * The receive engine: reading one frame, the blocking receive with a
 * timeout (Recv), and draining the receive queue (ReadBuffer).
 *
 * The driver's read queue, the receive event and the clock are inputs:
 * each loop iteration consumes one Step (or one ReadResult), in order.
 * When the inputs run out while the loop would still go on, the outcome
 * is Pending.
 */
module Receive {
  import opened GoInts
  import opened Wrappers
  import opened GoCan
  import opened PcanTypes
  import opened Codec
  import opened DriverErrors

  /** What one driver read returns: status, the frame (zero when nothing was read) and the call's error. */
  datatype ReadResult = ReadResult(status: TPCANStatus, frame: NativeFrame, err: Option<Error>)

  /** A read that yields a message: no call error and a status other than "queue empty". */
  predicate Delivers(r: ReadResult) {
    r.err.None? && r.status != PCAN_ERROR_QRCVEMPTY
  }

  /** A read the adapter can process: a frame it decodes fits its data array. */
  predicate Decodable(r: ReadResult) {
    Delivers(r) ==> InBounds(r.frame)
  }

  /** What recvSingleMessage returns: the read's status, the message if any, and an error. */
  datatype Single = Single(ret: TPCANStatus, msg: Option<Message>, err: Option<Error>)

  function RecvSingleMessage(r: ReadResult, channel: string): Single
    requires Decodable(r)
  {
    if r.err.Some? || r.status == PCAN_ERROR_QRCVEMPTY then Single(r.status, None, r.err)
    else Single(r.status, Some(Decode(r.frame, channel)), None)
  }

  // ---------------------------------------------------------------------
  // Recv

  const INFINITE: uint32 := 0xFFFF_FFFF
  const WAIT_OBJECT_0: uint32 := 0x0000_0000
  const WAIT_TIMEOUT: uint32 := 0x0000_0102
  const WAIT_FAILED: uint32 := 0xFFFF_FFFF
  /** Length of one polling pause. */
  const POLL_SLEEP_MICROS: nat := 250

  /** Outcome of one wait on the receive event. */
  datatype WaitResult = WaitResult(val: uint32, err: Option<Error>)

  /**
   * What one iteration of the receive loop meets: the read's result, the
   * outcome of the event wait (used only with events, after an empty read)
   * and the clock in milliseconds (used only when polling, after an empty read).
   */
  datatype Step = Step(read: ReadResult, wait: WaitResult, now: int64)

  /** Blocking actions the loop takes: an event wait with its timeout, or a pause. */
  datatype Effect = Wait(ms: uint32) | Sleep(micros: nat)

  /** What Recv returns, or Pending when the inputs ran out while it still waits. */
  datatype RecvOutcome = Returned(msg: Option<Message>, err: Option<Error>) | Pending

  /** The values Recv fixes before its loop. */
  datatype Setup = Setup(channel: string, useEvents: bool, waitMs: uint32, endTime: int64)

  /**
   * Recv's set-up: a negative timeout becomes INFINITE milliseconds; the
   * event wait gets uint32 of the timeout; the deadline is the start time
   * plus the timeout in 64-bit arithmetic.
   */
  function RecvSetup(channel: string, useEvents: bool, timeout: int64, start: int64): (s: Setup)
    ensures timeout < 0 ==> s.waitMs == 0xFFFF_FFFF && s.endTime == WrapInt64(start as int + 0xFFFF_FFFF)
    ensures 0 <= timeout < 0x1_0000_0000 ==> s.waitMs as int == timeout as int
    ensures timeout >= 0 ==> s.waitMs == TruncU32(timeout as nat)
    ensures timeout >= 0 ==> s.endTime == WrapInt64(start as int + timeout as int)
  {
    var t := if timeout < 0 then INFINITE as int64 else timeout;
    Setup(channel, useEvents, TruncU32(t as nat), WrapInt64(start as int + t as int))
  }

  /** How one iteration ends: with a message, with a return without one, or by looping again. */
  datatype Action = Deliver(m: Message) | Stop(err: Option<Error>) | Continue

  /** One iteration of the receive loop, with the blocking it does. */
  function StepOf(setup: Setup, st: Step): (Action, seq<Effect>)
    requires Decodable(st.read)
  {
    var s := RecvSingleMessage(st.read, setup.channel);
    if s.msg.Some? then (Deliver(s.msg.value), [])
    else if s.ret == PCAN_ERROR_QRCVEMPTY then
      if setup.useEvents then
        if st.wait.val == WAIT_OBJECT_0 then (Continue, [Wait(setup.waitMs)])
        else (Stop(st.wait.err), [Wait(setup.waitMs)])
      else if st.now > setup.endTime then (Stop(s.err), [])
      else (Continue, [Sleep(POLL_SLEEP_MICROS)])
    else (Continue, [])
  }

  predicate AllDecodable(steps: seq<Step>) {
    forall i | 0 <= i < |steps| :: Decodable(steps[i].read)
  }

  /** A loop outcome preceded by the blocking actions already taken. */
  function AfterEffects(done: seq<Effect>, r: (RecvOutcome, seq<Effect>)): (RecvOutcome, seq<Effect>) {
    (r.0, done + r.1)
  }

  /** Blocking actions taken in two rounds are those of the first followed by those of the second. */
  lemma AfterEffectsTwice(a: seq<Effect>, b: seq<Effect>, r: (RecvOutcome, seq<Effect>))
    ensures AfterEffects(a, AfterEffects(b, r)) == AfterEffects(a + b, r)
  {
    assert a + (b + r.1) == (a + b) + r.1;
  }

  /** The receive loop over a sequence of iterations: its outcome and its blocking actions. */
  function RecvFrom(setup: Setup, steps: seq<Step>): (RecvOutcome, seq<Effect>)
    requires AllDecodable(steps)
    decreases |steps|
  {
    if steps == [] then (Pending, [])
    else
      var step := StepOf(setup, steps[0]);
      match step.0
      case Deliver(m) => (Returned(Some(m), None), step.1)
      case Stop(err) => (Returned(None, err), step.1)
      case Continue => AfterEffects(step.1, RecvFrom(setup, steps[1..]))
  }

  /** The receive loop from iteration i on: that iteration, then the rest if it goes on. */
  lemma RecvFromUnfold(setup: Setup, steps: seq<Step>, i: nat)
    requires AllDecodable(steps) && i < |steps|
    ensures var step := StepOf(setup, steps[i]);
            && (step.0.Continue? ==>
                  RecvFrom(setup, steps[i..]) == AfterEffects(step.1, RecvFrom(setup, steps[i + 1..])))
            && (step.0.Deliver? ==> RecvFrom(setup, steps[i..]) == (Returned(Some(step.0.m), None), step.1))
            && (step.0.Stop? ==> RecvFrom(setup, steps[i..]) == (Returned(None, step.0.err), step.1))
  {
    assert steps[i..][1..] == steps[i + 1..];
  }

  /**
   * One pass of Recv's loop body: read one frame; on an empty queue wait on
   * the event (events in use) or check the deadline and pause (polling).
   */
  method RecvIteration(setup: Setup, st: Step) returns (action: Action, effects: seq<Effect>)
    requires Decodable(st.read)
    ensures (action, effects) == StepOf(setup, st)
  {
    var s := RecvSingleMessage(st.read, setup.channel);
    effects := [];
    if s.msg.Some? {
      return Deliver(s.msg.value), effects;
    }
    if s.ret == PCAN_ERROR_QRCVEMPTY {
      if setup.useEvents {
        effects := [Wait(setup.waitMs)];
        // WAIT_FAILED, WAIT_TIMEOUT and every other value return alike
        if st.wait.val != WAIT_OBJECT_0 {
          return Stop(st.wait.err), effects;
        }
      } else {
        if st.now > setup.endTime {
          return Stop(s.err), effects;
        }
        effects := [Sleep(POLL_SLEEP_MICROS)];
      }
    }
    action := Continue;
  }

  /**
   * Receives one message, waiting on the receive event when events are in
   * use and otherwise polling against the deadline.
   */
  method Recv(channel: string, useEvents: bool, timeout: int64, start: int64, steps: seq<Step>)
    returns (out: RecvOutcome, effects: seq<Effect>)
    requires AllDecodable(steps)
    ensures out == RecvFrom(RecvSetup(channel, useEvents, timeout, start), steps).0
    ensures effects == RecvFrom(RecvSetup(channel, useEvents, timeout, start), steps).1
  {
    var t := timeout;
    if t < 0 {
      t := INFINITE as int64;
    }
    var setup := Setup(channel, useEvents, TruncU32(t as nat), WrapInt64(start as int + t as int));
    assert setup == RecvSetup(channel, useEvents, timeout, start);
    assert steps[0..] == steps;

    ghost var total := RecvFrom(setup, steps);
    var i := 0;
    effects := [];
    assert [] + total.1 == total.1;
    while i < |steps|
      invariant 0 <= i <= |steps|
      invariant total == AfterEffects(effects, RecvFrom(setup, steps[i..]))
    {
      RecvFromUnfold(setup, steps, i);
      var action, more := RecvIteration(setup, steps[i]);
      AfterEffectsTwice(effects, more, RecvFrom(setup, steps[i + 1..]));
      effects := effects + more;
      match action
      case Deliver(m) => return Returned(Some(m), None), effects;
      case Stop(err) => return Returned(None, err), effects;
      case Continue =>
        i := i + 1;
    }
    assert steps[i..] == [];
    return Pending, effects;
  }

  /** An iteration that neither yields a message nor returns. */
  predicate KeepsWaiting(setup: Setup, st: Step)
    requires Decodable(st.read)
  {
    StepOf(setup, st).0.Continue?
  }

  /**
   * The loop keeps going exactly after a failed read that did not report an
   * empty queue (whatever the clock says), or after an empty read followed
   * by a signalled event (with events) or a clock not past the deadline
   * (when polling).
   */
  lemma KeepsWaitingIff(setup: Setup, st: Step)
    requires Decodable(st.read)
    ensures KeepsWaiting(setup, st) <==>
            || (st.read.err.Some? && st.read.status != PCAN_ERROR_QRCVEMPTY)
            || (st.read.status == PCAN_ERROR_QRCVEMPTY &&
                if setup.useEvents then st.wait.val == WAIT_OBJECT_0 else st.now <= setup.endTime)
  {
  }

  /**
   * Recv returns the first message the reads deliver, with no error,
   * whatever its kind (error and status frames are not filtered out).
   */
  lemma {:induction false} RecvReturnsFirstMessage(setup: Setup, steps: seq<Step>, k: nat)
    requires AllDecodable(steps)
    requires k < |steps| && Delivers(steps[k].read)
    requires forall j | 0 <= j < k :: KeepsWaiting(setup, steps[j])
    ensures RecvFrom(setup, steps).0 == Returned(Some(Decode(steps[k].read.frame, setup.channel)), None)
  {
    if k > 0 {
      assert KeepsWaiting(setup, steps[0]);
      RecvReturnsFirstMessage(setup, steps[1..], k - 1);
    }
  }

  /**
   * When polling, an empty read seen after the deadline makes Recv return
   * no message and that read's error (normally none).
   */
  lemma {:induction false} RecvPollTimeout(setup: Setup, steps: seq<Step>, k: nat)
    requires AllDecodable(steps) && !setup.useEvents
    requires k < |steps| && steps[k].read.status == PCAN_ERROR_QRCVEMPTY && steps[k].now > setup.endTime
    requires forall j | 0 <= j < k :: KeepsWaiting(setup, steps[j])
    ensures RecvFrom(setup, steps).0 == Returned(None, steps[k].read.err)
  {
    if k > 0 {
      assert KeepsWaiting(setup, steps[0]);
      RecvPollTimeout(setup, steps[1..], k - 1);
    }
  }

  /**
   * With events, an empty read followed by any wait result other than
   * WAIT_OBJECT_0 makes Recv return no message and the wait's error.
   */
  lemma {:induction false} RecvWaitFails(setup: Setup, steps: seq<Step>, k: nat)
    requires AllDecodable(steps) && setup.useEvents
    requires k < |steps| && steps[k].read.status == PCAN_ERROR_QRCVEMPTY && steps[k].wait.val != WAIT_OBJECT_0
    requires forall j | 0 <= j < k :: KeepsWaiting(setup, steps[j])
    ensures RecvFrom(setup, steps).0 == Returned(None, steps[k].wait.err)
  {
    if k > 0 {
      assert KeepsWaiting(setup, steps[0]);
      RecvWaitFails(setup, steps[1..], k - 1);
    }
  }

  /**
   * Every event wait is given the whole timeout of the call, not what is
   * left of it; waits happen only with events and pauses only when polling.
   */
  lemma {:induction false} RecvWaitsWithFullTimeout(setup: Setup, steps: seq<Step>)
    requires AllDecodable(steps)
    ensures forall e | e in RecvFrom(setup, steps).1 ::
              if setup.useEvents then e == Wait(setup.waitMs) else e == Sleep(POLL_SLEEP_MICROS)
  {
    if steps != [] {
      RecvWaitsWithFullTimeout(setup, steps[1..]);
    }
  }

  /**
   * Polling an empty queue: with every read empty and the clock not past
   * the deadline before step k but past it at k, Recv pauses k times and
   * then returns no message.
   */
  lemma {:induction false} RecvPollsUntilDeadline(setup: Setup, steps: seq<Step>, k: nat)
    requires AllDecodable(steps) && !setup.useEvents
    requires k < |steps|
    requires forall j | 0 <= j <= k :: steps[j].read.status == PCAN_ERROR_QRCVEMPTY
    requires forall j | 0 <= j < k :: steps[j].now <= setup.endTime
    requires steps[k].now > setup.endTime
    ensures RecvFrom(setup, steps).0 == Returned(None, steps[k].read.err)
    ensures RecvFrom(setup, steps).1 == seq(k, _ => Sleep(POLL_SLEEP_MICROS))
  {
    if k > 0 {
      assert StepOf(setup, steps[0]) == (Continue, [Sleep(POLL_SLEEP_MICROS)]);
      RecvPollsUntilDeadline(setup, steps[1..], k - 1);
      assert [Sleep(POLL_SLEEP_MICROS)] + seq(k - 1, _ => Sleep(POLL_SLEEP_MICROS)) == seq(k, _ => Sleep(POLL_SLEEP_MICROS));
    }
  }

  // ---------------------------------------------------------------------
  // ReadBuffer

  /** What ReadBuffer returns, or the messages so far when the reads ran out. */
  datatype DrainOutcome = Drained(msgs: seq<Message>, err: Option<Error>) | DrainPending(msgs: seq<Message>)

  predicate AllReadsDecodable(queue: seq<ReadResult>) {
    forall i | 0 <= i < |queue| :: Decodable(queue[i])
  }

  /** The drain loop, with the messages `acc` already collected. */
  function DrainFrom(channel: string, limit: uint16, acc: seq<Message>, queue: seq<ReadResult>): DrainOutcome
    requires AllReadsDecodable(queue)
    decreases |queue|
  {
    if queue == [] then DrainPending(acc)
    else
      var s := RecvSingleMessage(queue[0], channel);
      if s.ret == PCAN_ERROR_QRCVEMPTY then Drained(acc, s.err)
      else if s.msg.Some? then
        var acc' := acc + [s.msg.value];
        if limit != 0 && |acc'| >= limit as int then Drained(acc', s.err)
        else DrainFrom(channel, limit, acc', queue[1..])
      else DrainFrom(channel, limit, acc, queue[1..])
  }

  /** Reads until the queue reports empty, keeping at most `limit` messages (0: no limit). */
  method ReadBuffer(channel: string, limit: uint16, queue: seq<ReadResult>) returns (out: DrainOutcome)
    requires AllReadsDecodable(queue)
    ensures out == DrainFrom(channel, limit, [], queue)
  {
    var msgs: seq<Message> := [];
    var i := 0;
    while i < |queue|
      invariant 0 <= i <= |queue|
      invariant DrainFrom(channel, limit, msgs, queue[i..]) == DrainFrom(channel, limit, [], queue)
    {
      assert queue[i..][1..] == queue[i + 1..];
      var s := RecvSingleMessage(queue[i], channel);
      if s.ret == PCAN_ERROR_QRCVEMPTY {
        return Drained(msgs, s.err);
      }
      if s.msg.Some? {
        msgs := msgs + [s.msg.value];
        if limit != 0 && |msgs| >= limit as int {
          return Drained(msgs, s.err);
        }
      }
      i := i + 1;
    }
    return DrainPending(msgs);
  }

  /** Index of the first read that reports an empty queue, or |queue|. */
  function FirstEmpty(queue: seq<ReadResult>): (k: nat)
    ensures k <= |queue|
    ensures k < |queue| ==> queue[k].status == PCAN_ERROR_QRCVEMPTY
    ensures forall j | 0 <= j < k :: queue[j].status != PCAN_ERROR_QRCVEMPTY
  {
    if queue == [] then 0
    else if queue[0].status == PCAN_ERROR_QRCVEMPTY then 0
    else 1 + FirstEmpty(queue[1..])
  }

  /** The messages of the delivering queue, in read order. */
  function Delivered(channel: string, queue: seq<ReadResult>): seq<Message>
    requires AllReadsDecodable(queue)
  {
    if queue == [] then []
    else
      MessagesOf(channel, queue[0]) + Delivered(channel, queue[1..])
  }

  /** The messages a read contributes: one if it delivers, none otherwise. */
  function MessagesOf(channel: string, r: ReadResult): (ms: seq<Message>)
    requires Decodable(r)
    ensures |ms| <= 1
    ensures ms != [] <==> Delivers(r)
  {
    if Delivers(r) then [Decode(r.frame, channel)] else []
  }

  /**
   * Past a read that does not report an empty queue, the first empty-queue
   * report and the messages before it are those of the rest, shifted by one.
   */
  lemma {:induction false} DeliveredShift(channel: string, queue: seq<ReadResult>)
    requires AllReadsDecodable(queue)
    requires queue != [] && queue[0].status != PCAN_ERROR_QRCVEMPTY
    ensures FirstEmpty(queue) == 1 + FirstEmpty(queue[1..])
    ensures FirstEmpty(queue) < |queue| ==> queue[FirstEmpty(queue)] == queue[1..][FirstEmpty(queue[1..])]
    ensures Delivered(channel, queue[..FirstEmpty(queue)])
            == MessagesOf(channel, queue[0]) + Delivered(channel, queue[1..][..FirstEmpty(queue[1..])])
  {
    var k := FirstEmpty(queue);
    assert queue[..k][0] == queue[0];
    assert queue[..k][1..] == queue[1..][..k - 1];
  }

  /**
   * A read that does not report an empty queue adds its message, if any,
   * and ends the drain only when that reaches the limit.
   */
  lemma DrainStep(channel: string, limit: uint16, acc: seq<Message>, queue: seq<ReadResult>)
    requires AllReadsDecodable(queue)
    requires queue != [] && queue[0].status != PCAN_ERROR_QRCVEMPTY
    requires limit == 0 || |acc| < limit as int
    ensures var acc' := acc + MessagesOf(channel, queue[0]);
            DrainFrom(channel, limit, acc, queue)
            == if limit != 0 && |acc'| >= limit as int then Drained(acc', None)
               else DrainFrom(channel, limit, acc', queue[1..])
  {
    if !Delivers(queue[0]) {
      assert acc + MessagesOf(channel, queue[0]) == acc;
    }
  }

  /**
   * What ReadBuffer returns, given the messages `all` read before the first
   * empty-queue report, in read order: the first `limit` of them with no
   * error once the limit is reached; otherwise all of them with the error of
   * the empty-queue read; Pending only when no read reported an empty queue.
   */
  function DrainExpected(channel: string, limit: uint16, acc: seq<Message>, queue: seq<ReadResult>): DrainOutcome
    requires AllReadsDecodable(queue)
  {
    var all := acc + Delivered(channel, queue[..FirstEmpty(queue)]);
    if limit != 0 && |all| >= limit as int then Drained(all[..limit], None)
    else if FirstEmpty(queue) < |queue| then Drained(all, queue[FirstEmpty(queue)].err)
    else DrainPending(all)
  }

  /** The drain loop's outcome is the one described by DrainExpected. */
  lemma {:induction false} DrainResult(channel: string, limit: uint16, acc: seq<Message>, queue: seq<ReadResult>)
    requires AllReadsDecodable(queue)
    requires limit == 0 || |acc| < limit as int
    ensures DrainFrom(channel, limit, acc, queue) == DrainExpected(channel, limit, acc, queue)
    decreases |queue|, 1
  {
    if queue == [] {
    } else if queue[0].status == PCAN_ERROR_QRCVEMPTY {
      assert queue[..0] == [];
    } else {
      DrainResultPastRead(channel, limit, acc, queue);
    }
  }

  /** DrainResult past a first read that does not report an empty queue. */
  lemma {:induction false} DrainResultPastRead(channel: string, limit: uint16, acc: seq<Message>, queue: seq<ReadResult>)
    requires AllReadsDecodable(queue)
    requires limit == 0 || |acc| < limit as int
    requires queue != [] && queue[0].status != PCAN_ERROR_QRCVEMPTY
    ensures DrainFrom(channel, limit, acc, queue) == DrainExpected(channel, limit, acc, queue)
    decreases |queue|, 0
  {
    DrainStep(channel, limit, acc, queue);
    DrainExpectedShift(channel, limit, acc, queue);
    var acc' := acc + MessagesOf(channel, queue[0]);
    if !(limit != 0 && |acc'| >= limit as int) {
      DrainResult(channel, limit, acc', queue[1..]);
    }
  }

  /**
   * DrainExpected past a read that does not report an empty queue: that
   * read's message, if any, joins the collected ones.
   */
  lemma DrainExpectedShift(channel: string, limit: uint16, acc: seq<Message>, queue: seq<ReadResult>)
    requires AllReadsDecodable(queue)
    requires limit == 0 || |acc| < limit as int
    requires queue != [] && queue[0].status != PCAN_ERROR_QRCVEMPTY
    ensures var acc' := acc + MessagesOf(channel, queue[0]);
            DrainExpected(channel, limit, acc, queue)
            == if limit != 0 && |acc'| >= limit as int then Drained(acc', None)
               else DrainExpected(channel, limit, acc', queue[1..])
  {
    DeliveredShift(channel, queue);
    var acc' := acc + MessagesOf(channel, queue[0]);
    var rest := Delivered(channel, queue[1..][..FirstEmpty(queue[1..])]);
    CollectedShift(channel, acc, queue);
    if limit != 0 && |acc'| >= limit as int {
      assert (acc' + rest)[..limit] == acc';
    }
  }

  /** The messages collected before the first empty-queue report, seen from the second read on. */
  lemma CollectedShift(channel: string, acc: seq<Message>, queue: seq<ReadResult>)
    requires AllReadsDecodable(queue)
    requires queue != [] && queue[0].status != PCAN_ERROR_QRCVEMPTY
    ensures acc + Delivered(channel, queue[..FirstEmpty(queue)])
            == (acc + MessagesOf(channel, queue[0])) + Delivered(channel, queue[1..][..FirstEmpty(queue[1..])])
  {
    DeliveredShift(channel, queue);
  }

  /** ReadBuffer never returns more than a non-zero limit, and keeps read order. */
  lemma ReadBufferBounded(channel: string, limit: uint16, queue: seq<ReadResult>)
    requires AllReadsDecodable(queue)
    ensures var out := DrainFrom(channel, limit, [], queue);
            && (limit != 0 ==> |out.msgs| <= limit as int)
            && out.msgs <= Delivered(channel, queue[..FirstEmpty(queue)])
  {
    DrainResult(channel, limit, [], queue);
  }

  /** With limit 0, ReadBuffer returns every message read before the first empty-queue report. */
  lemma ReadBufferUnlimited(channel: string, queue: seq<ReadResult>)
    requires AllReadsDecodable(queue)
    requires FirstEmpty(queue) < |queue|
    ensures DrainFrom(channel, 0, [], queue)
            == Drained(Delivered(channel, queue[..FirstEmpty(queue)]), queue[FirstEmpty(queue)].err)
  {
    DrainResult(channel, 0, [], queue);
  }
}
