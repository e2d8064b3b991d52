/** mq/memory.go: the buffered event queue.  A Go channel is its buffer together with
    the senders that wait for room in it, in order of arrival. */
module Queue {
  import opened Types

  /** `dropped` collects events published after `Close`, `crashed` those whose sender
      was waiting when `Close` came (a send on a closed channel panics). */
  datatype QueueState = QueueState(
    size: nat,
    buffer: seq<SubmitEvent>,
    senders: seq<SubmitEvent>,
    closed: bool,
    dropped: seq<SubmitEvent>,
    crashed: seq<SubmitEvent>)

  function NewQueue(size: nat): QueueState {
    QueueState(size, [], [], false, [], [])
  }

  predicate WellFormed(q: QueueState) {
    && |q.buffer| <= q.size
    && (q.senders != [] ==> |q.buffer| == q.size)
    && (q.closed ==> q.senders == [])
    && (!q.closed ==> q.dropped == [] && q.crashed == [])
  }

  function Published(q: QueueState, e: SubmitEvent): QueueState {
    if q.closed then q.(dropped := q.dropped + [e])
    else if |q.buffer| < q.size then q.(buffer := q.buffer + [e])
    else q.(senders := q.senders + [e])
  }

  predicate CanReceive(q: QueueState) {
    q.buffer != [] || q.senders != []
  }

  function Head(q: QueueState): SubmitEvent
    requires CanReceive(q)
  {
    if q.buffer != [] then q.buffer[0] else q.senders[0]
  }

  function Received(q: QueueState): QueueState
    requires CanReceive(q)
  {
    if q.buffer == [] then q.(senders := q.senders[1..])
    else if q.senders == [] then q.(buffer := q.buffer[1..])
    else q.(buffer := q.buffer[1..] + [q.senders[0]], senders := q.senders[1..])
  }

  function Closed(q: QueueState): QueueState {
    if q.closed then q
    else q.(closed := true, senders := [], crashed := q.crashed + q.senders)
  }

  /** What a receiver will get, in order, if nothing is published and nobody closes. */
  function Pending(q: QueueState): seq<SubmitEvent> {
    q.buffer + q.senders
  }

  lemma ReceiveShortens(q: QueueState)
    requires CanReceive(q)
    ensures Pending(q) == [Head(q)] + Pending(Received(q))
  {
  }

  /** Everything published and not received, in the order of publication. */
  function Outstanding(q: QueueState): seq<SubmitEvent> {
    Pending(q) + q.crashed + q.dropped
  }

  lemma PublishAppends(q: QueueState, e: SubmitEvent)
    requires WellFormed(q)
    ensures WellFormed(Published(q, e))
    ensures Outstanding(Published(q, e)) == Outstanding(q) + [e]
  {
  }

  lemma ReceiveTakesFirst(q: QueueState)
    requires WellFormed(q) && CanReceive(q)
    ensures WellFormed(Received(q))
    ensures Outstanding(q) == [Head(q)] + Outstanding(Received(q))
  {
    ReceiveShortens(q);
    Regroup([Head(q)], Pending(Received(q)), q.crashed);
    Regroup([Head(q)], Pending(Received(q)) + q.crashed, q.dropped);
  }

  lemma Regroup(a: seq<SubmitEvent>, b: seq<SubmitEvent>, c: seq<SubmitEvent>)
    ensures a + (b + c) == (a + b) + c
  {
  }

  lemma CloseKeepsAll(q: QueueState)
    requires WellFormed(q)
    ensures WellFormed(Closed(q)) && Outstanding(Closed(q)) == Outstanding(q)
  {
  }

  // ----- whole histories of one queue -----

  datatype Op = Publish(e: SubmitEvent) | Receive | Close

  datatype Usage = Usage(queue: QueueState, published: seq<SubmitEvent>, received: seq<SubmitEvent>)

  /** A receive on an empty queue waits, so it does not happen. */
  function UseOnce(u: Usage, op: Op): Usage {
    match op
    case Publish(e) => Usage(Published(u.queue, e), u.published + [e], u.received)
    case Receive =>
      if CanReceive(u.queue) then Usage(Received(u.queue), u.published, u.received + [Head(u.queue)]) else u
    case Close => u.(queue := Closed(u.queue))
  }

  function Use(size: nat, ops: seq<Op>): Usage {
    if ops == [] then Usage(NewQueue(size), [], [])
    else UseOnce(Use(size, ops[..|ops| - 1]), ops[|ops| - 1])
  }

  ghost predicate InOrder(u: Usage) {
    WellFormed(u.queue) && u.published == u.received + Outstanding(u.queue)
  }

  lemma UseOnceInOrder(u: Usage, op: Op)
    requires InOrder(u)
    ensures InOrder(UseOnce(u, op))
  {
    match op
    case Publish(e) =>
      PublishAppends(u.queue, e);
    case Receive =>
      if CanReceive(u.queue) {
        ReceiveTakesFirst(u.queue);
        Regroup(u.received, [Head(u.queue)], Outstanding(Received(u.queue)));
      }
    case Close => CloseKeepsAll(u.queue);
  }

  /** The queue is first in, first out and loses nothing silently: at every moment what
      was received, followed by what is still held, is what was published. */
  lemma {:induction false} FirstInFirstOut(size: nat, ops: seq<Op>)
    ensures WellFormed(Use(size, ops).queue)
    ensures Use(size, ops).published == Use(size, ops).received + Outstanding(Use(size, ops).queue)
  {
    if ops != [] {
      FirstInFirstOut(size, ops[..|ops| - 1]);
      UseOnceInOrder(Use(size, ops[..|ops| - 1]), ops[|ops| - 1]);
    }
  }

  // ----- the object -----

  /** What a receive finds: an event, an open queue to wait at, or a closed and empty one. */
  datatype Receipt = Event(event: SubmitEvent) | WouldWait | Drained

  class MemoryQueue {
    const size: nat
    var buffer: seq<SubmitEvent>
    var senders: seq<SubmitEvent>
    var closed: bool
    ghost var dropped: seq<SubmitEvent>
    ghost var crashed: seq<SubmitEvent>

    ghost function View(): QueueState
      reads this
    {
      QueueState(size, buffer, senders, closed, dropped, crashed)
    }

    constructor (size: nat)
      ensures View() == NewQueue(size) && this.size == size
    {
      this.size := size;
      buffer, senders, closed, dropped, crashed := [], [], false, [], [];
    }

    method Publish(e: SubmitEvent)
      modifies this
      ensures View() == Published(old(View()), e)
    {
      if closed {
        dropped := dropped + [e];
        return;
      }
      if |buffer| < size {
        buffer := buffer + [e];
      } else {
        senders := senders + [e];
      }
    }

    /** The receive of the consumer's select.  Where it would wait, nothing happens. */
    method Receive() returns (r: Receipt)
      modifies this
      ensures old(CanReceive(View())) ==> r == Event(old(Head(View()))) && View() == old(Received(View()))
      ensures !old(CanReceive(View())) ==> r == (if closed then Drained else WouldWait) && View() == old(View())
    {
      if buffer != [] {
        r := Event(buffer[0]);
        buffer := buffer[1..];
        if senders != [] {
          buffer := buffer + [senders[0]];
          senders := senders[1..];
        }
      } else if senders != [] {
        r := Event(senders[0]);
        senders := senders[1..];
      } else {
        r := if closed then Drained else WouldWait;
      }
    }

    method Close()
      modifies this
      ensures View() == Closed(old(View()))
    {
      if !closed {
        crashed := crashed + senders;
        senders := [];
        closed := true;
      }
    }
  }
}
