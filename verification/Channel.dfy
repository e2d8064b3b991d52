/** channel.go: the bounded outgoing buffer of one connection and the goroutine that
    writes it out. */
module Channel {
  import opened Types

  const CAPACITY: nat := 5

  /** `Nothing` is the empty payload, which is also what a closed and drained Go channel yields. */
  datatype Payload = Nothing | JobMessage(job: Job) | Reply(id: int)

  /** Where the write loop stands: in the select; after the first write; with `left`
      receives of the inner loop to go; returned. */
  datatype Writer = Waiting | Wrote | Draining(left: nat) | Stopped

  /** A Go channel is its buffer and the pushes that wait for room, in order of arrival.
      `tested` are the payloads of pushes that have found the close event not fired and have
      still to send; `crashed` those that were waiting when the channel was closed, `panicked`
      those sent after that. */
  datatype Chan = Chan(
    buffer: seq<Payload>,
    waiting: seq<Payload>,
    tested: multiset<Payload>,
    closed: bool,
    fired: bool,
    writer: Writer,
    pushed: seq<Payload>,
    written: seq<Payload>,
    crashed: seq<Payload>,
    panicked: seq<Payload>)

  const NEW_CHAN := Chan([], [], multiset{}, false, false, Waiting, [], [], [], [])

  /** A push is a test and a send, a close is the closing of the Go channel and the firing of the
      event; `ok` tells whether the write to the connection succeeds. */
  datatype Step =
    | Test(p: Payload)
    | Send(p: Payload)
    | CloseChan
    | Fire
    | WriteFirst(ok: bool)
    | Measure
    | WriteNext(ok: bool)
    | Flush(ok: bool)
    | Quit

  predicate Outside(step: Step) {
    step.Test? || step.Send? || step.CloseChan? || step.Fire?
  }

  function Front(c: Chan): Payload {
    if c.buffer == [] then Nothing else c.buffer[0]
  }

  /** A receive: the first payload leaves, and the first waiting push gets its place. */
  function Taken(c: Chan): Chan {
    if c.buffer == [] then c
    else if c.waiting == [] then c.(buffer := c.buffer[1..])
    else c.(buffer := c.buffer[1..] + [c.waiting[0]], waiting := c.waiting[1..])
  }

  /** A push is refused once the event has fired; a receive waits for a payload or for the
      closing of the Go channel. */
  predicate Possible(c: Chan, step: Step) {
    match step
    case Test(_) => !c.fired
    case Send(p) => p in c.tested
    case CloseChan => !c.closed
    case Fire => c.closed && !c.fired
    case WriteFirst(_) => c.writer == Waiting && (c.buffer != [] || c.closed)
    case Measure => c.writer == Wrote
    case WriteNext(_) => c.writer.Draining? && c.writer.left > 0 && (c.buffer != [] || c.closed)
    case Flush(_) => c.writer == Draining(0)
    case Quit => c.writer == Waiting && c.fired
  }

  /** A send on a closed Go channel panics. */
  function Sent(c: Chan, p: Payload): Chan {
    var c' := c.(tested := c.tested - multiset{p});
    if c.closed then c'.(panicked := c.panicked + [p])
    else if |c.buffer| < CAPACITY then c'.(buffer := c.buffer + [p], pushed := c.pushed + [p])
    else c'.(waiting := c.waiting + [p], pushed := c.pushed + [p])
  }

  /** One receive and the write of what it yields. */
  function Written(c: Chan, ok: bool, next: Writer): Chan {
    var c' := Taken(c);
    if ok then c'.(written := c.written + [Front(c)], writer := next) else c'.(writer := Stopped)
  }

  function Do(c: Chan, step: Step): Chan
    requires Possible(c, step)
  {
    match step
    case Test(p) => c.(tested := c.tested + multiset{p})
    case Send(p) => Sent(c, p)
    case CloseChan => c.(closed := true, waiting := [], crashed := c.waiting)
    case Fire => c.(fired := true)
    case WriteFirst(ok) => Written(c, ok, Wrote)
    case Measure => c.(writer := Draining(|c.buffer|))
    case WriteNext(ok) => Written(c, ok, Draining(c.writer.left - 1))
    case Flush(ok) => c.(writer := if ok then Waiting else Stopped)
    case Quit => c.(writer := Stopped)
  }

  function StepsFrom(c: Chan, steps: seq<Step>): Option<Chan>
    decreases |steps|
  {
    if steps == [] then Some(c)
    else
      var before := StepsFrom(c, steps[..|steps| - 1]);
      var step := steps[|steps| - 1];
      if before.Some? && Possible(before.value, step) then Some(Do(before.value, step)) else None
  }

  /** The payloads that carry something. */
  function Solid(ps: seq<Payload>): seq<Payload> {
    if ps == [] then []
    else Solid(ps[..|ps| - 1]) + if ps[|ps| - 1] == Nothing then [] else [ps[|ps| - 1]]
  }

  lemma {:induction false} SolidConcat(a: seq<Payload>, b: seq<Payload>)
    ensures Solid(a + b) == Solid(a) + Solid(b)
  {
    if b == [] {
      assert a + b == a;
    } else {
      assert (a + b)[..|a + b| - 1] == a + b[..|b| - 1];
      SolidConcat(a, b[..|b| - 1]);
    }
  }

  /** What was pushed and not yet received, in the order of the pushes. */
  function Undelivered(c: Chan): seq<Payload> {
    c.buffer + c.waiting + c.crashed
  }

  predicate Shaped(c: Chan) {
    && |c.buffer| <= CAPACITY
    && (c.waiting != [] ==> |c.buffer| == CAPACITY)
    && (if c.closed then c.waiting == [] else c.crashed == [] && !c.fired)
    && (c.writer.Draining? ==> c.writer.left <= |c.buffer|)
  }

  predicate Delivering(c: Chan) {
    && Shaped(c)
    && Solid(c.written) <= Solid(c.pushed)
    && (c.writer != Stopped ==> Solid(c.pushed) == Solid(c.written) + Solid(Undelivered(c)))
  }

  lemma StepKeepsShape(c: Chan, step: Step)
    requires Shaped(c) && Possible(c, step)
    ensures Shaped(Do(c, step))
  {
  }

  lemma SendAppends(c: Chan, p: Payload)
    requires Shaped(c) && !c.closed
    ensures Undelivered(Sent(c, p)) == Undelivered(c) + [p]
  {
  }

  lemma SendDelivers(c: Chan, p: Payload)
    requires Delivering(c) && Possible(c, Send(p))
    ensures Delivering(Do(c, Send(p)))
  {
    StepKeepsShape(c, Send(p));
    if !c.closed {
      SendAppends(c, p);
      SolidConcat(Undelivered(c), [p]);
      SolidConcat(c.pushed, [p]);
      Regroup(Solid(c.written), Solid(Undelivered(c)), Solid([p]));
    }
  }

  lemma TakenUndelivered(c: Chan)
    requires Shaped(c)
    ensures c.buffer != [] ==> Undelivered(c) == [Front(c)] + Undelivered(Taken(c))
    ensures Solid(Undelivered(c)) == Solid([Front(c)]) + Solid(Undelivered(Taken(c)))
  {
    if c.buffer != [] {
      TakenHeld(c);
      Regroup([Front(c)], Taken(c).buffer + Taken(c).waiting, c.crashed);
      SolidConcat([Front(c)], Undelivered(Taken(c)));
    }
  }

  lemma TakenHeld(c: Chan)
    requires c.buffer != []
    ensures c.buffer + c.waiting == [Front(c)] + (Taken(c).buffer + Taken(c).waiting)
  {
  }

  lemma Regroup(a: seq<Payload>, b: seq<Payload>, c: seq<Payload>)
    ensures (a + b) + c == a + (b + c)
  {
  }

  lemma WriteDelivers(c: Chan, ok: bool, next: Writer)
    requires Delivering(c) && c.writer != Stopped && Shaped(Written(c, ok, next))
    ensures Delivering(Written(c, ok, next))
  {
    if ok {
      SolidConcat(c.written, [Front(c)]);
      TakenUndelivered(c);
      Moves(Solid(c.pushed), Solid(c.written), Solid([Front(c)]), Solid(Undelivered(Taken(c))));
      assert Undelivered(Written(c, ok, next)) == Undelivered(Taken(c));
    }
  }

  lemma Moves(all: seq<Payload>, a: seq<Payload>, b: seq<Payload>, c: seq<Payload>)
    requires all == a + (b + c)
    ensures all == (a + b) + c && a + b <= all
  {
  }

  lemma CloseDelivers(c: Chan)
    requires Delivering(c) && Possible(c, CloseChan)
    ensures Delivering(Do(c, CloseChan))
  {
    assert Undelivered(Do(c, CloseChan)) == Undelivered(c);
  }

  lemma StepDelivers(c: Chan, step: Step)
    requires Delivering(c) && Possible(c, step)
    ensures Delivering(Do(c, step))
  {
    StepKeepsShape(c, step);
    match step
    case Send(p) => SendDelivers(c, p);
    case WriteFirst(ok) => WriteDelivers(c, ok, Wrote);
    case WriteNext(ok) => WriteDelivers(c, ok, Draining(c.writer.left - 1));
    case CloseChan => CloseDelivers(c);
    case _ =>
  }

  /** On every run, with pushes that find the buffer full, either half of a close between the two
      halves of a push, and write errors at any moment: what was written is a prefix of what was pushed, in order and without repeats;
      while the writer lives the rest is what the channel holds or a crashed push carried; and
      the counted inner loop always finds a payload. */
  lemma {:induction false} OrderedDelivery(steps: seq<Step>)
    requires StepsFrom(NEW_CHAN, steps).Some?
    ensures
      var c := StepsFrom(NEW_CHAN, steps).value;
      && Delivering(c)
      && Solid(c.written) <= Solid(c.pushed)
      && |c.buffer| <= 5 && (c.waiting != [] ==> |c.buffer| == 5)
      && (c.writer != Stopped ==> Solid(c.pushed) == Solid(c.written) + Solid(c.buffer + c.waiting + c.crashed))
      && (c.writer.Draining? && c.writer.left > 0 ==> c.buffer != [] && Possible(c, WriteNext(true)))
  {
    if steps != [] {
      OrderedDelivery(steps[..|steps| - 1]);
      StepDelivers(StepsFrom(NEW_CHAN, steps[..|steps| - 1]).value, steps[|steps| - 1]);
    }
  }

  /** A write or a flush that fails. */
  predicate Fails(step: Step) {
    match step
    case WriteFirst(ok) => !ok
    case WriteNext(ok) => !ok
    case Flush(ok) => !ok
    case _ => false
  }

  lemma LivesOneMore(c: Chan, step: Step)
    requires Possible(c, step) && !Fails(step) && (c.writer == Stopped ==> c.fired)
    ensures Do(c, step).writer == Stopped ==> Do(c, step).fired
  {
  }

  /** The write loop returns by itself only once the event has fired: until then, if no write
      fails, it lives. */
  lemma {:induction false} LoopLivesUntilFired(steps: seq<Step>)
    requires StepsFrom(NEW_CHAN, steps).Some? && forall i :: 0 <= i < |steps| ==> !Fails(steps[i])
    ensures
      var c := StepsFrom(NEW_CHAN, steps).value;
      c.writer == Stopped ==> c.fired
  {
    if steps != [] {
      var front := steps[..|steps| - 1];
      LoopLivesUntilFired(front);
      LivesOneMore(StepsFrom(NEW_CHAN, front).value, steps[|steps| - 1]);
    }
  }

  // ----- job frames -----

  function JobsIn(ps: seq<Payload>): seq<Job> {
    if ps == [] then []
    else JobsIn(ps[..|ps| - 1]) + if ps[|ps| - 1].JobMessage? then [ps[|ps| - 1].job] else []
  }

  lemma {:induction false} JobsInConcat(a: seq<Payload>, b: seq<Payload>)
    ensures JobsIn(a + b) == JobsIn(a) + JobsIn(b)
  {
    if b == [] {
      assert a + b == a;
    } else {
      assert (a + b)[..|a + b| - 1] == a + b[..|b| - 1];
      JobsInConcat(a, b[..|b| - 1]);
    }
  }

  lemma {:induction false} JobsInSolid(ps: seq<Payload>)
    ensures JobsIn(Solid(ps)) == JobsIn(ps)
  {
    if ps != [] {
      var front, last := ps[..|ps| - 1], ps[|ps| - 1];
      JobsInSolid(front);
      JobsInConcat(Solid(front), if last == Nothing then [] else [last]);
    }
  }

  lemma WrittenJobsArePrefix(written: seq<Payload>, pushed: seq<Payload>)
    requires Solid(written) <= Solid(pushed)
    ensures JobsIn(written) <= JobsIn(pushed)
  {
    var rest := Solid(pushed)[|Solid(written)|..];
    assert Solid(pushed) == Solid(written) + rest;
    JobsInConcat(Solid(written), rest);
    JobsInSolid(written);
    JobsInSolid(pushed);
  }

  // ----- the object -----

  datatype PushResult = Refused | Buffered | Waits | Panics

  predicate LastIs(ps: seq<Payload>, p: Payload) {
    ps != [] && ps[|ps| - 1] == p
  }

  /** Where the payload of a push that was not refused has come to be the last. */
  predicate EndsWith(c: Chan, r: PushResult, p: Payload) {
    match r
    case Refused => true
    case Panics => LastIs(c.panicked, p)
    case Buffered => LastIs(c.buffer, p) && LastIs(c.pushed, p)
    case Waits => LastIs(c.waiting, p) && LastIs(c.pushed, p)
  }

  lemma SendEnds(c: Chan, p: Payload)
    ensures EndsWith(Sent(c, p), if c.closed then Panics else if |c.buffer| < CAPACITY then Buffered else Waits, p)
    ensures Sent(c, p).closed == c.closed
  {
  }

  class ChannelImpl {
    var writechan: seq<Payload>
    var waiting: seq<Payload>
    var tested: multiset<Payload>
    var closed: bool
    var fired: bool
    var written: seq<Payload>
    ghost var writer: Writer
    ghost var pushed: seq<Payload>
    ghost var crashed: seq<Payload>
    ghost var panicked: seq<Payload>

    ghost function View(): Chan
      reads this
    {
      Chan(writechan, waiting, tested, closed, fired, writer, pushed, written, crashed, panicked)
    }

    /** The steps have led from `start` to the present state. */
    ghost predicate Ran(start: Chan, steps: seq<Step>)
      reads this
    {
      StepsFrom(start, steps) == Some(View()) && Delivering(View())
    }

    constructor ()
      ensures View() == NEW_CHAN
    {
      writechan, waiting, tested, closed, fired, written := [], [], multiset{}, false, false, [];
      writer, pushed, crashed, panicked := Writer.Waiting, [], [], [];
    }

    /** Into the buffer, or behind those that wait for room. */
    method Enqueue(p: Payload)
      modifies this`writechan, this`waiting, this`pushed
      ensures pushed == old(pushed) + [p]
      ensures writechan == old(writechan) + if |old(writechan)| < CAPACITY then [p] else []
      ensures waiting == old(waiting) + if |old(writechan)| < CAPACITY then [] else [p]
    {
      pushed := pushed + [p];
      if |writechan| < CAPACITY {
        writechan := writechan + [p];
      } else {
        waiting := waiting + [p];
      }
    }

    /** `writechan <- payload`, past the test. */
    method SendOn(p: Payload)
      requires p in tested
      modifies this
      ensures View() == Sent(old(View()), p)
    {
      tested := tested - multiset{p};
      if closed {
        panicked := panicked + [p];
      } else {
        Enqueue(p);
      }
    }

    /** One step of some goroutine other than the writer's. */
    method Perform(step: Step)
      requires Outside(step) && Possible(View(), step)
      modifies this
      ensures View() == Do(old(View()), step)
    {
      match step
      case Test(p) => tested := tested + multiset{p};
      case Send(p) => SendOn(p);
      case CloseChan =>
        crashed := waiting;
        waiting := [];
        closed := true;
      case Fire => fired := true;
    }

    /** The same as part of a run. */
    method PerformNext(step: Step, ghost start: Chan, ghost steps: seq<Step>)
      requires Ran(start, steps) && Outside(step) && Possible(View(), step)
      modifies this
      ensures Ran(start, steps + [step]) && View() == Do(old(View()), step)
    {
      Advance(start, steps, step);
      Perform(step);
    }

    /** Whatever others do in between, but for the push that holds `mine`. */
    method Interfere(events: seq<Step>, mine: multiset<Payload>, ghost start: Chan, ghost steps: seq<Step>)
      returns (ghost steps': seq<Step>)
      requires Ran(start, steps) && mine <= tested
      modifies this
      ensures Ran(start, steps') && mine <= tested
      ensures writer == old(writer) && written == old(written) && old(writechan) <= writechan
      ensures (old(closed) ==> closed && crashed == old(crashed)) && (old(fired) ==> fired)
      ensures events == [] ==> View() == old(View())
    {
      steps' := steps;
      for i := 0 to |events|
        invariant Ran(start, steps') && mine <= tested
        invariant writer == old(writer) && written == old(written) && old(writechan) <= writechan
        invariant (old(closed) ==> closed && crashed == old(crashed)) && (old(fired) ==> fired)
        invariant events == [] ==> View() == old(View())
      {
        var step := events[i];
        if Free(step, mine) {
          PerformNext(step, start, steps');
          steps' := steps' + [step];
        }
      }
    }

    /** Another goroutine can take the step now. */
    predicate Free(step: Step, mine: multiset<Payload>)
      reads this
    {
      match step
      case Test(_) => !fired
      case Send(p) => p in tested - mine
      case CloseChan => !closed
      case Fire => closed && !fired
      case _ => false
    }

    /** The test, whatever others do, and the send.  Refused exactly if the event had fired; past
        the test it panics exactly if the channel has been closed by then, and otherwise the
        payload joins the buffer, or waits its turn for room. */
    method Push(p: Payload, env: seq<Step>) returns (r: PushResult, ghost steps: seq<Step>)
      requires Delivering(View())
      modifies this
      ensures Ran(old(View()), steps)
      ensures r.Refused? == old(fired) && (r.Refused? ==> View() == old(View()))
      ensures !r.Refused? ==> (r.Panics? <==> closed) && EndsWith(View(), r, p)
      ensures env == [] && !r.Refused? ==> View() == Sent(Do(old(View()), Test(p)), p)
    {
      ghost var start := View();
      steps := [];
      if fired {
        return Refused, steps;
      }
      PerformNext(Test(p), start, steps);
      steps := Interfere(env, multiset{p}, start, [] + [Test(p)]);
      r := if closed then Panics else if |writechan| < CAPACITY then Buffered else Waits;
      SendEnds(View(), p);
      PerformNext(Send(p), start, steps);
      steps := steps + [Send(p)];
    }

    /** Once: the Go channel is closed, others go on, the event fires. */
    method Close(env: seq<Step>) returns (ghost steps: seq<Step>)
      requires Delivering(View())
      modifies this
      ensures Ran(old(View()), steps) && closed
      ensures old(closed) ==> View() == old(View())
      ensures !old(closed) ==> fired && waiting == [] && crashed == old(waiting)
      ensures !old(closed) && env == [] ==> View() == Do(Do(old(View()), CloseChan), Fire)
    {
      ghost var start := View();
      steps := [];
      if closed {
        return;
      }
      PerformNext(CloseChan, start, steps);
      steps := Interfere(env, multiset{}, start, [] + [CloseChan]);
      if !fired {
        PerformNext(Fire, start, steps);
        steps := steps + [Fire];
      }
    }

    /** One receive and the write of what it yields. */
    method WriteOne(ok: bool, ghost next: Writer)
      modifies this
      ensures View() == Written(old(View()), ok, next)
    {
      var payload := if writechan == [] then Nothing else writechan[0];
      if writechan != [] {
        writechan := writechan[1..];
        if waiting != [] {
          writechan := writechan + [waiting[0]];
          waiting := waiting[1..];
        }
      }
      if ok {
        written := written + [payload];
        writer := next;
      } else {
        writer := Stopped;
      }
    }

    /** The same as a step of a run; `due` comes next, after what was written, and still does. */
    method WriteAsStep(ok: bool, ghost step: Step, ghost next: Writer,
                       ghost start: Chan, ghost steps: seq<Step>, ghost due: seq<Payload>)
      requires Ran(start, steps) && due <= written + writechan && Possible(View(), step)
      requires IsWrite(step, ok, writer, next)
      modifies this
      ensures Ran(start, steps + [step])
      ensures writer == if ok then next else Stopped
      ensures ok ==> due <= written + writechan
      ensures |written| == |old(written)| + if ok then 1 else 0
    {
      Advance(start, steps, step);
      TakeKeepsOrder(View(), due, ok);
      WriteOne(ok, next);
    }

    /** One turn of the write loop that finds a payload or the close, with anything done by
        others between its statements and a failure at any of its writes.  It is a run of the
        channel; a turn that is not cut short by a failure has written, in order, all that the
        buffer held when it began (for a closed and empty channel an empty frame); one that is
        has made exactly the writes before the failure. */
    method WriteRound(env: seq<seq<Step>>, failAt: nat) returns (ok: bool, ghost steps: seq<Step>)
      requires Delivering(View()) && writer == Writer.Waiting && (writechan != [] || closed)
      modifies this
      ensures Ran(old(View()), steps)
      ensures writer == if ok then Writer.Waiting else Stopped
      ensures ok ==> old(written) + old(writechan) <= written && 0 < |written| - |old(written)| < failAt
      ensures !ok ==> |written| == |old(written)| + failAt
    {
      ghost var start, due := View(), written + writechan;
      ok := failAt != 0;
      WriteAsStep(ok, WriteFirst(ok), Wrote, start, [], due);
      steps := [] + [WriteFirst(ok)];
      if !ok {
        return;
      }
      ghost var held := writechan;
      steps := Interfere(if |env| > 0 then env[0] else [], multiset{}, start, steps);
      PrefixGrows(due, written, held, writechan);
      ok, steps := Drain(env, failAt, start, steps, due);
    }

    /** One receive and write of the inner loop, after whatever others have done. */
    method WriteHeld(events: seq<Step>, ok: bool, ghost start: Chan, ghost steps: seq<Step>, ghost due: seq<Payload>)
      returns (ghost steps': seq<Step>)
      requires Ran(start, steps) && due <= written + writechan && writer.Draining? && writer.left > 0
      modifies this
      ensures Ran(start, steps')
      ensures writer == if ok then Draining(old(writer).left - 1) else Stopped
      ensures ok ==> due <= written + writechan
      ensures |written| == |old(written)| + if ok then 1 else 0
    {
      ghost var held := writechan;
      steps' := Interfere(events, multiset{}, start, steps);
      PrefixGrows(due, written, held, writechan);
      WriteAsStep(ok, WriteNext(ok), Draining(writer.left - 1), start, steps', due);
      steps' := steps' + [WriteNext(ok)];
    }

    /** The rest of the turn: the length, that many receives and writes, and the flush. */
    method Drain(env: seq<seq<Step>>, failAt: nat, ghost start: Chan, ghost steps: seq<Step>, ghost due: seq<Payload>)
      returns (ok: bool, ghost steps': seq<Step>)
      requires Ran(start, steps) && writer == Wrote && due <= written + writechan && failAt > 0
      modifies this
      ensures Ran(start, steps')
      ensures writer == if ok then Writer.Waiting else Stopped
      ensures ok ==> due <= written && 0 <= |written| - |old(written)| < failAt - 1
      ensures !ok ==> |written| == |old(written)| + failAt - 1
    {
      Advance(start, steps, Measure);
      var chanlen := |writechan|;
      writer := Draining(chanlen);
      ok, steps' := WriteAllHeld(chanlen, env, failAt, start, steps + [Measure], due);
      if !ok {
        return;
      }
      ok := failAt != chanlen + 1;
      Advance(start, steps', Flush(ok));
      steps' := steps' + [Flush(ok)];
      writer := if ok then Writer.Waiting else Stopped;
    }

    /** The counted inner loop. */
    method WriteAllHeld(chanlen: nat, env: seq<seq<Step>>, failAt: nat,
                        ghost start: Chan, ghost steps: seq<Step>, ghost due: seq<Payload>)
      returns (ok: bool, ghost steps': seq<Step>)
      requires Ran(start, steps) && writer == Draining(chanlen) && failAt > 0
      requires due <= written + writechan && |due| <= |written| + chanlen
      modifies this
      ensures Ran(start, steps') && writer == if ok then Draining(0) else Stopped
      ensures ok ==> due <= written && |written| == |old(written)| + chanlen && chanlen < failAt
      ensures !ok ==> |written| == |old(written)| + failAt - 1
    {
      steps' := steps;
      for i := 0 to chanlen
        invariant Ran(start, steps') && writer == Draining(chanlen - i)
        invariant due <= written + writechan && |due| <= |written| + (chanlen - i)
        invariant |written| == |old(written)| + i && i < failAt
      {
        ok := failAt != i + 1;
        steps' := WriteHeld(if i + 1 < |env| then env[i + 1] else [], ok, start, steps', due);
        if !ok {
          return;
        }
      }
      ok := true;
    }
  }

  lemma PrefixGrows(due: seq<Payload>, written: seq<Payload>, a: seq<Payload>, b: seq<Payload>)
    requires due <= written + a && a <= b
    ensures due <= written + b
  {
  }

  lemma Advance(start: Chan, steps: seq<Step>, step: Step)
    requires StepsFrom(start, steps).Some? && Delivering(StepsFrom(start, steps).value)
    requires Possible(StepsFrom(start, steps).value, step)
    ensures StepsFrom(start, steps + [step]) == Some(Do(StepsFrom(start, steps).value, step))
    ensures Delivering(Do(StepsFrom(start, steps).value, step))
  {
    assert (steps + [step])[..|steps + [step]| - 1] == steps;
    StepDelivers(StepsFrom(start, steps).value, step);
  }

  /** The step is the first write of a turn, or one of its counted ones. */
  ghost predicate IsWrite(step: Step, ok: bool, before: Writer, after: Writer) {
    || (step == WriteFirst(ok) && after == Wrote)
    || (step == WriteNext(ok) && before.Draining? && before.left > 0 && after == Draining(before.left - 1))
  }

  /** What comes next after what was written still does after one more write. */
  lemma TakeKeepsOrder(c: Chan, due: seq<Payload>, ok: bool)
    requires due <= c.written + c.buffer
    ensures ok ==> due <= c.written + [Front(c)] + Taken(c).buffer
  {
    if c.buffer != [] {
      assert c.buffer == [Front(c)] + c.buffer[1..];
      assert c.buffer[1..] <= Taken(c).buffer;
    }
  }
}
