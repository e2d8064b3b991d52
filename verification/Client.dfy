/** app/client/client.go: the client's event loop. */
module Client {
  import opened Types

  const METHOD_JOB := "job"

  /** A decoded message; a missing or null `id` decodes to 0. */
  datatype Message = Message(id: int, methodName: string, job: Job)

  /** What one turn of the select loop can see, with the random nonce it would draw and the
      clock before and after the send. */
  datatype Event =
    | Incoming(binary: bool, body: Option<Message>, nonce: string, now: Instant)
    | SecondTick(nonce: string, t1: Instant, t2: Instant)
    | MinuteTick(nonce: string, t1: Instant, t2: Instant)

  datatype Kind = Immediate | EverySecond | EveryMinute

  /** A submit request: its parameters, how many job messages had been read, and the clock
      when the decision to send was taken and when `lastSubmit` was set. */
  datatype Request = Request(id: int, params: SubmitParams, heard: nat, kind: Kind, decidedAt: Instant, doneAt: Instant)

  /** `jobs` are the job messages read so far. */
  datatype ClientState = ClientState(
    jobId: int,
    serverNonce: string,
    nextId: int,
    lastSubmit: Instant,
    sent: seq<Request>,
    jobs: seq<Job>)

  const NEW_CLIENT := ClientState(0, "", 1, ZERO_TIME, [], [])

  function Send(digest: string -> string, c: ClientState, nonce: string, kind: Kind, t1: Instant, t2: Instant): ClientState {
    var p := SubmitParams(c.jobId, nonce, digest(c.serverNonce + nonce));
    c.(nextId := c.nextId + 1, lastSubmit := t2, sent := c.sent + [Request(c.nextId, p, |c.jobs|, kind, t1, t2)])
  }

  predicate IsJob(e: Event) {
    e.Incoming? && e.binary && e.body.Some? && e.body.value.id == 0 && e.body.value.methodName == METHOD_JOB
  }

  function React(digest: string -> string, c: ClientState, e: Event): ClientState {
    match e
    case Incoming(_, body, nonce, now) =>
      if !IsJob(e) then c
      else
        var job := body.value.job;
        Send(digest, c.(jobId := job.id, serverNonce := job.nonce, jobs := c.jobs + [job]), nonce, Immediate, now, now)
    case SecondTick(nonce, t1, t2) =>
      if c.serverNonce == "" || (c.lastSubmit != ZERO_TIME && t1 - c.lastSubmit < SECOND) then c
      else Send(digest, c, nonce, EverySecond, t1, t2)
    case MinuteTick(nonce, t1, t2) =>
      if c.serverNonce == "" || t1 - c.lastSubmit < MINUTE then c
      else Send(digest, c, nonce, EveryMinute, t1, t2)
  }

  function RunOn(digest: string -> string, start: ClientState, events: seq<Event>): ClientState
    decreases |events|
  {
    if events == [] then start
    else React(digest, RunOn(digest, start, events[..|events| - 1]), events[|events| - 1])
  }

  // ----- what every run keeps -----

  predicate Clocked(e: Event) {
    match e
    case Incoming(_, _, _, now) => now > 0
    case SecondTick(_, t1, t2) => 0 < t1 <= t2
    case MinuteTick(_, t1, t2) => 0 < t1 <= t2
  }

  /** The request answers the job message that was the latest when it was sent. */
  predicate Answers(digest: string -> string, c: ClientState, r: Request) {
    && 0 < r.heard <= |c.jobs|
    && r.params.jobId == c.jobs[r.heard - 1].id
    && r.params.result == digest(c.jobs[r.heard - 1].nonce + r.params.clientNonce)
  }

  ghost predicate ClientInv(digest: string -> string, c: ClientState) {
    && c.nextId == |c.sent| + 1
    && (if c.jobs == [] then c.serverNonce == "" && c.sent == []
        else c.jobId == c.jobs[|c.jobs| - 1].id && c.serverNonce == c.jobs[|c.jobs| - 1].nonce)
    && c.lastSubmit == (if c.sent == [] then ZERO_TIME else c.sent[|c.sent| - 1].doneAt)
    && (forall i :: 0 <= i < |c.sent| ==> c.sent[i].id == i + 1 && Answers(digest, c, c.sent[i]) && c.sent[i].doneAt > 0)
    && (forall i, k :: 0 <= i < k < |c.sent| && k == i + 1 ==> Paced(c.sent[i], c.sent[k]))
  }

  predicate Paced(previous: Request, next: Request) {
    && (next.kind == EverySecond ==> next.decidedAt - previous.doneAt >= SECOND)
    && (next.kind == EveryMinute ==> next.decidedAt - previous.doneAt >= MINUTE)
  }

  lemma HearKeeps(digest: string -> string, c: ClientState, job: Job)
    requires ClientInv(digest, c)
    ensures ClientInv(digest, c.(jobId := job.id, serverNonce := job.nonce, jobs := c.jobs + [job]))
  {
    var c' := c.(jobId := job.id, serverNonce := job.nonce, jobs := c.jobs + [job]);
    assert forall i :: 0 <= i < |c.sent| ==> Answers(digest, c, c.sent[i]) ==> Answers(digest, c', c.sent[i]);
  }

  lemma SendKeeps(digest: string -> string, c: ClientState, nonce: string, kind: Kind, t1: Instant, t2: Instant)
    requires ClientInv(digest, c) && c.jobs != [] && t2 > 0
    requires c.sent != [] && kind == EverySecond ==> t1 - c.lastSubmit >= SECOND
    requires c.sent != [] && kind == EveryMinute ==> t1 - c.lastSubmit >= MINUTE
    ensures ClientInv(digest, Send(digest, c, nonce, kind, t1, t2))
  {
    var c' := Send(digest, c, nonce, kind, t1, t2);
    assert forall i :: 0 <= i < |c.sent| ==> Answers(digest, c, c.sent[i]) ==> Answers(digest, c', c.sent[i]);
    var r := c'.sent[|c.sent|];
    assert Answers(digest, c', r);
    assert c.sent != [] ==> Paced(c.sent[|c.sent| - 1], r);
    assert forall i :: 0 <= i < |c.sent| ==> c'.sent[i] == c.sent[i];
  }

  lemma ReactKeeps(digest: string -> string, c: ClientState, e: Event)
    requires ClientInv(digest, c) && Clocked(e)
    ensures ClientInv(digest, React(digest, c, e))
  {
    match e
    case Incoming(_, body, nonce, now) =>
      if IsJob(e) {
        var job := body.value.job;
        HearKeeps(digest, c, job);
        SendKeeps(digest, c.(jobId := job.id, serverNonce := job.nonce, jobs := c.jobs + [job]), nonce, Immediate, now, now);
      }
    case SecondTick(nonce, t1, t2) =>
      if React(digest, c, e) != c {
        SendKeeps(digest, c, nonce, EverySecond, t1, t2);
      }
    case MinuteTick(nonce, t1, t2) =>
      if React(digest, c, e) != c {
        SendKeeps(digest, c, nonce, EveryMinute, t1, t2);
      }
  }

  /** Along every run: ids count up from 1, each request answers the most recent job message,
      and a timer never sends within a second (or a minute) of the request before it. */
  lemma {:induction false} ClientRun(digest: string -> string, events: seq<Event>)
    requires forall i :: 0 <= i < |events| ==> Clocked(events[i])
    ensures ClientInv(digest, RunOn(digest, NEW_CLIENT, events))
  {
    if events != [] {
      ClientRun(digest, events[..|events| - 1]);
      ReactKeeps(digest, RunOn(digest, NEW_CLIENT, events[..|events| - 1]), events[|events| - 1]);
    }
  }

  /** A request goes out on every job message, at once; on a one-second tick exactly when a job
      is known and no request was made within the second; on a minute tick likewise. */
  lemma SendsWhenDue(digest: string -> string, c: ClientState, e: Event)
    requires ClientInv(digest, c) && Clocked(e)
    ensures
      var c' := React(digest, c, e);
      var known := c.jobs != [] && c.jobs[|c.jobs| - 1].nonce != "";
      && (c'.sent != c.sent <==>
            match e
            case Incoming(binary, body, _, _) => binary && body.Some? && body.value.id == 0 && body.value.methodName == "job"
            case SecondTick(_, t1, _) => known && (c.sent == [] || t1 - c.sent[|c.sent| - 1].doneAt >= 1_000_000_000)
            case MinuteTick(_, t1, _) => known && t1 - c.lastSubmit >= 60_000_000_000)
      && (c'.sent != c.sent ==> (
            && |c'.sent| == |c.sent| + 1 && c'.sent[..|c.sent|] == c.sent
            && c'.sent[|c.sent|].heard == |c'.jobs| && c'.sent[|c.sent|].params.clientNonce == e.nonce))
      && (IsJob(e) ==> c'.jobs == c.jobs + [e.body.value.job])
      && (!IsJob(e) ==> c'.jobs == c.jobs)
  {
    var c' := React(digest, c, e);
    assert c'.sent == c.sent || |c'.sent| == |c.sent| + 1;
  }

  // ----- the object -----

  class Client {
    const digest: string -> string
    var jobId: int
    var serverNonce: string
    var nextId: int
    var sent: seq<Request>
    var jobs: seq<Job>

    function View(lastSubmit: Instant): ClientState
      reads this
    {
      ClientState(jobId, serverNonce, nextId, lastSubmit, sent, jobs)
    }

    constructor (digest: string -> string)
      ensures this.digest == digest && View(ZERO_TIME) == NEW_CLIENT
    {
      this.digest := digest;
      jobId, serverNonce, nextId, sent, jobs := 0, "", 1, [], [];
    }

    method Submit(nonce: string, kind: Kind, t1: Instant, t2: Instant) returns (lastSubmit: Instant)
      modifies this
      ensures forall before :: View(lastSubmit) == Send(digest, old(View(before)), nonce, kind, t1, t2)
      ensures lastSubmit == t2
    {
      var res := digest(serverNonce + nonce);
      var id := nextId;
      nextId := nextId + 1;
      sent := sent + [Request(id, SubmitParams(jobId, nonce, res), |jobs|, kind, t1, t2)];
      lastSubmit := t2;
    }

    /** The select loop over whatever events come. */
    method Run(events: seq<Event>) returns (lastSubmit: Instant)
      modifies this
      ensures View(lastSubmit) == RunOn(digest, old(View(ZERO_TIME)), events)
    {
      lastSubmit := ZERO_TIME;
      ghost var start := View(ZERO_TIME);
      for i := 0 to |events|
        invariant View(lastSubmit) == RunOn(digest, start, events[..i])
      {
        ghost var before := View(lastSubmit);
        assert events[..i + 1][..i] == events[..i];
        assert RunOn(digest, start, events[..i + 1]) == React(digest, before, events[i]);
        match events[i]
        case Incoming(binary, body, nonce, now) =>
          if binary && body.Some? && body.value.id == 0 && body.value.methodName == METHOD_JOB {
            jobId := body.value.job.id;
            serverNonce := body.value.job.nonce;
            jobs := jobs + [body.value.job];
            ghost var mid := View(lastSubmit);
            lastSubmit := Submit(nonce, Immediate, now, now);
            assert View(lastSubmit) == Send(digest, mid, nonce, Immediate, now, now);
          }
        case SecondTick(nonce, t1, t2) =>
          if serverNonce != "" && !(lastSubmit != ZERO_TIME && t1 - lastSubmit < SECOND) {
            lastSubmit := Submit(nonce, EverySecond, t1, t2);
            assert View(lastSubmit) == Send(digest, before, nonce, EverySecond, t1, t2);
          }
        case MinuteTick(nonce, t1, t2) =>
          if serverNonce != "" && t1 - lastSubmit >= MINUTE {
            lastSubmit := Submit(nonce, EveryMinute, t1, t2);
            assert View(lastSubmit) == Send(digest, before, nonce, EveryMinute, t1, t2);
          }
      }
      assert events[..|events|] == events;
    }
  }
}
