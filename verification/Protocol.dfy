/** The server as a transition system: one action for each atomic piece of the
    coordinator's loop, of a connection's goroutine, of the listener and of the consumer,
    in every interleaving, over any number of restarts on one store. */
module Protocol {
  import opened Types
  import opened Store
  import opened Queue
  import opened Listener

  datatype Coord = Coord(
    sessions: map<ChannelId, Session>,
    jobId: int,
    serverNonce: string,
    history: map<int, JobRecord>)

  const FRESH_COORD := Coord(map[], 0, "", map[])

  /** Where the coordinator's loop stands.  `settled` are the sessions whose accept was
      complete when the broadcast took its snapshot. */
  datatype Phase =
    | Booting
    | Restoring
    | Idle
    | Minted
    | Saved
    | Broadcasting(pending: set<ChannelId>, settled: set<ChannelId>)

  /** Where the goroutine of one connection stands: registered; restored from the store;
      in the channel map; out of the channel map; unregistered. */
  datatype Stage = Joining | Joined | Open | Leaving | Gone

  datatype Consumer = Consumer(running: bool, inHand: Option<SubmitEvent>)

  /** An accepted submission.  `tainted` says that the nonce was the session's own and
      that the session was tainted; `early` that the job was not yet in the store. */
  datatype Acceptance = Acceptance(
    ch: ChannelId,
    event: SubmitEvent,
    params: SubmitParams,
    nonceUsed: string,
    tainted: bool,
    early: bool)

  /** History variables: no action looks at them except for freshness of random values. */
  datatype Log = Log(
    ids: set<ChannelId>,
    nonces: set<string>,
    broadcasts: seq<Job>,
    told: map<ChannelId, seq<Job>>,
    accepted: seq<Acceptance>,
    counted: seq<SubmitEvent>,
    lost: seq<SubmitEvent>,
    tainted: set<ChannelId>,
    taintedUsers: set<string>,
    expired: set<(ChannelId, int)>)

  datatype State = State(
    clock: Instant,
    coord: Coord,
    phase: Phase,
    conns: map<ChannelId, Stage>,
    channels: set<ChannelId>,
    store: StoreState,
    queue: QueueState,
    consumer: Consumer,
    log: Log)

  function Init(cfg: Config): State {
    State(1, FRESH_COORD, Booting, map[], {}, EMPTY_STORE, NewQueue(cfg.queueSize), Consumer(true, None),
          Log({}, {}, [], map[], [], [], [], {}, {}, {}))
  }

  datatype Action =
    | Tick(now: Instant)
    | RestoreLatest
    | RestoreHistory
    | Rotate(nonce: string)
    | SaveJob
    | Snapshot
    | Deliver(target: ChannelId, pushed: bool)
    | EndBroadcast
    | Register(newId: ChannelId, user: string)
    | RestoreUser(ch: ChannelId)
    | AddChannel(ch: ChannelId)
    | RemoveChannel(ch: ChannelId)
    | Disconnect(ch: ChannelId)
    | Submit(ch: ChannelId, params: SubmitParams, t1: Instant, t2: Instant)
    | ConsumerReceive
    | ConsumerCount
    | StopConsumer
    | CloseQueue
    | Restart

  predicate At(s: State, ch: ChannelId, stage: Stage) {
    ch in s.conns && s.conns[ch] == stage
  }

  predicate Settled(s: State, ch: ChannelId) {
    ch in s.conns && s.conns[ch] != Joining
  }

  function ToldIn(told: map<ChannelId, seq<Job>>, ch: ChannelId): seq<Job> {
    if ch in told then told[ch] else []
  }

  function ToldTo(s: State, ch: ChannelId): seq<Job> {
    ToldIn(s.log.told, ch)
  }

  /** When an action can happen.  Random identifiers and nonces are fresh, the clock does
      not go back, and messages arrive only on connections whose read loop has started. */
  predicate Enabled(cfg: Config, s: State, a: Action) {
    match a
    case Tick(now) => s.clock <= now
    case RestoreLatest => s.phase == Booting
    case RestoreHistory => s.phase == Restoring
    case Rotate(nonce) => s.phase == Idle && nonce != "" && nonce !in s.log.nonces
    case SaveJob => s.phase == Minted
    case Snapshot => s.phase == Saved
    case Deliver(ch, _) => s.phase.Broadcasting? && ch in s.phase.pending
    case EndBroadcast => s.phase.Broadcasting? && s.phase.pending == {}
    case Register(ch, user) => ch !in s.log.ids && user != ""
    case RestoreUser(ch) => At(s, ch, Joining)
    case AddChannel(ch) => At(s, ch, Joined)
    case RemoveChannel(ch) => At(s, ch, Open)
    case Disconnect(ch) => At(s, ch, Leaving)
    case Submit(ch, _, t1, t2) =>
      (At(s, ch, Open) || At(s, ch, Leaving) || At(s, ch, Gone)) && s.clock <= t1 <= t2
    case ConsumerReceive => s.consumer.running && s.consumer.inHand == None && CanReceive(s.queue)
    case ConsumerCount => s.consumer.inHand.Some?
    case StopConsumer => true
    case CloseQueue => true
    case Restart => true
  }

  // ----- the coordinator's loop (app/server/coordinator.go) -----

  function AfterRestoreLatest(s: State): State {
    var id := s.store.latestJobId;
    var rec := LatestRecord(s.store);
    var c := s.coord;
    s.(phase := Restoring,
       coord := if id > 0 then c.(jobId := id, serverNonce := rec.nonce, history := c.history[id := rec]) else c)
  }

  function AfterRestoreHistory(cfg: Config, s: State): State {
    var loaded := if cfg.latestOnlyAtZero && cfg.historyWindow == 0 then map[]
                  else HistorySince(s.store, cfg.historyWindow, s.clock);
    s.(phase := Idle, coord := s.coord.(history := s.coord.history + loaded))
  }

  function AfterRotate(s: State, nonce: string): State {
    var id := s.coord.jobId + 1;
    s.(phase := Minted,
       coord := s.coord.(jobId := id, serverNonce := nonce,
                         history := s.coord.history[id := JobRecord(nonce, s.clock)]),
       log := s.log.(nonces := s.log.nonces + {nonce}))
  }

  function AfterSaveJob(s: State): State {
    s.(phase := Saved, store := WithJob(s.store, s.coord.jobId, s.coord.serverNonce, s.clock))
  }

  function AfterSnapshot(s: State): State {
    s.(phase := Broadcasting(s.coord.sessions.Keys, set ch | ch in s.conns && s.conns[ch] != Joining),
       log := s.log.(broadcasts := s.log.broadcasts + [Job(s.coord.jobId, s.coord.serverNonce)]))
  }

  /** One turn of the loop over the snapshot.  The push reaches the client only through the
      channel map, and fails on a closed channel. */
  function AfterDeliver(s: State, ch: ChannelId, pushed: bool): State
    requires s.phase.Broadcasting?
  {
    var job := Job(s.coord.jobId, s.coord.serverNonce);
    var sessions := s.coord.sessions;
    s.(phase := s.phase.(pending := s.phase.pending - {ch}),
       coord := if ch in sessions
                then s.coord.(sessions := sessions[ch := sessions[ch].(latestJobId := job.id, latestServerNonce := job.nonce)])
                else s.coord,
       log := s.log.(tainted := s.log.tainted - {ch},
                     told := if pushed && ch in s.channels
                             then s.log.told[ch := ToldTo(s, ch) + [job]] else s.log.told))
  }

  // ----- one connection (app/server/acceptor.go, tcp/server.go, State.Disconnect) -----

  function AfterRegister(s: State, ch: ChannelId, user: string): State {
    s.(coord := s.coord.(sessions := s.coord.sessions[ch := NewSession(ch, user)]),
       conns := s.conns[ch := Joining],
       log := s.log.(ids := s.log.ids + {ch}))
  }

  function Restored(sess: Session, us: UserState): Session {
    sess.(latestJobId := us.latestJobId, latestServerNonce := us.latestNonce, lastSubmitAt := us.lastSubmit)
  }

  function AfterRestoreUser(s: State, ch: ChannelId): State {
    var sessions := s.coord.sessions;
    if ch !in sessions then s.(conns := s.conns[ch := Joined])
    else
      var user := sessions[ch].username;
      s.(conns := s.conns[ch := Joined],
         coord := s.coord.(sessions := sessions[ch := Restored(sessions[ch], UserStateOf(s.store, user))]),
         log := s.log.(tainted := if user in s.log.taintedUsers then s.log.tainted + {ch} else s.log.tainted - {ch}))
  }

  /** A repeated identifier closes the connection without unregistering the session. */
  function AfterAddChannel(s: State, ch: ChannelId): State {
    if ch in s.channels then s.(conns := s.conns[ch := Gone])
    else s.(conns := s.conns[ch := Open], channels := s.channels + {ch})
  }

  function AfterRemoveChannel(s: State, ch: ChannelId): State {
    s.(conns := s.conns[ch := Leaving], channels := s.channels - {ch})
  }

  function AfterDisconnect(s: State, ch: ChannelId): State {
    s.(conns := s.conns[ch := Gone], coord := s.coord.(sessions := s.coord.sessions - {ch}))
  }

  // ----- a submission (app/server/listener.go) -----

  function VerdictOn(cfg: Config, s: State, ch: ChannelId, p: SubmitParams, t1: Instant, t2: Instant): Verdict {
    if ch !in s.coord.sessions then NoSuchTask
    else Decide(cfg, s.coord.history, s.store, s.coord.sessions[ch], p, t1, t2)
  }

  /** No broadcast still to come or under way in this process will make the job the latest
      of the session. */
  predicate BroadcastOver(s: State, ch: ChannelId, jobId: int) {
    || jobId != s.coord.jobId
    || s.phase.Idle? || s.phase.Restoring? || s.phase.Booting?
    || (s.phase.Broadcasting? && ch !in s.phase.pending)
  }

  predicate TaintedAfter(cfg: Config, s: State, ch: ChannelId, p: SubmitParams)
    requires ch in s.coord.sessions
  {
    ch in s.log.tainted || (!cfg.localNonce && ViaHistory(s.coord.history, s.coord.sessions[ch], p))
  }

  function AcceptanceOf(s: State, ch: ChannelId, p: SubmitParams, t2: Instant): Acceptance
    requires ch in s.coord.sessions
  {
    var sess := s.coord.sessions[ch];
    Acceptance(ch, SubmitEvent(sess.username, t2), p, NonceFor(s.coord.history, sess, p),
               !ViaHistory(s.coord.history, sess, p) && ch in s.log.tainted,
               p.jobId != 0 && p.jobId !in s.store.jobHist)
  }

  function LogAfterSubmit(cfg: Config, s: State, ch: ChannelId, p: SubmitParams, v: Verdict, t2: Instant): Log
    requires ch in s.coord.sessions
  {
    var user := s.coord.sessions[ch].username;
    var dirty := TaintedAfter(cfg, s, ch, p);
    s.log.(
      tainted := if dirty then s.log.tainted + {ch} else s.log.tainted - {ch},
      taintedUsers := if v != Accepted then s.log.taintedUsers
                      else if dirty then s.log.taintedUsers + {user} else s.log.taintedUsers - {user},
      accepted := if v == Accepted then s.log.accepted + [AcceptanceOf(s, ch, p, t2)] else s.log.accepted,
      expired := if v == TaskExpired && BroadcastOver(s, ch, p.jobId)
                 then s.log.expired + {(ch, p.jobId)} else s.log.expired)
  }

  function AfterSubmit(cfg: Config, s: State, ch: ChannelId, p: SubmitParams, t1: Instant, t2: Instant): State {
    if ch !in s.coord.sessions then s.(clock := t2)
    else
      var sess := s.coord.sessions[ch];
      var v := VerdictOn(cfg, s, ch, p, t1, t2);
      var sess' := SessionAfter(cfg, s.coord.history, sess, p, v, t2);
      s.(clock := t2,
         coord := s.coord.(sessions := s.coord.sessions[ch := sess']),
         store := if v == Accepted then StoreAfter(s.store, sess', p) else s.store,
         queue := if v == Accepted then Published(s.queue, SubmitEvent(sess.username, t2)) else s.queue,
         log := LogAfterSubmit(cfg, s, ch, p, v, t2))
  }

  // ----- the consumer (app/server/server.go) and a restart -----

  function AfterReceive(s: State): State
    requires CanReceive(s.queue)
  {
    s.(consumer := s.consumer.(inHand := Some(Head(s.queue))), queue := Received(s.queue))
  }

  function AfterCount(s: State): State
    requires s.consumer.inHand.Some?
  {
    var e := s.consumer.inHand.value;
    s.(consumer := s.consumer.(inHand := None), store := Incremented(s.store, e),
       log := s.log.(counted := s.log.counted + [e]))
  }

  function InHand(s: State): seq<SubmitEvent> {
    if s.consumer.inHand.Some? then [s.consumer.inHand.value] else []
  }

  function AfterRestart(cfg: Config, s: State): State {
    s.(coord := FRESH_COORD, phase := Booting, conns := map[], channels := {},
       queue := NewQueue(cfg.queueSize), consumer := Consumer(true, None),
       log := s.log.(lost := s.log.lost + InHand(s) + Outstanding(s.queue)))
  }

  function Apply(cfg: Config, s: State, a: Action): State
    requires Enabled(cfg, s, a)
  {
    match a
    case Tick(now) => s.(clock := now)
    case RestoreLatest => AfterRestoreLatest(s)
    case RestoreHistory => AfterRestoreHistory(cfg, s)
    case Rotate(nonce) => AfterRotate(s, nonce)
    case SaveJob => AfterSaveJob(s)
    case Snapshot => AfterSnapshot(s)
    case Deliver(ch, pushed) => AfterDeliver(s, ch, pushed)
    case EndBroadcast => s.(phase := Idle)
    case Register(ch, user) => AfterRegister(s, ch, user)
    case RestoreUser(ch) => AfterRestoreUser(s, ch)
    case AddChannel(ch) => AfterAddChannel(s, ch)
    case RemoveChannel(ch) => AfterRemoveChannel(s, ch)
    case Disconnect(ch) => AfterDisconnect(s, ch)
    case Submit(ch, p, t1, t2) => AfterSubmit(cfg, s, ch, p, t1, t2)
    case ConsumerReceive => AfterReceive(s)
    case ConsumerCount => AfterCount(s)
    case StopConsumer => s.(consumer := s.consumer.(running := false))
    case CloseQueue => s.(queue := Closed(s.queue))
    case Restart => AfterRestart(cfg, s)
  }

  // ----- what actions leave alone -----

  /** Actions of the loop, the clock, the consumer and the queue: none touches a session,
      a connection, a saved user or what the log says of them. */
  predicate Background(a: Action) {
    || a.Tick? || a.RestoreLatest? || a.RestoreHistory? || a.Rotate? || a.SaveJob? || a.Snapshot?
    || a.EndBroadcast? || a.ConsumerReceive? || a.ConsumerCount? || a.StopConsumer? || a.CloseQueue?
  }

  predicate SamePeople(s: State, s': State) {
    && s'.coord.sessions == s.coord.sessions
    && s'.conns == s.conns
    && s'.channels == s.channels
    && s'.store.userStates == s.store.userStates
    && s'.store.used == s.store.used
    && s'.log.ids == s.log.ids
    && s'.log.told == s.log.told
    && s'.log.accepted == s.log.accepted
    && s'.log.tainted == s.log.tainted
    && s'.log.taintedUsers == s.log.taintedUsers
    && s'.log.expired == s.log.expired
    && s.clock <= s'.clock
  }

  lemma BackgroundFrame(cfg: Config, s: State, a: Action)
    requires Enabled(cfg, s, a) && Background(a)
    ensures SamePeople(s, Apply(cfg, s, a))
  {
  }

  /** A submission moves no session to another job and leaves the loop alone. */
  lemma SubmitFrame(cfg: Config, s: State, ch: ChannelId, p: SubmitParams, t1: Instant, t2: Instant)
    ensures
      var s' := AfterSubmit(cfg, s, ch, p, t1, t2);
      && s'.coord.sessions.Keys == s.coord.sessions.Keys
      && (forall c :: c in s.coord.sessions ==> s'.coord.sessions[c].latestJobId == s.coord.sessions[c].latestJobId)
      && s'.coord.history == s.coord.history && s'.coord.jobId == s.coord.jobId
      && s'.phase == s.phase && s'.conns == s.conns && s'.log.ids == s.log.ids
      && s'.store.latestJobId == s.store.latestJobId && s'.clock == t2
  {
  }

  /** Actions that only move a connection along or end it. */
  predicate Departing(a: Action) {
    a.AddChannel? || a.RemoveChannel? || a.Disconnect? || a.Restart?
  }

  /** Actions that write into one session. */
  predicate Arriving(a: Action) {
    a.Register? || a.RestoreUser? || a.Deliver?
  }

  // ----- runs -----

  /** The state after a sequence of actions from any state, if each was possible in its turn. */
  function ExecFrom(cfg: Config, s: State, acts: seq<Action>): Option<State>
    decreases |acts|
  {
    if acts == [] then Some(s)
    else
      var before := ExecFrom(cfg, s, acts[..|acts| - 1]);
      var a := acts[|acts| - 1];
      if before.Some? && Enabled(cfg, before.value, a) then Some(Apply(cfg, before.value, a)) else None
  }

  /** A run from the very first start. */
  function Exec(cfg: Config, acts: seq<Action>): Option<State> {
    ExecFrom(cfg, Init(cfg), acts)
  }

  ghost predicate Reachable(cfg: Config, s: State) {
    exists acts :: Exec(cfg, acts) == Some(s)
  }

  lemma ExecFromSnoc(cfg: Config, s: State, acts: seq<Action>, s': State, a: Action)
    requires ExecFrom(cfg, s, acts) == Some(s') && Enabled(cfg, s', a)
    ensures ExecFrom(cfg, s, acts + [a]) == Some(Apply(cfg, s', a))
  {
    assert (acts + [a])[..|acts + [a]| - 1] == acts;
  }

  lemma ExecSnoc(cfg: Config, acts: seq<Action>, s: State, a: Action)
    requires Exec(cfg, acts) == Some(s) && Enabled(cfg, s, a)
    ensures Exec(cfg, acts + [a]) == Some(Apply(cfg, s, a))
  {
    ExecFromSnoc(cfg, Init(cfg), acts, s, a);
  }

  /** A run is its first part and then the rest. */
  lemma {:induction false} ExecFromConcat(cfg: Config, s: State, acts: seq<Action>, more: seq<Action>)
    ensures ExecFrom(cfg, s, acts + more) ==
      if ExecFrom(cfg, s, acts).Some? then ExecFrom(cfg, ExecFrom(cfg, s, acts).value, more) else None
  {
    if more == [] {
      assert acts + more == acts;
    } else {
      var front := more[..|more| - 1];
      ExecFromConcat(cfg, s, acts, front);
      assert (acts + more)[..|acts + more| - 1] == acts + front;
    }
  }

  lemma ReachableFrom(cfg: Config, s: State, acts: seq<Action>)
    requires Reachable(cfg, s) && ExecFrom(cfg, s, acts).Some?
    ensures Reachable(cfg, ExecFrom(cfg, s, acts).value)
  {
    var before :| Exec(cfg, before) == Some(s);
    ExecFromConcat(cfg, Init(cfg), before, acts);
    assert Exec(cfg, before + acts) == ExecFrom(cfg, s, acts);
  }
}
