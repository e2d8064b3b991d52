/** tcp/server.go and the read loop of channel.go: the goroutine of one connection, from the
    accept to the disconnect, the goroutines it starts for its requests, and whatever other
    goroutines do in between. */
module TcpServer {
  import opened Types
  import opened Listener
  import opened Protocol
  import opened Coordination
  import opened Application

  /** What the read loop finds: the end of the stream or a close frame, a ping, a frame without
      payload, or a request. */
  datatype Inbound = Ended | Ping | Blank | Asked(request: Request)

  /** A frame is read; the goroutine of the `k`-th request still pending runs, reading the clock
      at `t1` and `t2`; something happens elsewhere. */
  datatype Turn = Arrives(frame: Inbound) | Handles(k: nat, t1: Instant, t2: Instant) | Elsewhere(h: Happening)

  /** What a connection has come to: the server's state and closed channels, the requests whose
      goroutines have not run, the responses pushed, the pongs written, and whether the read loop
      has returned. */
  datatype Talk = Talk(
    state: State,
    closed: set<ChannelId>,
    pending: seq<Request>,
    replies: seq<Response>,
    pongs: nat,
    over: bool)

  /** The action is not of the connection itself. */
  predicate Foreign(a: Action, ch: ChannelId) {
    match a
    case Register(c, _) => c != ch
    case RestoreUser(c) => c != ch
    case AddChannel(c) => c != ch
    case RemoveChannel(c) => c != ch
    case Disconnect(c) => c != ch
    case Submit(c, _, _, _) => c != ch
    case Restart => false
    case _ => true
  }

  predicate CanTurn(cfg: Config, ch: ChannelId, t: Talk, turn: Turn) {
    match turn
    case Arrives(_) => !t.over
    case Handles(k, t1, t2) => k < |t.pending| && t.state.clock <= t1 <= t2
    case Elsewhere(h) =>
      Fits(t.closed, h) && (h.Does? ==> Enabled(cfg, t.state, h.action) && Foreign(h.action, ch))
  }

  function Without(reqs: seq<Request>, k: nat): seq<Request>
    requires k < |reqs|
  {
    reqs[..k] + reqs[k + 1..]
  }

  function Turned(cfg: Config, ch: ChannelId, t: Talk, turn: Turn): Talk
    requires CanTurn(cfg, ch, t, turn)
  {
    match turn
    case Arrives(frame) => (
      match frame
      case Ended => t.(over := true)
      case Ping => t.(pongs := t.pongs + 1)
      case Blank => t
      case Asked(req) => t.(pending := t.pending + [req]))
    case Handles(k, t1, t2) =>
      var reply := ReplyTo(cfg, t.state, ch, t.pending[k], t1, t2);
      t.(state := AfterRequest(cfg, t.state, ch, t.pending[k], t1, t2),
         pending := Without(t.pending, k),
         replies := if reply.Some? then t.replies + [reply.value] else t.replies)
    case Elsewhere(h) => t.(state := AfterHappening(cfg, t.state, h), closed := ClosedAfter(t.closed, h))
  }

  /** What comes of the turns, if each is possible. */
  function Converse(cfg: Config, ch: ChannelId, t: Talk, turns: seq<Turn>): Option<Talk>
    decreases |turns|
  {
    if turns == [] then Some(t)
    else
      var before := Converse(cfg, ch, t, turns[..|turns| - 1]);
      var turn := turns[|turns| - 1];
      if before.Some? && CanTurn(cfg, ch, before.value, turn) then Some(Turned(cfg, ch, before.value, turn)) else None
  }

  lemma {:induction false} ConversesUpTo(cfg: Config, ch: ChannelId, t: Talk, turns: seq<Turn>, i: nat)
    requires i <= |turns| && Converse(cfg, ch, t, turns).Some?
    ensures Converse(cfg, ch, t, turns[..i]).Some?
    decreases |turns|
  {
    if i == |turns| {
      assert turns[..i] == turns;
    } else {
      ConversesUpTo(cfg, ch, t, turns[..|turns| - 1], i);
      assert turns[..|turns| - 1][..i] == turns[..i];
    }
  }

  lemma NextTurn(cfg: Config, ch: ChannelId, t: Talk, turns: seq<Turn>, i: nat)
    requires i < |turns| && Converse(cfg, ch, t, turns).Some? && Converse(cfg, ch, t, turns[..i]).Some?
    ensures
      var m := Converse(cfg, ch, t, turns[..i]).value;
      && CanTurn(cfg, ch, m, turns[i])
      && Converse(cfg, ch, t, turns[..i + 1]) == Some(Turned(cfg, ch, m, turns[i]))
  {
    ConversesUpTo(cfg, ch, t, turns, i + 1);
    assert turns[..i + 1][..i] == turns[..i];
  }

  // ----- what a conversation is -----

  /** How many of the requests are to be answered under an id. */
  function AskedAs(reqs: seq<Request>, id: int): nat
    decreases |reqs|
  {
    if reqs == [] then 0 else AskedAs(reqs[..|reqs| - 1], id) + One(AnsweredAs(reqs[|reqs| - 1]) == Some(id))
  }

  function RepliedAs(replies: seq<Response>, id: int): nat
    decreases |replies|
  {
    if replies == [] then 0 else RepliedAs(replies[..|replies| - 1], id) + One(replies[|replies| - 1].id == id)
  }

  function One(b: bool): nat {
    if b then 1 else 0
  }

  /** The requests that the read loop has read. */
  function AskedIn(turns: seq<Turn>): seq<Request>
    decreases |turns|
  {
    if turns == [] then []
    else
      var last := turns[|turns| - 1];
      AskedIn(turns[..|turns| - 1]) + if last.Arrives? && last.frame.Asked? then [last.frame.request] else []
  }

  lemma {:induction false} AskedConcat(a: seq<Request>, b: seq<Request>, id: int)
    ensures AskedAs(a + b, id) == AskedAs(a, id) + AskedAs(b, id)
  {
    if b == [] {
      assert a + b == a;
    } else {
      assert (a + b)[..|a + b| - 1] == a + b[..|b| - 1];
      AskedConcat(a, b[..|b| - 1], id);
    }
  }

  lemma AskedOne(req: Request, id: int)
    ensures AskedAs([req], id) == One(AnsweredAs(req) == Some(id))
  {
    assert [req][..0] == [];
  }

  lemma AskedWithout(reqs: seq<Request>, k: nat, id: int)
    requires k < |reqs|
    ensures AskedAs(reqs, id) == AskedAs(Without(reqs, k), id) + One(AnsweredAs(reqs[k]) == Some(id))
  {
    var a, b, c := reqs[..k], [reqs[k]], reqs[k + 1..];
    assert reqs == a + (b + c);
    AskedConcat(a, b + c, id);
    AskedConcat(b, c, id);
    AskedConcat(a, c, id);
    AskedOne(reqs[k], id);
  }

  lemma RepliedSnoc(replies: seq<Response>, r: Response, id: int)
    ensures RepliedAs(replies + [r], id) == RepliedAs(replies, id) + One(r.id == id)
  {
    assert (replies + [r])[..|replies|] == replies;
  }

  lemma TurnAnswers(cfg: Config, ch: ChannelId, t: Talk, turn: Turn, id: int)
    requires CanTurn(cfg, ch, t, turn)
    ensures
      var t' := Turned(cfg, ch, t, turn);
      RepliedAs(t'.replies, id) + AskedAs(t'.pending, id) == RepliedAs(t.replies, id) + AskedAs(t.pending, id)
        + One(turn.Arrives? && turn.frame.Asked? && AnsweredAs(turn.frame.request) == Some(id))
  {
    match turn
    case Arrives(frame) =>
      if frame.Asked? {
        AskedConcat(t.pending, [frame.request], id);
        AskedOne(frame.request, id);
      }
    case Handles(k, t1, t2) => HandlingAnswers(cfg, ch, t, k, t1, t2, id);
    case Elsewhere(h) =>
  }

  lemma HandlingAnswers(cfg: Config, ch: ChannelId, t: Talk, k: nat, t1: Instant, t2: Instant, id: int)
    requires CanTurn(cfg, ch, t, Handles(k, t1, t2))
    ensures
      var t' := Turned(cfg, ch, t, Handles(k, t1, t2));
      RepliedAs(t'.replies, id) + AskedAs(t'.pending, id) == RepliedAs(t.replies, id) + AskedAs(t.pending, id)
  {
    AskedWithout(t.pending, k, id);
    var reply := ReplyTo(cfg, t.state, ch, t.pending[k], t1, t2);
    if reply.Some? {
      RepliedSnoc(t.replies, reply.value, id);
    }
  }

  /** Whatever the order in which the goroutines run and whatever happens elsewhere: of the
      requests read before the end, each that names the submit method and carries an id has been
      answered once under that id, or is still to be; nothing else is answered. */
  lemma {:induction false} EachAnsweredOnce(cfg: Config, ch: ChannelId, t: Talk, turns: seq<Turn>, id: int)
    requires Converse(cfg, ch, t, turns).Some?
    ensures
      var t' := Converse(cfg, ch, t, turns).value;
      RepliedAs(t'.replies, id) + AskedAs(t'.pending, id)
        == RepliedAs(t.replies, id) + AskedAs(t.pending, id) + AskedAs(AskedIn(turns), id)
  {
    if turns != [] {
      var front, last := turns[..|turns| - 1], turns[|turns| - 1];
      EachAnsweredOnce(cfg, ch, t, front, id);
      TurnAnswers(cfg, ch, Converse(cfg, ch, t, front).value, last, id);
      if last.Arrives? && last.frame.Asked? {
        AskedConcat(AskedIn(front), [last.frame.request], id);
        AskedOne(last.frame.request, id);
      } else {
        assert AskedIn(turns) == AskedIn(front);
      }
    }
  }

  /** How many of the turns read a frame of one kind. */
  function Read(turns: seq<Turn>, frame: Inbound): nat
    decreases |turns|
  {
    if turns == [] then 0 else Read(turns[..|turns| - 1], frame) + One(turns[|turns| - 1] == Arrives(frame))
  }

  /** Each ping that is read is answered by one pong and the loop goes on; it returns exactly at
      the first end or close frame, and reads nothing after it. */
  lemma {:induction false} PongsAndTheEnd(cfg: Config, ch: ChannelId, t: Talk, turns: seq<Turn>)
    requires Converse(cfg, ch, t, turns).Some?
    ensures
      var t' := Converse(cfg, ch, t, turns).value;
      && t'.pongs == t.pongs + Read(turns, Ping)
      && (t'.over <==> t.over || Read(turns, Ended) > 0)
      && Read(turns, Ended) <= 1
      && (t.over ==> Read(turns, Ended) == 0 && Read(turns, Ping) == 0 && AskedIn(turns) == [])
  {
    if turns != [] {
      PongsAndTheEnd(cfg, ch, t, turns[..|turns| - 1]);
    }
  }

  /** A turn as actions of the transition system. */
  function ActionsOfTurn(ch: ChannelId, t: Talk, turn: Turn): seq<Action> {
    match turn
    case Arrives(_) => []
    case Handles(k, t1, t2) =>
      if k < |t.pending| && Submits(t.pending[k]) then [Submit(ch, t.pending[k].params.value, t1, t2)] else []
    case Elsewhere(h) => if h.Does? then [h.action] else []
  }

  function ActionsOfTurns(cfg: Config, ch: ChannelId, t: Talk, turns: seq<Turn>): seq<Action>
    decreases |turns|
  {
    if turns == [] then []
    else
      var before := Converse(cfg, ch, t, turns[..|turns| - 1]);
      ActionsOfTurns(cfg, ch, t, turns[..|turns| - 1])
      + if before.Some? then ActionsOfTurn(ch, before.value, turns[|turns| - 1]) else []
  }

  /** Foreign actions leave the connection where it is, with its session, its user and its place
      in the channel map. */
  lemma ForeignKeeps(cfg: Config, s: State, a: Action, ch: ChannelId)
    requires Enabled(cfg, s, a) && Foreign(a, ch)
    ensures
      var s' := Apply(cfg, s, a);
      && (ch in s'.conns <==> ch in s.conns) && (ch in s.conns ==> s'.conns[ch] == s.conns[ch])
      && (ch in s'.channels <==> ch in s.channels)
      && (ch in s'.coord.sessions <==> ch in s.coord.sessions)
      && (ch in s.coord.sessions ==> s'.coord.sessions[ch].username == s.coord.sessions[ch].username)
  {
  }

  /** The connection exists, and its requests, if it has any, come from a read loop that has
      started. */
  predicate Alive(t: Talk, ch: ChannelId) {
    ch in t.state.conns && ((t.pending == [] && t.over) || t.state.conns[ch] !in {Joining, Stage.Joined})
  }

  lemma TurnIsARun(cfg: Config, ch: ChannelId, t: Talk, turn: Turn)
    requires CanTurn(cfg, ch, t, turn) && Alive(t, ch)
    ensures
      var t' := Turned(cfg, ch, t, turn);
      && ExecFrom(cfg, t.state, ActionsOfTurn(ch, t, turn)) == Some(t'.state)
      && Alive(t', ch) && t'.state.conns[ch] == t.state.conns[ch]
  {
    var acts := ActionsOfTurn(ch, t, turn);
    if acts != [] {
      ExecFromSnoc(cfg, t.state, [], t.state, acts[0]);
      assert [] + [acts[0]] == acts;
      if turn.Elsewhere? {
        ForeignKeeps(cfg, t.state, acts[0], ch);
      }
    }
  }

  /** A conversation is a run of the transition system: its submissions in the order in which
      their goroutines run, among whatever else happens. */
  lemma {:induction false} ConversationIsARun(cfg: Config, ch: ChannelId, t: Talk, turns: seq<Turn>)
    requires Converse(cfg, ch, t, turns).Some? && Alive(t, ch)
    ensures
      var t' := Converse(cfg, ch, t, turns).value;
      && ExecFrom(cfg, t.state, ActionsOfTurns(cfg, ch, t, turns)) == Some(t'.state)
      && Alive(t', ch) && t'.state.conns[ch] == t.state.conns[ch]
  {
    if turns != [] {
      var front, last := turns[..|turns| - 1], turns[|turns| - 1];
      ConversationIsARun(cfg, ch, t, front);
      var m := Converse(cfg, ch, t, front).value;
      TurnIsARun(cfg, ch, m, last);
      ExecFromConcat(cfg, t.state, ActionsOfTurns(cfg, ch, t, front), ActionsOfTurn(ch, m, last));
    }
  }

  // ----- the life of a connection -----

  /** What happens while the connection is registered, restored, in the channel map, out of it
      and unregistered. */
  datatype Script = Script(joining: seq<Turn>, joined: seq<Turn>, open: seq<Turn>, leaving: seq<Turn>, gone: seq<Turn>)

  datatype Outcome = Outcome(talk: Talk, repeated: bool)

  /** Before the read loop has started and after it has returned no frame is read. */
  function Arrival(s: State, closed: set<ChannelId>): Talk {
    Talk(s, closed, [], [], 0, true)
  }

  /** The accept. */
  function Entered(cfg: Config, ch: ChannelId, user: string, t: Talk, script: Script): Option<Talk> {
    var t1 := Converse(cfg, ch, t.(state := AfterRegister(t.state, ch, user)), script.joining);
    if t1.None? then None
    else Converse(cfg, ch, t1.value.(state := AfterRestoreUser(t1.value.state, ch)), script.joined)
  }

  /** The read loop, which starts with the entry in the channel map. */
  function Started(t: Talk, ch: ChannelId): Talk {
    t.(state := AfterAddChannel(t.state, ch), over := ch in t.state.channels)
  }

  /** What follows the read loop. */
  function Departed(cfg: Config, ch: ChannelId, t: Talk, script: Script): Option<Talk> {
    var t1 := Converse(cfg, ch, t.(state := AfterRemoveChannel(t.state, ch)), script.leaving);
    if t1.None? then None
    else
      var t2 := Converse(cfg, ch, t1.value.(state := AfterDisconnect(t1.value.state, ch)), script.gone);
      if t2.None? then None else Some(t2.value.(closed := t2.value.closed + {ch}))
  }

  /** A connection from its accept to its end, if everything is possible and the read loop
      does return; or up to the lookup that finds its identifier in use. */
  function Lived(cfg: Config, ch: ChannelId, user: string, t: Talk, script: Script): Option<Outcome> {
    var entered := Entered(cfg, ch, user, t, script);
    if entered.None? then None
    else if ch in entered.value.state.channels then Some(Outcome(Started(entered.value, ch), true))
    else
      var talked := Converse(cfg, ch, Started(entered.value, ch), script.open);
      if talked.None? || !talked.value.over then None
      else
        var departed := Departed(cfg, ch, talked.value, script);
        if departed.None? then None else Some(Outcome(departed.value, false))
  }

  /** What turns leave of the connection's own place. */
  predicate SamePlace(s: State, s': State, ch: ChannelId) {
    && (ch in s'.channels <==> ch in s.channels)
    && (ch in s'.coord.sessions <==> ch in s.coord.sessions)
    && (ch in s.coord.sessions ==> s'.coord.sessions[ch].username == s.coord.sessions[ch].username)
  }

  lemma TurnKeepsPlace(cfg: Config, ch: ChannelId, t: Talk, turn: Turn)
    requires CanTurn(cfg, ch, t, turn)
    ensures SamePlace(t.state, Turned(cfg, ch, t, turn).state, ch)
  {
    if turn.Elsewhere? && turn.h.Does? {
      ForeignKeeps(cfg, t.state, turn.h.action, ch);
    }
  }

  lemma {:induction false} TurnsKeepPlace(cfg: Config, ch: ChannelId, t: Talk, turns: seq<Turn>)
    requires Converse(cfg, ch, t, turns).Some?
    ensures SamePlace(t.state, Converse(cfg, ch, t, turns).value.state, ch)
  {
    if turns != [] {
      TurnsKeepPlace(cfg, ch, t, turns[..|turns| - 1]);
      TurnKeepsPlace(cfg, ch, Converse(cfg, ch, t, turns[..|turns| - 1]).value, turns[|turns| - 1]);
    }
  }

  lemma EnteredPlace(cfg: Config, ch: ChannelId, user: string, t: Talk, script: Script)
    requires Entered(cfg, ch, user, t, script).Some?
    ensures
      var s' := Entered(cfg, ch, user, t, script).value.state;
      && (ch in s'.channels <==> ch in t.state.channels)
      && ch in s'.coord.sessions && s'.coord.sessions[ch].username == user
  {
    var t1 := t.(state := AfterRegister(t.state, ch, user));
    TurnsKeepPlace(cfg, ch, t1, script.joining);
    var m := Converse(cfg, ch, t1, script.joining).value;
    TurnsKeepPlace(cfg, ch, m.(state := AfterRestoreUser(m.state, ch)), script.joined);
  }

  lemma DepartedPlace(cfg: Config, ch: ChannelId, t: Talk, script: Script)
    requires Departed(cfg, ch, t, script).Some?
    ensures
      var t' := Departed(cfg, ch, t, script).value;
      ch !in t'.state.channels && ch !in t'.state.coord.sessions && ch in t'.closed
  {
    var t1 := t.(state := AfterRemoveChannel(t.state, ch));
    TurnsKeepPlace(cfg, ch, t1, script.leaving);
    var m := Converse(cfg, ch, t1, script.leaving).value;
    TurnsKeepPlace(cfg, ch, m.(state := AfterDisconnect(m.state, ch)), script.gone);
  }

  /** Whatever happens elsewhere meanwhile, a connection that was served leaves no session and no
      channel behind and its channel closed; one whose identifier was in use, which is told
      exactly then, leaves its session. */
  lemma NothingStays(cfg: Config, ch: ChannelId, user: string, t: Talk, script: Script)
    requires Lived(cfg, ch, user, t, script).Some?
    ensures
      var o := Lived(cfg, ch, user, t, script).value;
      && (o.repeated <==> ch in t.state.channels)
      && (!o.repeated ==> ch !in o.talk.state.coord.sessions && ch !in o.talk.state.channels && ch in o.talk.closed)
      && (o.repeated ==> ch in o.talk.state.coord.sessions && o.talk.state.coord.sessions[ch].username == user)
  {
    EnteredPlace(cfg, ch, user, t, script);
    var entered := Entered(cfg, ch, user, t, script).value;
    if ch !in entered.state.channels {
      DepartedPlace(cfg, ch, Converse(cfg, ch, Started(entered, ch), script.open).value, script);
    }
  }

  /** One action of the connection and the turns that follow it continue a run. */
  lemma RunGoesOn(cfg: Config, s: State, acts: seq<Action>, ch: ChannelId, t: Talk, a: Action, t': Talk, turns: seq<Turn>)
    returns (more: seq<Action>)
    requires ExecFrom(cfg, s, acts) == Some(t.state) && Enabled(cfg, t.state, a)
    requires t'.state == Apply(cfg, t.state, a) && Alive(t', ch) && Converse(cfg, ch, t', turns).Some?
    ensures
      var end := Converse(cfg, ch, t', turns).value;
      && ExecFrom(cfg, s, more) == Some(end.state)
      && Alive(end, ch) && end.state.conns[ch] == t'.state.conns[ch]
  {
    ExecFromSnoc(cfg, s, acts, t.state, a);
    ConversationIsARun(cfg, ch, t', turns);
    ExecFromConcat(cfg, s, acts + [a], ActionsOfTurns(cfg, ch, t', turns));
    more := acts + [a] + ActionsOfTurns(cfg, ch, t', turns);
  }

  lemma EntryIsARun(cfg: Config, ch: ChannelId, user: string, t: Talk, script: Script) returns (acts: seq<Action>)
    requires t.pending == [] && t.over && Enabled(cfg, t.state, Register(ch, user)) && Entered(cfg, ch, user, t, script).Some?
    ensures
      var end := Entered(cfg, ch, user, t, script).value;
      ExecFrom(cfg, t.state, acts) == Some(end.state) && At(end.state, ch, Stage.Joined)
  {
    var t1 := t.(state := AfterRegister(t.state, ch, user));
    acts := RunGoesOn(cfg, t.state, [], ch, t, Register(ch, user), t1, script.joining);
    StillSilent(cfg, ch, t1, script.joining);
    var m := Converse(cfg, ch, t1, script.joining).value;
    acts := RunGoesOn(cfg, t.state, acts, ch, m, RestoreUser(ch), m.(state := AfterRestoreUser(m.state, ch)), script.joined);
  }

  /** While no frame is read there is nothing to handle. */
  lemma {:induction false} StillSilent(cfg: Config, ch: ChannelId, t: Talk, turns: seq<Turn>)
    requires t.pending == [] && t.over && Converse(cfg, ch, t, turns).Some?
    ensures Converse(cfg, ch, t, turns).value.pending == [] && Converse(cfg, ch, t, turns).value.over
  {
    if turns != [] {
      StillSilent(cfg, ch, t, turns[..|turns| - 1]);
    }
  }

  lemma ExitIsARun(cfg: Config, s: State, acts: seq<Action>, ch: ChannelId, t: Talk, script: Script) returns (more: seq<Action>)
    requires ExecFrom(cfg, s, acts) == Some(t.state) && At(t.state, ch, Stage.Open) && Departed(cfg, ch, t, script).Some?
    ensures ExecFrom(cfg, s, more) == Some(Departed(cfg, ch, t, script).value.state)
  {
    var t1 := t.(state := AfterRemoveChannel(t.state, ch));
    more := RunGoesOn(cfg, s, acts, ch, t, RemoveChannel(ch), t1, script.leaving);
    var m := Converse(cfg, ch, t1, script.leaving).value;
    more := RunGoesOn(cfg, s, more, ch, m, Disconnect(ch), m.(state := AfterDisconnect(m.state, ch)), script.gone);
  }

  /** With a fresh identifier, the life of a connection among all others is a run of the
      transition system. */
  lemma LifeIsARun(cfg: Config, ch: ChannelId, user: string, s: State, closed: set<ChannelId>, script: Script)
    returns (acts: seq<Action>)
    requires Enabled(cfg, s, Register(ch, user)) && Lived(cfg, ch, user, Arrival(s, closed), script).Some?
    ensures ExecFrom(cfg, s, acts) == Some(Lived(cfg, ch, user, Arrival(s, closed), script).value.talk.state)
  {
    acts := EntryIsARun(cfg, ch, user, Arrival(s, closed), script);
    var m := Entered(cfg, ch, user, Arrival(s, closed), script).value;
    if ch in m.state.channels {
      ExecFromSnoc(cfg, s, acts, m.state, AddChannel(ch));
      acts := acts + [AddChannel(ch)];
    } else {
      acts := RunGoesOn(cfg, s, acts, ch, m, AddChannel(ch), Started(m, ch), script.open);
      acts := ExitIsARun(cfg, s, acts, ch, Converse(cfg, ch, Started(m, ch), script.open).value, script);
    }
  }

  /** The turns are all the connection's own. */
  predicate Alone(turns: seq<Turn>) {
    forall i :: 0 <= i < |turns| ==> !turns[i].Elsewhere?
  }

  /** Other sessions, the channel map and the closed channels are as they were. */
  predicate OthersKept(t: Talk, t': Talk, ch: ChannelId) {
    && t'.state.channels == t.state.channels && t'.closed == t.closed
    && t'.state.coord.sessions - {ch} == t.state.coord.sessions - {ch}
  }

  lemma OwnTurnKeepsOthers(cfg: Config, ch: ChannelId, t: Talk, turn: Turn)
    requires CanTurn(cfg, ch, t, turn) && !turn.Elsewhere?
    ensures OthersKept(t, Turned(cfg, ch, t, turn), ch)
  {
    var s, s' := t.state, Turned(cfg, ch, t, turn).state;
    assert s'.coord.sessions.Keys == s.coord.sessions.Keys;
    assert forall c :: c in s.coord.sessions && c != ch ==> s'.coord.sessions[c] == s.coord.sessions[c];
  }

  lemma {:induction false} OwnTurnsKeepOthers(cfg: Config, ch: ChannelId, t: Talk, turns: seq<Turn>)
    requires Converse(cfg, ch, t, turns).Some? && Alone(turns)
    ensures OthersKept(t, Converse(cfg, ch, t, turns).value, ch)
  {
    if turns != [] {
      OwnTurnsKeepOthers(cfg, ch, t, turns[..|turns| - 1]);
      OwnTurnKeepsOthers(cfg, ch, Converse(cfg, ch, t, turns[..|turns| - 1]).value, turns[|turns| - 1]);
    }
  }

  lemma EntryKeepsOthers(cfg: Config, ch: ChannelId, user: string, t: Talk, script: Script)
    requires Entered(cfg, ch, user, t, script).Some? && Alone(script.joining) && Alone(script.joined)
    ensures OthersKept(t, Entered(cfg, ch, user, t, script).value, ch)
  {
    var t1 := t.(state := AfterRegister(t.state, ch, user));
    assert t1.state.coord.sessions - {ch} == t.state.coord.sessions - {ch};
    OwnTurnsKeepOthers(cfg, ch, t1, script.joining);
    var m := Converse(cfg, ch, t1, script.joining).value;
    var t2 := m.(state := AfterRestoreUser(m.state, ch));
    assert t2.state.coord.sessions - {ch} == m.state.coord.sessions - {ch};
    OwnTurnsKeepOthers(cfg, ch, t2, script.joined);
  }

  lemma ExitKeepsOthers(cfg: Config, ch: ChannelId, t: Talk, script: Script)
    requires Departed(cfg, ch, t, script).Some? && Alone(script.leaving) && Alone(script.gone)
    ensures
      var t' := Departed(cfg, ch, t, script).value;
      && t'.state.channels == t.state.channels - {ch} && t'.closed == t.closed + {ch}
      && t'.state.coord.sessions - {ch} == t.state.coord.sessions - {ch}
  {
    var t1 := t.(state := AfterRemoveChannel(t.state, ch));
    OwnTurnsKeepOthers(cfg, ch, t1, script.leaving);
    var m := Converse(cfg, ch, t1, script.leaving).value;
    var t2 := m.(state := AfterDisconnect(m.state, ch));
    assert t2.state.coord.sessions - {ch} == m.state.coord.sessions - {ch};
    OwnTurnsKeepOthers(cfg, ch, t2, script.gone);
  }

  /** A connection that is alone leaves the maps as it found them: every other session untouched,
      no channel more or less, and only its own channel closed. */
  lemma AloneLeavesMaps(cfg: Config, ch: ChannelId, user: string, t: Talk, script: Script)
    requires Lived(cfg, ch, user, t, script).Some? && ch !in t.state.channels
    requires Alone(script.joining) && Alone(script.joined) && Alone(script.open) && Alone(script.leaving) && Alone(script.gone)
    ensures
      var t' := Lived(cfg, ch, user, t, script).value.talk;
      && t'.state.coord.sessions == t.state.coord.sessions - {ch}
      && t'.state.channels == t.state.channels && t'.closed == t.closed + {ch}
  {
    NothingStays(cfg, ch, user, t, script);
    EntryKeepsOthers(cfg, ch, user, t, script);
    var m := Entered(cfg, ch, user, t, script).value;
    OwnTurnsKeepOthers(cfg, ch, Started(m, ch), script.open);
    ExitKeepsOthers(cfg, ch, Converse(cfg, ch, Started(m, ch), script.open).value, script);
    var t' := Lived(cfg, ch, user, t, script).value.talk;
    assert t'.state.coord.sessions == t'.state.coord.sessions - {ch};
  }

  // ----- the objects -----

  /** Frames written straight to the connection. */
  datatype Outgoing = Reply(response: Response) | CloseFrame(reason: string)

  /** The connection's read loop and the goroutines it has started. */
  class Connection {
    var pending: seq<Request>
    var replies: seq<Response>
    var pongs: nat
    var over: bool

    constructor ()
      ensures pending == [] && replies == [] && pongs == 0 && over
    {
      pending, replies, pongs, over := [], [], 0, true;
    }

    method Finish(k: nat, reply: Option<Response>)
      requires k < |pending|
      modifies this`pending, this`replies
      ensures pending == Without(old(pending), k)
      ensures replies == if reply.Some? then old(replies) + [reply.value] else old(replies)
    {
      pending := pending[..k] + pending[k + 1..];
      if reply.Some? {
        replies := replies + [reply.value];
      }
    }
  }

  class Server {
    const app: AppServer

    constructor (app: AppServer)
      ensures this.app == app
    {
      this.app := app;
    }

    /** The objects stand for what the connection has come to. */
    ghost predicate Stands(conn: Connection, t: Talk)
      reads conn, app, app.coord, app.coord.sessions.Values, app.coord.store, app.coord.mq, app.coord.srv
    {
      && app.Simulates(t.state) && app.coord.srv.closed == t.closed && AsWritten(app.coord.cfg)
      && conn.pending == t.pending && conn.replies == t.replies && conn.pongs == t.pongs && conn.over == t.over
    }

    /** A frame is read: a close frame or the end returns, a ping is answered, an empty frame is
        passed over, and any other starts a goroutine. */
    method Read(conn: Connection, ghost t: Talk, frame: Inbound)
      requires Stands(conn, t) && !t.over
      modifies conn
      ensures forall cfg, ch :: Stands(conn, Turned(cfg, ch, t, Arrives(frame)))
    {
      match frame
      case Ended => conn.over := true;
      case Ping => conn.pongs := conn.pongs + 1;
      case Blank =>
      case Asked(req) => conn.pending := conn.pending + [req];
    }

    /** The goroutine of one pending request runs. */
    method Handle(conn: Connection, ch: ChannelId, ghost t: Talk, k: nat, t1: Instant, t2: Instant)
      requires Stands(conn, t) && CanTurn(app.coord.cfg, ch, t, Handles(k, t1, t2))
      modifies conn, app`clock, app.coord.sessions.Values, app.coord.store, app.coord.mq
      ensures Stands(conn, Turned(app.coord.cfg, ch, t, Handles(k, t1, t2))) && app.coord.sessions == old(app.coord.sessions)
    {
      var reply := app.PerformRequest(t.state, ch, conn.pending[k], t1, t2);
      conn.Finish(k, reply);
    }

    method TakeTurn(conn: Connection, ch: ChannelId, ghost t: Talk, turn: Turn)
      requires Stands(conn, t) && CanTurn(app.coord.cfg, ch, t, turn)
      modifies conn, app, app.coord, app.coord.sessions.Values, app.coord.store, app.coord.mq, app.coord.srv
      ensures Stands(conn, Turned(app.coord.cfg, ch, t, turn))
      ensures fresh(app.coord.sessions.Values - old(app.coord.sessions.Values))
    {
      match turn
      case Arrives(frame) => Read(conn, t, frame);
      case Handles(k, t1, t2) => Handle(conn, ch, t, k, t1, t2);
      case Elsewhere(h) => var v := app.Happen(t.state, h);
    }

    method TakeNext(conn: Connection, ch: ChannelId, ghost t: Talk, turns: seq<Turn>, i: nat, ghost m: Talk) returns (ghost m': Talk)
      requires i < |turns| && Converse(app.coord.cfg, ch, t, turns).Some?
      requires Converse(app.coord.cfg, ch, t, turns[..i]) == Some(m) && Stands(conn, m)
      modifies conn, app, app.coord, app.coord.sessions.Values, app.coord.store, app.coord.mq, app.coord.srv
      ensures Converse(app.coord.cfg, ch, t, turns[..i + 1]) == Some(m') && Stands(conn, m')
      ensures fresh(app.coord.sessions.Values - old(app.coord.sessions.Values))
    {
      NextTurn(app.coord.cfg, ch, t, turns, i);
      TakeTurn(conn, ch, m, turns[i]);
      m' := Turned(app.coord.cfg, ch, m, turns[i]);
    }

    /** The read loop, the goroutines it starts and everything that happens meanwhile. */
    method Readloop(conn: Connection, ch: ChannelId, ghost t: Talk, turns: seq<Turn>)
      requires Stands(conn, t) && Converse(app.coord.cfg, ch, t, turns).Some?
      modifies conn, app, app.coord, app.coord.sessions.Values, app.coord.store, app.coord.mq, app.coord.srv
      ensures Stands(conn, Converse(app.coord.cfg, ch, t, turns).value)
      ensures fresh(app.coord.sessions.Values - old(app.coord.sessions.Values))
    {
      ghost var m := t;
      for i := 0 to |turns|
        invariant Converse(app.coord.cfg, ch, t, turns[..i]) == Some(m) && Stands(conn, m)
        invariant fresh(app.coord.sessions.Values - old(app.coord.sessions.Values))
      {
        m := TakeNext(conn, ch, t, turns, i, m);
      }
      assert turns[..|turns|] == turns;
    }

    /** The first locked phase of the accept, and what happens then. */
    method Register(conn: Connection, ch: ChannelId, user: string, ghost t: Talk, turns: seq<Turn>) returns (ghost t': Talk)
      requires Stands(conn, t) && Converse(app.coord.cfg, ch, t.(state := AfterRegister(t.state, ch, user)), turns).Some?
      modifies conn, app, app.coord, app.coord.sessions.Values, app.coord.store, app.coord.mq, app.coord.srv
      ensures t' == Converse(app.coord.cfg, ch, t.(state := AfterRegister(t.state, ch, user)), turns).value && Stands(conn, t')
      ensures fresh(app.coord.sessions.Values - old(app.coord.sessions.Values))
    {
      Enroll(conn, ch, user, t);
      Readloop(conn, ch, t.(state := AfterRegister(t.state, ch, user)), turns);
      t' := Converse(app.coord.cfg, ch, t.(state := AfterRegister(t.state, ch, user)), turns).value;
    }

    /** The second, and what happens then. */
    method RestoreUser(conn: Connection, ch: ChannelId, ghost t: Talk, turns: seq<Turn>) returns (ghost t': Talk)
      requires Stands(conn, t) && Converse(app.coord.cfg, ch, t.(state := AfterRestoreUser(t.state, ch)), turns).Some?
      modifies conn, app, app.coord, app.coord.sessions.Values, app.coord.store, app.coord.mq, app.coord.srv
      ensures t' == Converse(app.coord.cfg, ch, t.(state := AfterRestoreUser(t.state, ch)), turns).value && Stands(conn, t')
      ensures fresh(app.coord.sessions.Values - old(app.coord.sessions.Values))
    {
      app.PerformRestoreUser(t.state, ch);
      Readloop(conn, ch, t.(state := AfterRestoreUser(t.state, ch)), turns);
      t' := Converse(app.coord.cfg, ch, t.(state := AfterRestoreUser(t.state, ch)), turns).value;
    }

    /** Out of the channel map. */
    method Remove(conn: Connection, ch: ChannelId, ghost t: Talk, turns: seq<Turn>) returns (ghost t': Talk)
      requires Stands(conn, t) && Converse(app.coord.cfg, ch, t.(state := AfterRemoveChannel(t.state, ch)), turns).Some?
      modifies conn, app, app.coord, app.coord.sessions.Values, app.coord.store, app.coord.mq, app.coord.srv
      ensures t' == Converse(app.coord.cfg, ch, t.(state := AfterRemoveChannel(t.state, ch)), turns).value && Stands(conn, t')
      ensures fresh(app.coord.sessions.Values - old(app.coord.sessions.Values))
    {
      app.RemoveChannel(t.state, ch);
      Readloop(conn, ch, t.(state := AfterRemoveChannel(t.state, ch)), turns);
      t' := Converse(app.coord.cfg, ch, t.(state := AfterRemoveChannel(t.state, ch)), turns).value;
    }

    /** The session is removed. */
    method Disconnect(conn: Connection, ch: ChannelId, ghost t: Talk, turns: seq<Turn>) returns (ghost t': Talk)
      requires Stands(conn, t) && Converse(app.coord.cfg, ch, t.(state := AfterDisconnect(t.state, ch)), turns).Some?
      modifies conn, app, app.coord, app.coord.sessions.Values, app.coord.store, app.coord.mq, app.coord.srv
      ensures t' == Converse(app.coord.cfg, ch, t.(state := AfterDisconnect(t.state, ch)), turns).value && Stands(conn, t')
      ensures fresh(app.coord.sessions.Values - old(app.coord.sessions.Values))
    {
      Unregister(conn, ch, t);
      Readloop(conn, ch, t.(state := AfterDisconnect(t.state, ch)), turns);
      t' := Converse(app.coord.cfg, ch, t.(state := AfterDisconnect(t.state, ch)), turns).value;
    }

    method Enroll(conn: Connection, ch: ChannelId, user: string, ghost t: Talk)
      requires Stands(conn, t)
      modifies app.coord`sessions
      ensures Stands(conn, t.(state := AfterRegister(t.state, ch, user)))
      ensures fresh(app.coord.sessions.Values - old(app.coord.sessions.Values))
    {
      app.PerformRegister(t.state, ch, user);
    }

    method Unregister(conn: Connection, ch: ChannelId, ghost t: Talk)
      requires Stands(conn, t)
      modifies app.coord`sessions
      ensures Stands(conn, t.(state := AfterDisconnect(t.state, ch)))
      ensures app.coord.sessions.Values <= old(app.coord.sessions.Values)
    {
      app.PerformDisconnect(t.state, ch);
    }

    method Close(conn: Connection, ch: ChannelId, ghost t: Talk)
      requires Stands(conn, t)
      modifies app.coord.srv`closed
      ensures Stands(conn, t.(closed := t.closed + {ch}))
    {
      app.CloseChannel(t.state, ch);
    }

    /** The lookup in the channel map and, if the identifier is new there, the start of the read
        loop. */
    method Start(conn: Connection, ch: ChannelId, ghost t: Talk) returns (repeated: bool)
      requires Stands(conn, t)
      modifies conn, app.coord.srv`channels
      ensures Stands(conn, Started(t, ch)) && repeated == (ch in t.state.channels)
      ensures app.coord.sessions == old(app.coord.sessions)
    {
      repeated := app.AddChannel(t.state, ch);
      conn.over := repeated;
    }

    /** A connection among all others: the accept, the channel map, the read loop with its
        goroutines, and the end.  A refusal changes nothing and is told by a close frame, as is an
        identifier in use; an accepted login is answered first. */
    method Serve(ghost s: State, frame: Option<FirstFrame>, random: Option<ChannelId>, script: Script)
      returns (conn: Connection, out: seq<Outgoing>)
      requires app.Simulates(s) && AsWritten(app.coord.cfg)
      requires Authorized(frame).Some? && random.Some? ==>
        Lived(app.coord.cfg, random.value, Authorized(frame).value.username, Arrival(s, app.coord.srv.closed), script).Some?
      modifies app, app.coord, app.coord.sessions.Values, app.coord.store, app.coord.mq, app.coord.srv
      ensures Authorized(frame).None? || random.None? ==>
        app.coord.sessions == old(app.coord.sessions) && app.Simulates(s) && |out| == 1 && out[0].CloseFrame?
      ensures Authorized(frame).Some? && random.Some? ==>
        var login := Authorized(frame).value;
        var o := Lived(app.coord.cfg, random.value, login.username, Arrival(s, old(app.coord.srv.closed)), script).value;
        && Stands(conn, o.talk)
        && out == [Reply(Response(login.id, None))] + (if o.repeated then [CloseFrame("channelId is repeated")] else [])
    {
      conn := new Connection();
      var r := app.coord.Vet(frame, random);
      if r.Refused? {
        out := [CloseFrame(r.reason)];
        return;
      }
      out := [Reply(r.reply)];
      ghost var t := Arrival(s, app.coord.srv.closed);
      assert Stands(conn, t);
      var repeated := Live(conn, r.ch, frame.value.request.value.params.value.value, t, script);
      if repeated {
        out := out + [CloseFrame("channelId is repeated")];
      }
    }

    method Live(conn: Connection, ch: ChannelId, user: string, ghost t: Talk, script: Script) returns (repeated: bool)
      requires Stands(conn, t) && Lived(app.coord.cfg, ch, user, t, script).Some?
      modifies conn, app, app.coord, app.coord.sessions.Values, app.coord.store, app.coord.mq, app.coord.srv
      ensures Lived(app.coord.cfg, ch, user, t, script).value.repeated == repeated
      ensures Stands(conn, Lived(app.coord.cfg, ch, user, t, script).value.talk)
      ensures fresh(app.coord.sessions.Values - old(app.coord.sessions.Values))
    {
      ghost var m := Enter(conn, ch, user, t, script);
      repeated := Start(conn, ch, m);
      if !repeated {
        ServeOpen(conn, ch, Started(m, ch), script);
      }
    }

    /** The accept. */
    method Enter(conn: Connection, ch: ChannelId, user: string, ghost t: Talk, script: Script) returns (ghost t': Talk)
      requires Stands(conn, t) && Entered(app.coord.cfg, ch, user, t, script).Some?
      modifies conn, app, app.coord, app.coord.sessions.Values, app.coord.store, app.coord.mq, app.coord.srv
      ensures t' == Entered(app.coord.cfg, ch, user, t, script).value && Stands(conn, t')
      ensures fresh(app.coord.sessions.Values - old(app.coord.sessions.Values))
    {
      ghost var m := Register(conn, ch, user, t, script.joining);
      t' := RestoreUser(conn, ch, m, script.joined);
    }

    /** What follows the read loop. */
    method Leave(conn: Connection, ch: ChannelId, ghost t: Talk, script: Script)
      requires Stands(conn, t) && Departed(app.coord.cfg, ch, t, script).Some?
      modifies conn, app, app.coord, app.coord.sessions.Values, app.coord.store, app.coord.mq, app.coord.srv
      ensures Stands(conn, Departed(app.coord.cfg, ch, t, script).value)
      ensures fresh(app.coord.sessions.Values - old(app.coord.sessions.Values))
    {
      ghost var m := Remove(conn, ch, t, script.leaving);
      End(conn, ch, m, script.gone);
    }

    method End(conn: Connection, ch: ChannelId, ghost t: Talk, turns: seq<Turn>)
      requires Stands(conn, t) && Converse(app.coord.cfg, ch, t.(state := AfterDisconnect(t.state, ch)), turns).Some?
      modifies conn, app, app.coord, app.coord.sessions.Values, app.coord.store, app.coord.mq, app.coord.srv
      ensures
        var m := Converse(app.coord.cfg, ch, t.(state := AfterDisconnect(t.state, ch)), turns).value;
        Stands(conn, m.(closed := m.closed + {ch}))
      ensures fresh(app.coord.sessions.Values - old(app.coord.sessions.Values))
    {
      ghost var m := Disconnect(conn, ch, t, turns);
      Close(conn, ch, m);
    }

    /** The read loop and what follows it. */
    method ServeOpen(conn: Connection, ch: ChannelId, ghost t: Talk, script: Script)
      requires Stands(conn, t) && Converse(app.coord.cfg, ch, t, script.open).Some?
      requires Departed(app.coord.cfg, ch, Converse(app.coord.cfg, ch, t, script.open).value, script).Some?
      modifies conn, app, app.coord, app.coord.sessions.Values, app.coord.store, app.coord.mq, app.coord.srv
      ensures Stands(conn, Departed(app.coord.cfg, ch, Converse(app.coord.cfg, ch, t, script.open).value, script).value)
      ensures fresh(app.coord.sessions.Values - old(app.coord.sessions.Values))
    {
      Readloop(conn, ch, t, script.open);
      ghost var m := Converse(app.coord.cfg, ch, t, script.open).value;
      Leave(conn, ch, m, script);
    }
  }
}
