/** The rate limit over whole runs and the bound it puts on the per-minute counts
    (app/server/listener.go:66-88, app/server/acceptor.go:54-67, stats/memory.go:32-104). */
module Rates {
  import opened Types
  import opened Store
  import opened Listener
  import opened Protocol
  import opened Sessions
  import opened Accounting

  function TimeOf(s: State, i: int): Instant
    requires 0 <= i < |s.log.accepted|
  {
    s.log.accepted[i].event.time
  }

  /** Acceptances on one session are at least a second apart; the session and the user's
      saved state remember the last of them. */
  ghost predicate RateInv(s: State) {
    && s.clock > 0
    && (forall i :: 0 <= i < |s.log.accepted| ==>
          && 0 < TimeOf(s, i) <= s.clock
          && s.log.accepted[i].ch in s.log.ids
          && (s.log.accepted[i].ch in s.conns ==> s.conns[s.log.accepted[i].ch] != Joining))
    && (forall i, ch :: 0 <= i < |s.log.accepted| && ch in s.coord.sessions && s.log.accepted[i].ch == ch ==>
          TimeOf(s, i) <= s.coord.sessions[ch].lastSubmitAt)
    && (forall i :: 0 <= i < |s.log.accepted| ==>
          TimeOf(s, i) <= UserStateOf(s.store, s.log.accepted[i].event.username).lastSubmit)
    && (forall i, k :: 0 <= i < k < |s.log.accepted| && s.log.accepted[i].ch == s.log.accepted[k].ch ==>
          TimeOf(s, k) - TimeOf(s, i) >= SECOND)
  }

  /** What `RateInv` needs to know of an accepted submission. */
  lemma AcceptedFacts(cfg: Config, s: State, ch: ChannelId, p: SubmitParams, t1: Instant, t2: Instant)
    requires Enabled(cfg, s, Submit(ch, p, t1, t2)) && VerdictOn(cfg, s, ch, p, t1, t2) == Accepted
    ensures
      var s' := AfterSubmit(cfg, s, ch, p, t1, t2);
      var user := s.coord.sessions[ch].username;
      && !Hasty(s.coord.sessions[ch], t2)
      && s'.clock == t2 && s'.conns == s.conns && s'.log.ids == s.log.ids
      && s'.log.accepted == s.log.accepted + [AcceptanceOf(s, ch, p, t2)]
      && (forall c :: c in s'.coord.sessions <==> c in s.coord.sessions)
      && (forall c :: c in s.coord.sessions && c != ch ==> s'.coord.sessions[c] == s.coord.sessions[c])
      && s'.coord.sessions[ch].lastSubmitAt == t2 == UserStateOf(s'.store, user).lastSubmit
      && s'.coord.sessions[ch].username == user
      && (forall u :: u != user ==> UserStateOf(s'.store, u) == UserStateOf(s.store, u))
  {
  }

  lemma RateInvAccept(s: State, s': State, ch: ChannelId, a: Acceptance)
    requires LifeInv(s) && RateInv(s) && ch in s.coord.sessions && a.ch == ch && Settled(s, ch)
    requires !Hasty(s.coord.sessions[ch], a.event.time) && s.clock <= a.event.time
    requires s'.clock == a.event.time && s'.conns == s.conns && s'.log.ids == s.log.ids
    requires s'.log.accepted == s.log.accepted + [a]
    requires forall c :: c in s'.coord.sessions <==> c in s.coord.sessions
    requires forall c :: c in s.coord.sessions && c != ch ==> s'.coord.sessions[c] == s.coord.sessions[c]
    requires s'.coord.sessions[ch].lastSubmitAt == a.event.time == UserStateOf(s'.store, a.event.username).lastSubmit
    requires forall u :: u != a.event.username ==> UserStateOf(s'.store, u) == UserStateOf(s.store, u)
    ensures RateInv(s')
  {
    assert s'.log.accepted[|s.log.accepted|] == a;
    forall i | 0 <= i < |s.log.accepted|
      ensures TimeOf(s', i) == TimeOf(s, i)
      ensures TimeOf(s', i) <= UserStateOf(s'.store, s'.log.accepted[i].event.username).lastSubmit
      ensures s.log.accepted[i].ch == ch ==> a.event.time - TimeOf(s, i) >= SECOND
    {
      assert s'.log.accepted[i] == s.log.accepted[i];
    }
  }

  lemma RateInvSubmit(cfg: Config, s: State, ch: ChannelId, p: SubmitParams, t1: Instant, t2: Instant)
    requires LifeInv(s) && RateInv(s) && Enabled(cfg, s, Submit(ch, p, t1, t2))
    ensures RateInv(AfterSubmit(cfg, s, ch, p, t1, t2))
  {
    var s' := AfterSubmit(cfg, s, ch, p, t1, t2);
    if VerdictOn(cfg, s, ch, p, t1, t2) == Accepted {
      AcceptedFacts(cfg, s, ch, p, t1, t2);
      RateInvAccept(s, s', ch, AcceptanceOf(s, ch, p, t2));
    } else {
      assert s'.log.accepted == s.log.accepted && s'.store == s.store;
      assert forall c :: c in s.coord.sessions ==> s'.coord.sessions[c].lastSubmitAt == s.coord.sessions[c].lastSubmitAt;
    }
  }

  lemma RateInvDeparting(cfg: Config, s: State, a: Action)
    requires LifeInv(s) && RateInv(s) && Enabled(cfg, s, a) && Departing(a)
    ensures RateInv(Apply(cfg, s, a))
  {
  }

  lemma RateInvArriving(cfg: Config, s: State, a: Action)
    requires LifeInv(s) && RateInv(s) && Enabled(cfg, s, a) && Arriving(a)
    ensures RateInv(Apply(cfg, s, a))
  {
  }

  lemma RateInvStep(cfg: Config, s: State, a: Action)
    requires LifeInv(s) && RateInv(s) && Enabled(cfg, s, a)
    ensures RateInv(Apply(cfg, s, a))
  {
    if Background(a) {
      BackgroundFrame(cfg, s, a);
    } else if a.Submit? {
      RateInvSubmit(cfg, s, a.ch, a.params, a.t1, a.t2);
    } else if Departing(a) {
      RateInvDeparting(cfg, s, a);
    } else {
      RateInvArriving(cfg, s, a);
    }
  }

  // ----- what the saved time says of the user -----

  ghost predicate AcceptedAt(acc: seq<Acceptance>, user: string, time: Instant) {
    exists i :: 0 <= i < |acc| && acc[i].event == SubmitEvent(user, time)
  }

  /** The time saved for a user is that of one of the user's acceptances, and so is the time a
      session remembers, if it remembers any. */
  ghost predicate SavedInv(s: State) {
    && (forall u :: u in s.store.userStates ==> AcceptedAt(s.log.accepted, u, s.store.userStates[u].lastSubmit))
    && (forall ch :: ch in s.coord.sessions ==> Remembers(s, s.coord.sessions[ch]))
  }

  ghost predicate Remembers(s: State, sess: Session) {
    sess.lastSubmitAt == ZERO_TIME || AcceptedAt(s.log.accepted, sess.username, sess.lastSubmitAt)
  }

  lemma StillAcceptedAt(acc: seq<Acceptance>, a: Acceptance, user: string, time: Instant)
    ensures AcceptedAt(acc, user, time) ==> AcceptedAt(acc + [a], user, time)
    ensures a.event == SubmitEvent(user, time) ==> AcceptedAt(acc + [a], user, time)
  {
    assert (acc + [a])[|acc|] == a;
    if AcceptedAt(acc, user, time) {
      var i :| 0 <= i < |acc| && acc[i].event == SubmitEvent(user, time);
      assert (acc + [a])[i] == acc[i];
    }
  }

  lemma SavedInvSubmit(cfg: Config, s: State, ch: ChannelId, p: SubmitParams, t1: Instant, t2: Instant)
    requires SavedInv(s) && Enabled(cfg, s, Submit(ch, p, t1, t2))
    ensures SavedInv(AfterSubmit(cfg, s, ch, p, t1, t2))
  {
    var s' := AfterSubmit(cfg, s, ch, p, t1, t2);
    if VerdictOn(cfg, s, ch, p, t1, t2) == Accepted {
      AcceptedFacts(cfg, s, ch, p, t1, t2);
      forall u | u in s'.store.userStates
        ensures AcceptedAt(s'.log.accepted, u, s'.store.userStates[u].lastSubmit)
      {
        StillAcceptedAt(s.log.accepted, AcceptanceOf(s, ch, p, t2), u, s'.store.userStates[u].lastSubmit);
      }
      forall c | c in s'.coord.sessions
        ensures Remembers(s', s'.coord.sessions[c])
      {
        StillAcceptedAt(s.log.accepted, AcceptanceOf(s, ch, p, t2), s'.coord.sessions[c].username, s'.coord.sessions[c].lastSubmitAt);
      }
    } else {
      RefusedRemembers(cfg, s, ch, p, t1, t2);
    }
  }

  lemma RefusedRemembers(cfg: Config, s: State, ch: ChannelId, p: SubmitParams, t1: Instant, t2: Instant)
    requires VerdictOn(cfg, s, ch, p, t1, t2) != Accepted
    ensures
      var s' := AfterSubmit(cfg, s, ch, p, t1, t2);
      && s'.coord.sessions.Keys == s.coord.sessions.Keys && s'.log.accepted == s.log.accepted && s'.store == s.store
      && (forall c :: c in s.coord.sessions ==>
            && s'.coord.sessions[c].lastSubmitAt == s.coord.sessions[c].lastSubmitAt
            && s'.coord.sessions[c].username == s.coord.sessions[c].username)
  {
  }

  lemma SavedInvStep(cfg: Config, s: State, a: Action)
    requires SavedInv(s) && Enabled(cfg, s, a)
    ensures SavedInv(Apply(cfg, s, a))
  {
    if Background(a) {
      BackgroundFrame(cfg, s, a);
    } else if a.Submit? {
      SavedInvSubmit(cfg, s, a.ch, a.params, a.t1, a.t2);
    } else {
      SavedInvConnection(cfg, s, a);
    }
  }

  lemma SavedInvConnection(cfg: Config, s: State, a: Action)
    requires SavedInv(s) && Enabled(cfg, s, a) && !Background(a) && !a.Submit?
    ensures SavedInv(Apply(cfg, s, a))
  {
    var s' := Apply(cfg, s, a);
    assert s'.store == s.store && s'.log.accepted == s.log.accepted;
    forall c | c in s'.coord.sessions
      ensures Remembers(s', s'.coord.sessions[c])
    {
      assert c in s.coord.sessions ==> Remembers(s, s.coord.sessions[c]);
    }
  }

  /** The user may submit again by the time that the store has saved. */
  predicate SavedGap(s: State, user: string, now: Instant) {
    user !in s.store.userStates || now - s.store.userStates[user].lastSubmit >= SECOND
  }

  /** All that was accepted for the user is a second past. */
  ghost predicate AllPast(acc: seq<Acceptance>, user: string, now: Instant) {
    forall i :: 0 <= i < |acc| && acc[i].event.username == user ==> now - acc[i].event.time >= SECOND
  }

  lemma SavedGapIsExact(s: State, user: string, now: Instant)
    requires RateInv(s) && SavedInv(s)
    ensures AllPast(s.log.accepted, user, now) <==> SavedGap(s, user, now)
  {
    if user in s.store.userStates {
      assert AcceptedAt(s.log.accepted, user, s.store.userStates[user].lastSubmit);
    }
    forall i | 0 <= i < |s.log.accepted| && s.log.accepted[i].event.username == user
      ensures user in s.store.userStates && TimeOf(s, i) <= s.store.userStates[user].lastSubmit
    {
      assert 0 < TimeOf(s, i) <= UserStateOf(s.store, user).lastSubmit;
    }
  }

  lemma SpacedSnoc(acc: seq<Acceptance>, a: Acceptance, user: string)
    ensures Spaced(acc + [a], user) <==>
      Spaced(acc, user) && (a.event.username == user ==> AllPast(acc, user, a.event.time))
  {
    var acc' := acc + [a];
    assert acc'[|acc|] == a;
    assert forall i :: 0 <= i < |acc| ==> acc'[i] == acc[i];
    if Spaced(acc', user) {
      forall i, k | 0 <= i < k < |acc| && acc[i].event.username == user && acc[k].event.username == user
        ensures acc[k].event.time - acc[i].event.time >= SECOND
      {
        assert acc'[i] == acc[i] && acc'[k] == acc[k];
      }
      if a.event.username == user {
        forall i | 0 <= i < |acc| && acc[i].event.username == user
          ensures a.event.time - acc[i].event.time >= SECOND
        {
          assert acc'[i] == acc[i];
        }
      }
    }
  }

  // ----- one user, one session at a time -----

  ghost predicate Solo(s: State, user: string) {
    forall c, d ::
      c in s.coord.sessions && d in s.coord.sessions
      && s.coord.sessions[c].username == user && s.coord.sessions[d].username == user
      ==> c == d
  }

  /** The settled session of the user remembers what the store remembers. */
  ghost predicate InStep(s: State, user: string) {
    forall ch :: ch in s.coord.sessions && Settled(s, ch) && s.coord.sessions[ch].username == user ==>
      s.coord.sessions[ch].lastSubmitAt == UserStateOf(s.store, user).lastSubmit
  }

  ghost predicate Spaced(acc: seq<Acceptance>, user: string) {
    forall i, k :: 0 <= i < k < |acc| && acc[i].event.username == user && acc[k].event.username == user ==>
      acc[k].event.time - acc[i].event.time >= SECOND
  }

  ghost predicate SoloInv(s: State, user: string) {
    InStep(s, user) && Spaced(s.log.accepted, user)
  }

  lemma SoloInvAccept(s: State, s': State, ch: ChannelId, a: Acceptance, user: string)
    requires RateInv(s) && Solo(s, user) && SoloInv(s, user) && ch in s.coord.sessions && Settled(s, ch)
    requires a.event.username == s.coord.sessions[ch].username && !Hasty(s.coord.sessions[ch], a.event.time)
    requires s'.conns == s.conns && s'.log.accepted == s.log.accepted + [a]
    requires forall c :: c in s'.coord.sessions <==> c in s.coord.sessions
    requires forall c :: c in s.coord.sessions && c != ch ==> s'.coord.sessions[c] == s.coord.sessions[c]
    requires s'.coord.sessions[ch].username == a.event.username
    requires s'.coord.sessions[ch].lastSubmitAt == a.event.time == UserStateOf(s'.store, a.event.username).lastSubmit
    requires forall u :: u != a.event.username ==> UserStateOf(s'.store, u) == UserStateOf(s.store, u)
    ensures SoloInv(s', user)
  {
    assert s'.log.accepted[|s.log.accepted|] == a;
    forall i | 0 <= i < |s.log.accepted| && s.log.accepted[i].event.username == user == a.event.username
      ensures a.event.time - s.log.accepted[i].event.time >= SECOND
    {
      assert TimeOf(s, i) <= UserStateOf(s.store, user).lastSubmit == s.coord.sessions[ch].lastSubmitAt;
    }
  }

  lemma SoloInvSubmit(cfg: Config, s: State, ch: ChannelId, p: SubmitParams, t1: Instant, t2: Instant, user: string)
    requires LifeInv(s) && RateInv(s) && Solo(s, user) && SoloInv(s, user) && Enabled(cfg, s, Submit(ch, p, t1, t2))
    ensures SoloInv(AfterSubmit(cfg, s, ch, p, t1, t2), user)
  {
    var s' := AfterSubmit(cfg, s, ch, p, t1, t2);
    if VerdictOn(cfg, s, ch, p, t1, t2) == Accepted {
      AcceptedFacts(cfg, s, ch, p, t1, t2);
      SoloInvAccept(s, s', ch, AcceptanceOf(s, ch, p, t2), user);
    }
  }

  lemma SoloInvStep(cfg: Config, s: State, a: Action, user: string)
    requires LifeInv(s) && RateInv(s) && Solo(s, user) && SoloInv(s, user) && Enabled(cfg, s, a)
    ensures SoloInv(Apply(cfg, s, a), user)
  {
    if Background(a) {
      BackgroundFrame(cfg, s, a);
    } else if a.Submit? {
      SoloInvSubmit(cfg, s, a.ch, a.params, a.t1, a.t2, user);
    } else {
      SoloInvConnection(cfg, s, a, user);
    }
  }

  lemma SoloInvConnection(cfg: Config, s: State, a: Action, user: string)
    requires LifeInv(s) && SoloInv(s, user) && Enabled(cfg, s, a) && !Background(a) && !a.Submit?
    ensures SoloInv(Apply(cfg, s, a), user)
  {
    var s' := Apply(cfg, s, a);
    assert s'.store == s.store && s'.log.accepted == s.log.accepted;
  }

  // ----- at most sixty a minute -----

  /** Some acceptance of the user in the minute comes at least `n - 1` seconds into it. */
  ghost predicate Filled(acc: seq<Acceptance>, user: string, minute: Instant, n: nat) {
    exists i :: 0 <= i < |acc| && Hit(acc[i].event, user, minute) == 1 && acc[i].event.time >= minute + (n - 1) * SECOND
  }

  lemma FilledMore(acc: seq<Acceptance>, last: Acceptance, user: string, minute: Instant, n: nat)
    requires Spaced(acc + [last], user) && (n > 0 ==> Filled(acc, user, minute, n))
    requires n + Hit(last.event, user, minute) > 0
    ensures Filled(acc + [last], user, minute, n + Hit(last.event, user, minute))
  {
    var acc' := acc + [last];
    assert acc'[|acc|] == last;
    if n > 0 {
      var i :| 0 <= i < |acc| && Hit(acc[i].event, user, minute) == 1 && acc[i].event.time >= minute + (n - 1) * SECOND;
      assert acc'[i] == acc[i];
      assert Hit(last.event, user, minute) == 1 ==> last.event.time - acc[i].event.time >= SECOND;
    }
  }

  /** Of acceptances that are a second apart, the last in the minute comes at least as many
      seconds into it as there were earlier ones. */
  lemma {:induction false} SpacedAcceptancesFill(acc: seq<Acceptance>, user: string, minute: Instant)
    requires Spaced(acc, user) && TallyAccepted(acc, user, minute) > 0
    ensures Filled(acc, user, minute, TallyAccepted(acc, user, minute))
  {
    if acc != [] {
      var front, last := acc[..|acc| - 1], acc[|acc| - 1];
      assert acc == front + [last];
      TallyAcceptedSnoc(front, last, user, minute);
      if TallyAccepted(front, user, minute) > 0 {
        SpacedAcceptancesFill(front, user, minute);
      }
      FilledMore(front, last, user, minute, TallyAccepted(front, user, minute));
    }
  }

  lemma SixtyPerMinute(acc: seq<Acceptance>, user: string, minute: Instant)
    requires Spaced(acc, user)
    ensures TallyAccepted(acc, user, minute) <= 60
  {
    if TallyAccepted(acc, user, minute) > 0 {
      SpacedAcceptancesFill(acc, user, minute);
    }
  }
}
