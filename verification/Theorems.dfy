/** What holds in every reachable state and along every run of the server. */
module Theorems {
  import opened Types
  import opened Store
  import opened Queue
  import opened Listener
  import opened Protocol
  import opened Jobs
  import opened Sessions
  import opened Pairs
  import opened Nonces
  import opened Rates
  import opened Accounting

  ghost predicate Inv(cfg: Config, s: State) {
    && JobInv(s)
    && LifeInv(s)
    && NumberInv(s)
    && ToldInv(s)
    && PairInv(cfg, s)
    && AcceptInv(cfg, s)
    && ExpiryInv(cfg, s)
    && UsedInv(cfg, s)
    && RateInv(s)
    && SavedInv(s)
    && CountInv(s)
    && s.queue.size == cfg.queueSize
  }

  lemma InvInit(cfg: Config)
    ensures Inv(cfg, Init(cfg))
  {
    InitUsed(cfg);
    InitCount(cfg);
  }

  lemma InitUsed(cfg: Config)
    ensures UsedInv(cfg, Init(cfg))
  {
  }

  lemma InitCount(cfg: Config)
    ensures CountInv(Init(cfg))
  {
    var s := Init(cfg);
    assert Outstanding(s.queue) == [] && InHand(s) == [];
  }

  lemma InvStep(cfg: Config, s: State, a: Action)
    requires Inv(cfg, s) && Enabled(cfg, s, a)
    ensures Inv(cfg, Apply(cfg, s, a))
  {
    JobInvStep(cfg, s, a);
    LifeInvStep(cfg, s, a);
    NumberInvStep(cfg, s, a);
    ToldInvStep(cfg, s, a);
    PairInvStep(cfg, s, a);
    AcceptInvStep(cfg, s, a);
    ExpiryInvStep(cfg, s, a);
    UsedInvStep(cfg, s, a);
    RateInvStep(cfg, s, a);
    SavedInvStep(cfg, s, a);
    CountInvStep(cfg, s, a);
    QueueKeepsSize(cfg, s, a);
  }

  lemma QueueKeepsSize(cfg: Config, s: State, a: Action)
    requires Enabled(cfg, s, a) && s.queue.size == cfg.queueSize
    ensures Apply(cfg, s, a).queue.size == cfg.queueSize
  {
  }

  /** Every invariant holds after every run. */
  lemma {:induction false} Always(cfg: Config, acts: seq<Action>)
    requires Exec(cfg, acts).Some?
    ensures Inv(cfg, Exec(cfg, acts).value)
  {
    if acts == [] {
      InvInit(cfg);
    } else {
      Always(cfg, acts[..|acts| - 1]);
      InvStep(cfg, Exec(cfg, acts[..|acts| - 1]).value, acts[|acts| - 1]);
    }
  }

  lemma ReachableInv(cfg: Config, s: State)
    requires Reachable(cfg, s)
    ensures Inv(cfg, s)
  {
    var acts :| Exec(cfg, acts) == Some(s);
    Always(cfg, acts);
  }

  // ----- conservation -----

  /** Each accepted submission is in the counts, or accounted for on its way there. */
  lemma Conservation(cfg: Config, s: State, user: string, minute: Instant)
    requires Reachable(cfg, s)
    ensures TallyAccepted(s.log.accepted, user, minute) ==
      CountAt(s.store, user, minute)
      + Tally(InHand(s), user, minute) + Tally(s.queue.buffer, user, minute) + Tally(s.queue.senders, user, minute)
      + Tally(s.queue.crashed, user, minute) + Tally(s.queue.dropped, user, minute) + Tally(s.log.lost, user, minute)
  {
    ReachableInv(cfg, s);
    assert Balanced(s, user, minute);
    var q := s.queue;
    TallyConcat(q.buffer + q.senders + q.crashed, q.dropped, user, minute);
    TallyConcat(q.buffer + q.senders, q.crashed, user, minute);
    TallyConcat(q.buffer, q.senders, user, minute);
  }

  /** Where the event of an accepted submission goes: into the buffer while fewer than the
      configured number are there, otherwise it waits; and after the close it is dropped. */
  lemma WhereAnEventGoes(cfg: Config, s: State, ch: ChannelId, p: SubmitParams, t1: Instant, t2: Instant)
    requires Reachable(cfg, s) && Enabled(cfg, s, Submit(ch, p, t1, t2)) && VerdictOn(cfg, s, ch, p, t1, t2) == Accepted
    ensures
      var e := SubmitEvent(s.coord.sessions[ch].username, t2);
      var q, q' := s.queue, Apply(cfg, s, Submit(ch, p, t1, t2)).queue;
      && |q.buffer| <= cfg.queueSize
      && (if q.closed then q' == q.(dropped := q.dropped + [e])
          else if |q.buffer| < cfg.queueSize then q' == q.(buffer := q.buffer + [e])
          else q' == q.(senders := q.senders + [e]))
  {
    ReachableInv(cfg, s);
  }

  /** Queries are exact: at every instant of every minute they return the number of submissions
      the user had accepted in it. */
  ghost predicate CountsExact(s: State) {
    forall user, t :: CountAt(s.store, user, Truncate(t)) == InMinuteOf(EventsOf(s.log.accepted), user, t)
  }

  /** Queries are exact if and only if everything has drained and nothing was dropped or lost. */
  lemma DrainedCountsAreExact(cfg: Config, s: State)
    requires Reachable(cfg, s)
    ensures CountsExact(s) <==> s.consumer.inHand == None && Outstanding(s.queue) == [] && s.log.lost == []
  {
    ReachableInv(cfg, s);
    if CountsExact(s) {
      forall user, t
        ensures Tally(InHand(s), user, Truncate(t)) == 0
        ensures Tally(Outstanding(s.queue), user, Truncate(t)) == 0 && Tally(s.log.lost, user, Truncate(t)) == 0
      {
        assert Balanced(s, user, Truncate(t));
        assert CountAt(s.store, user, Truncate(t)) == InMinuteOf(EventsOf(s.log.accepted), user, t);
        TallyIsInMinuteOf(EventsOf(s.log.accepted), user, t);
      }
      NothingTallied(InHand(s));
      NothingTallied(Outstanding(s.queue));
      NothingTallied(s.log.lost);
    } else {
      var user, t :| CountAt(s.store, user, Truncate(t)) != InMinuteOf(EventsOf(s.log.accepted), user, t);
      TallyIsInMinuteOf(EventsOf(s.log.accepted), user, t);
      assert Balanced(s, user, Truncate(t));
    }
  }

  /** As long as the consumer runs it can catch up, with the queue open or closed: some run of its
      own actions alone counts everything that is in its hand, buffered or waiting. */
  lemma {:induction false} ConsumerCanCatchUp(cfg: Config, s: State) returns (acts: seq<Action>)
    requires s.consumer.running
    ensures forall a :: a in acts ==> a.ConsumerReceive? || a.ConsumerCount?
    ensures ExecFrom(cfg, s, acts).Some?
    ensures
      var s' := ExecFrom(cfg, s, acts).value;
      && s'.consumer.inHand == None && Pending(s'.queue) == []
      && s'.queue.crashed == s.queue.crashed && s'.queue.dropped == s.queue.dropped
      && s'.log.accepted == s.log.accepted && s'.log.lost == s.log.lost
    decreases 2 * |Pending(s.queue)| + (if s.consumer.inHand.Some? then 1 else 0)
  {
    if s.consumer.inHand.Some? {
      var more := ConsumerCanCatchUp(cfg, AfterCount(s));
      acts := OneMore(cfg, s, ConsumerCount, more);
    } else if CanReceive(s.queue) {
      ReceiveShortens(s.queue);
      var more := ConsumerCanCatchUp(cfg, AfterReceive(s));
      acts := OneMore(cfg, s, ConsumerReceive, more);
    } else {
      acts := [];
    }
  }

  lemma OneMore(cfg: Config, s: State, a: Action, more: seq<Action>) returns (acts: seq<Action>)
    requires Enabled(cfg, s, a) && ExecFrom(cfg, Apply(cfg, s, a), more).Some?
    ensures acts == [a] + more && ExecFrom(cfg, s, acts) == ExecFrom(cfg, Apply(cfg, s, a), more)
  {
    ExecFromSnoc(cfg, s, [], s, a);
    assert [] + [a] == [a];
    ExecFromConcat(cfg, s, [a], more);
    acts := [a] + more;
  }

  /** So the counts can still become exact if and only if nothing was crashed by the close, dropped
      after it, or lost to a restart. */
  lemma CountsCanBecomeExact(cfg: Config, s: State) returns (acts: seq<Action>)
    requires Reachable(cfg, s) && s.consumer.running
    ensures ExecFrom(cfg, s, acts).Some?
    ensures CountsExact(ExecFrom(cfg, s, acts).value)
      <==> s.queue.crashed == [] && s.queue.dropped == [] && s.log.lost == []
  {
    acts := ConsumerCanCatchUp(cfg, s);
    ReachableFrom(cfg, s, acts);
    var s' := ExecFrom(cfg, s, acts).value;
    DrainedCountsAreExact(cfg, s');
    assert Outstanding(s'.queue) == s.queue.crashed + s.queue.dropped;
  }

  ghost predicate ConsumerGone(s: State) {
    !s.consumer.running && s.consumer.inHand == None
  }

  /** `Shutdown` stops the consumer before it closes the queue.  From then on, until a restart,
      no count changes and each submission accepted joins, in order, those that are stranded.  So
      queries end up exact if and only if nothing was outstanding or lost when the consumer
      stopped and nothing has been accepted since. */
  lemma StoppedConsumerStrandsTheRest(cfg: Config, s: State, acts: seq<Action>, s': State)
    requires Reachable(cfg, s) && ConsumerGone(s) && ExecFrom(cfg, s, acts) == Some(s') && Restart !in acts
    ensures ConsumerGone(s') && s'.store.counts == s.store.counts && s.log.accepted <= s'.log.accepted
    ensures Outstanding(s'.queue) == Outstanding(s.queue) + EventsOf(s'.log.accepted[|s.log.accepted|..])
    ensures CountsExact(s') <==> Outstanding(s.queue) == [] && s.log.lost == [] && s'.log.accepted == s.log.accepted
  {
    Stranded(cfg, s, acts, s');
    ReachableFrom(cfg, s, acts);
    DrainedCountsAreExact(cfg, s');
    assert s'.log.accepted == s.log.accepted + s'.log.accepted[|s.log.accepted|..];
  }

  /** Since `s` nothing was counted or lost, and what was accepted is outstanding. */
  ghost predicate StrandedSince(s: State, s': State) {
    && ConsumerGone(s') && s'.store.counts == s.store.counts && s'.log.lost == s.log.lost
    && s.log.accepted <= s'.log.accepted
    && Outstanding(s'.queue) == Outstanding(s.queue) + EventsOf(s'.log.accepted[|s.log.accepted|..])
  }

  lemma {:induction false} Stranded(cfg: Config, s: State, acts: seq<Action>, s': State)
    requires Reachable(cfg, s) && ConsumerGone(s) && ExecFrom(cfg, s, acts) == Some(s') && Restart !in acts
    ensures StrandedSince(s, s')
  {
    if acts == [] {
      assert EventsOf(s.log.accepted[|s.log.accepted|..]) == [];
    } else {
      var front, a := acts[..|acts| - 1], acts[|acts| - 1];
      var m := ExecFrom(cfg, s, front).value;
      Stranded(cfg, s, front, m);
      ReachableFrom(cfg, s, front);
      ReachableInv(cfg, m);
      StrandsOneMore(cfg, m, a);
      StrandedTransitive(s, m, Apply(cfg, m, a));
    }
  }

  lemma StrandedTransitive(s: State, m: State, s': State)
    requires StrandedSince(s, m) && StrandedSince(m, s')
    ensures StrandedSince(s, s')
  {
    var a, b, c := s.log.accepted, m.log.accepted, s'.log.accepted;
    assert EventsOf(c[|a|..]) == EventsOf(b[|a|..]) + EventsOf(c[|b|..]);
  }

  lemma StoppedConsumerCountsNothing(cfg: Config, s: State, a: Action)
    requires Enabled(cfg, s, a) && a != Restart && ConsumerGone(s)
    ensures ConsumerGone(Apply(cfg, s, a)) && Apply(cfg, s, a).store.counts == s.store.counts
    ensures Apply(cfg, s, a).log.lost == s.log.lost
  {
    if a.Submit? {
      SubmitCountsNothing(cfg, s, a.ch, a.params, a.t1, a.t2);
    }
  }

  lemma SubmitCountsNothing(cfg: Config, s: State, ch: ChannelId, p: SubmitParams, t1: Instant, t2: Instant)
    ensures
      var s' := AfterSubmit(cfg, s, ch, p, t1, t2);
      s'.consumer == s.consumer && s'.store.counts == s.store.counts && s'.log.lost == s.log.lost
  {
  }

  lemma StrandsOneMore(cfg: Config, s: State, a: Action)
    requires Enabled(cfg, s, a) && a != Restart && ConsumerGone(s) && WellFormed(s.queue)
    ensures StrandedSince(s, Apply(cfg, s, a))
  {
    StoppedConsumerCountsNothing(cfg, s, a);
    if a.Submit? && VerdictOn(cfg, s, a.ch, a.params, a.t1, a.t2) == Accepted {
      PublishAppends(s.queue, AcceptanceOf(s, a.ch, a.params, a.t2).event);
    } else if a.CloseQueue? {
      CloseKeepsAll(s.queue);
    } else {
      MostActionsKeepAccounts(cfg, s, a);
    }
  }

  // ----- jobs across restarts -----

  /** Over any number of restarts, crashes between minting and saving included, broadcast
      ids strictly increase, each was stored first with the nonce that is broadcast, and no
      id goes out with two nonces. */
  lemma RestartSafety(cfg: Config, s: State, i: int, k: int)
    requires Reachable(cfg, s) && 0 <= i < |s.log.broadcasts| && 0 <= k < |s.log.broadcasts|
    ensures i < k ==> s.log.broadcasts[i].id < s.log.broadcasts[k].id
    ensures s.log.broadcasts[i].id == s.log.broadcasts[k].id ==> s.log.broadcasts[i].nonce == s.log.broadcasts[k].nonce
    ensures s.log.broadcasts[i].id in s.store.jobHist
    ensures s.store.jobHist[s.log.broadcasts[i].id].nonce == s.log.broadcasts[i].nonce
  {
    ReachableInv(cfg, s);
  }

  /** A stored job is never lost and its record never changes. */
  lemma {:induction false} StoredJobIsForever(cfg: Config, s: State, acts: seq<Action>, s': State, j: int)
    requires Reachable(cfg, s) && ExecFrom(cfg, s, acts) == Some(s') && j in s.store.jobHist
    ensures j in s'.store.jobHist && s'.store.jobHist[j] == s.store.jobHist[j]
  {
    if acts != [] {
      var front := acts[..|acts| - 1];
      var m := ExecFrom(cfg, s, front).value;
      StoredJobIsForever(cfg, s, front, m, j);
      ReachableFrom(cfg, s, front);
      ReachableInv(cfg, m);
      StoredJobStays(cfg, m, acts[|acts| - 1], j);
    }
  }

  lemma StoredJobStays(cfg: Config, s: State, a: Action, j: int)
    requires JobInv(s) && Enabled(cfg, s, a) && j in s.store.jobHist
    ensures j in Apply(cfg, s, a).store.jobHist && Apply(cfg, s, a).store.jobHist[j] == s.store.jobHist[j]
  {
  }

  /** After a restore, whatever accepts, submissions and clock ticks came between its two loads,
      the current job is the greatest stored one, and the history is that job and every stored
      job inside the window, record for record. */
  lemma RestoreIsExact(cfg: Config, s: State)
    requires Reachable(cfg, s) && s.phase == Restoring
    ensures
      var s' := Apply(cfg, s, RestoreHistory);
      && s'.store == s.store
      && (forall j :: j in s.store.jobHist ==> j <= s'.coord.jobId)
      && (if s'.coord.jobId in s.store.jobHist
          then s'.coord.serverNonce == s.store.jobHist[s'.coord.jobId].nonce
          else s'.coord.jobId == 0 && forall j :: j !in s.store.jobHist)
      && (forall j :: j in s'.coord.history <==>
            && j in s.store.jobHist
            && (|| j == s'.coord.jobId
                || (cfg.historyWindow == 0 && !cfg.latestOnlyAtZero)
                || (cfg.historyWindow != 0 && s.clock - s.store.jobHist[j].createdAt < cfg.historyWindow)))
      && (forall j :: j in s'.coord.history ==> s'.coord.history[j] == s.store.jobHist[j])
  {
    ReachableInv(cfg, s);
  }

  /** With window 0 the code restores every stored job, so what the documentation promises,
      only the latest, holds if and only if no other is stored; the repaired restore always
      keeps the promise. */
  lemma WindowZeroRestoresAll(cfg: Config, s: State)
    requires Reachable(cfg, s) && s.phase == Restoring && cfg.historyWindow == 0
    ensures
      var s' := Apply(cfg, s, RestoreHistory);
      var promised := forall j :: j in s'.coord.history ==> j == s'.coord.jobId;
      if cfg.latestOnlyAtZero then promised
      else
        && s'.coord.history == s.store.jobHist
        && (promised <==> forall j :: j in s.store.jobHist ==> j == s.store.latestJobId)
  {
    RestoreIsExact(cfg, s);
    ReachableInv(cfg, s);
    if !cfg.latestOnlyAtZero {
      var h := Apply(cfg, s, RestoreHistory).coord.history;
      assert forall j :: j in h <==> j in s.store.jobHist;
      assert h.Keys == s.store.jobHist.Keys;
      assert forall j :: j in h ==> h[j] == s.store.jobHist[j];
    }
  }

  /** No record of the job, in memory or in the store, is older than `since`. */
  predicate NoOlder(s: State, j: int, since: Instant) {
    && since <= s.clock
    && (j in s.coord.history ==> since <= s.coord.history[j].createdAt)
    && (j in s.store.jobHist ==> since <= s.store.jobHist[j].createdAt)
  }

  lemma StaysNoOlder(cfg: Config, s: State, a: Action, j: int, since: Instant)
    requires JobInv(s) && Enabled(cfg, s, a) && NoOlder(s, j, since)
    ensures NoOlder(Apply(cfg, s, a), j, since)
  {
    var s' := Apply(cfg, s, a);
    if !a.SaveJob? {
      assert s'.store.jobHist == s.store.jobHist;
    }
    if !a.RestoreLatest? && !a.RestoreHistory? && !a.Rotate? && !a.Restart? {
      assert s'.coord.history == s.coord.history;
    }
  }

  lemma {:induction false} NeverOlder(cfg: Config, s: State, acts: seq<Action>, s': State, j: int, since: Instant)
    requires Reachable(cfg, s) && ExecFrom(cfg, s, acts) == Some(s') && NoOlder(s, j, since)
    ensures NoOlder(s', j, since)
  {
    if acts != [] {
      var front := acts[..|acts| - 1];
      var m := ExecFrom(cfg, s, front).value;
      NeverOlder(cfg, s, front, m, j, since);
      ReachableFrom(cfg, s, front);
      ReachableInv(cfg, m);
      StaysNoOlder(cfg, m, acts[|acts| - 1], j, since);
    }
  }

  /** No restart ever makes a job expire sooner: if a job is in the history now and in the
      history at any later time, with any number of restarts between, it is expired then only
      where its record now is, and once it has been stored it has the same nonce. */
  lemma RestartNeverExpiresSooner(cfg: Config, s: State, acts: seq<Action>, s': State, j: int, now: Instant)
    requires Reachable(cfg, s) && ExecFrom(cfg, s, acts) == Some(s')
    requires j in s.coord.history && j in s'.coord.history
    ensures Expired(cfg.expireAfter, s'.coord.history[j], now) ==> Expired(cfg.expireAfter, s.coord.history[j], now)
    ensures j in s.store.jobHist ==> s'.coord.history[j].nonce == s.coord.history[j].nonce
  {
    ReachableInv(cfg, s);
    NeverOlder(cfg, s, acts, s', j, s.coord.history[j].createdAt);
    if j in s.store.jobHist {
      StoredJobIsForever(cfg, s, acts, s', j);
      ReachableFrom(cfg, s, acts);
      ReachableInv(cfg, s');
    }
  }

  // ----- sessions -----

  /** The pair a session holds is the issued pair of its job exactly when no looked-up
      submission has tainted it since the last broadcast or restore; its nonce is in any
      case empty or some issued job's. */
  lemma CoherentIffUntainted(cfg: Config, s: State, ch: ChannelId)
    requires Reachable(cfg, s) && ch in s.coord.sessions
    ensures
      var sess := s.coord.sessions[ch];
      && (sess.latestJobId == 0 || sess.latestJobId in s.store.jobHist)
      && (NonceOf(s.store, sess.latestJobId) == Some(sess.latestServerNonce) <==> ch !in s.log.tainted)
      && (sess.latestServerNonce == "" || sess.latestServerNonce in s.log.nonces)
      && (cfg.localNonce ==> ch !in s.log.tainted)
  {
    ReachableInv(cfg, s);
    var sess := s.coord.sessions[ch];
    assert PairOk(s.store, sess.latestJobId, sess.latestServerNonce, ch in s.log.tainted);
  }

  /** The session holds a job together with the nonce that job was issued with. */
  predicate HoldsIssued(s: State, ch: ChannelId) {
    && ch in s.coord.sessions
    && NonceOf(s.store, s.coord.sessions[ch].latestJobId) == Some(s.coord.sessions[ch].latestServerNonce)
  }

  /** A broadcast leaves the session with an issued pair; a submission leaves it with one
      exactly if it had one and the submission did not go through the history, whatever the
      verdict.  With the nonce kept local a submission changes nothing. */
  lemma WhatTaintsAndClears(cfg: Config, s: State, ch: ChannelId, pushed: bool, p: SubmitParams, t1: Instant, t2: Instant)
    requires Reachable(cfg, s) && ch in s.coord.sessions
    ensures Enabled(cfg, s, Deliver(ch, pushed)) ==> HoldsIssued(Apply(cfg, s, Deliver(ch, pushed)), ch)
    ensures Enabled(cfg, s, Submit(ch, p, t1, t2)) ==>
      (HoldsIssued(Apply(cfg, s, Submit(ch, p, t1, t2)), ch) <==>
         HoldsIssued(s, ch) && (cfg.localNonce || !ViaHistory(s.coord.history, s.coord.sessions[ch], p)))
  {
    PairsInvariant(cfg, s);
    SubmittedPair(cfg, s, ch, p, t1, t2);
    if Enabled(cfg, s, Deliver(ch, pushed)) {
      DeliveredPair(s, ch, pushed);
    }
  }

  lemma PairsInvariant(cfg: Config, s: State)
    requires Reachable(cfg, s)
    ensures JobInv(s) && SessionPairs(s)
  {
    ReachableInv(cfg, s);
  }

  lemma DeliveredPair(s: State, ch: ChannelId, pushed: bool)
    requires JobInv(s) && s.phase.Broadcasting? && ch in s.coord.sessions
    ensures HoldsIssued(AfterDeliver(s, ch, pushed), ch)
  {
  }

  lemma SubmittedPair(cfg: Config, s: State, ch: ChannelId, p: SubmitParams, t1: Instant, t2: Instant)
    requires JobInv(s) && SessionPairs(s) && ch in s.coord.sessions
    ensures HoldsIssued(AfterSubmit(cfg, s, ch, p, t1, t2), ch) <==>
      HoldsIssued(s, ch) && (cfg.localNonce || !ViaHistory(s.coord.history, s.coord.sessions[ch], p))
  {
    var sess := s.coord.sessions[ch];
    assert PairOk(s.store, sess.latestJobId, sess.latestServerNonce, ch in s.log.tainted);
    SubmittedPairOk(cfg, s, ch, p, VerdictOn(cfg, s, ch, p, t1, t2), t2);
    SubmitSavesPair(cfg, s, ch, p, t1, t2);
  }

  /** A restore taints exactly when the pair that the user's last accepted submission saved was
      not an issued one. */
  lemma RestoreCarriesTaint(cfg: Config, s: State, ch: ChannelId)
    requires Reachable(cfg, s) && At(s, ch, Joining)
    ensures ch in s.coord.sessions
    ensures
      var saved := UserStateOf(s.store, s.coord.sessions[ch].username);
      ch in AfterRestoreUser(s, ch).log.tainted <==> NonceOf(s.store, saved.latestJobId) != Some(saved.latestNonce)
  {
    ReachableInv(cfg, s);
    var user := s.coord.sessions[ch].username;
    if user in s.store.userStates {
      var us := s.store.userStates[user];
      assert PairOk(s.store, us.latestJobId, us.latestNonce, user in s.log.taintedUsers);
    }
  }

  /** A submission accepted for a job that has been broadcast was checked against the nonce
      it was broadcast with, exactly unless the job is the latest of a tainted session; with
      the nonce kept local there is no such exception. */
  lemma AcceptedMeansCorrect(cfg: Config, s: State, ch: ChannelId, p: SubmitParams, t1: Instant, t2: Instant, i: int)
    requires Reachable(cfg, s) && VerdictOn(cfg, s, ch, p, t1, t2) == Accepted
    requires 0 <= i < |s.log.broadcasts| && s.log.broadcasts[i].id == p.jobId
    ensures
      var own := s.log.broadcasts[i].nonce;
      var sess := s.coord.sessions[ch];
      && (NonceFor(s.coord.history, sess, p) == own <==> p.jobId != sess.latestJobId || ch !in s.log.tainted)
      && (cfg.localNonce || p.jobId != sess.latestJobId || ch !in s.log.tainted ==> Matches(cfg, own, p))
  {
    ReachableInv(cfg, s);
    NewAcceptanceOk(cfg, s, ch, p, t1, t2);
  }

  /** The same of every acceptance ever logged, for as long as the store lives.  One that came
      between the minting of its job and the save was checked against the nonce just minted
      for it, which is stored for that job or for none. */
  lemma LoggedAcceptancesAreCorrect(cfg: Config, s: State, i: int)
    requires Reachable(cfg, s) && 0 <= i < |s.log.accepted|
    ensures
      var a := s.log.accepted[i];
      && Matches(cfg, a.nonceUsed, a.params)
      && (a.early ==> !a.tainted && MintedFor(s, a.nonceUsed, a.params.jobId))
      && (!a.early ==>
            && NonceOf(s.store, a.params.jobId).Some?
            && (NonceOf(s.store, a.params.jobId) == Some(a.nonceUsed) <==> !a.tainted)
            && (cfg.localNonce || !a.tainted ==> Matches(cfg, NonceOf(s.store, a.params.jobId).value, a.params)))
  {
    ReachableInv(cfg, s);
    assert AcceptanceOk(cfg, s, s.log.accepted[i]);
  }

  /** The job minted before the run is saved in it before any restart. */
  ghost predicate SavedFirst(acts: seq<Action>) {
    exists i :: 0 <= i < |acts| && acts[i].SaveJob? && Restart !in acts[..i]
  }

  /** An early acceptance was checked against the nonce minted for its job.  That nonce is the
      one stored for the job, at any later time of any run, if and only if the save came before
      the first restart; and if a restart came first, no job is ever stored with it. */
  lemma EarlyAcceptanceNeedsSave(cfg: Config, s: State, ch: ChannelId, p: SubmitParams, t1: Instant, t2: Instant,
                                 acts: seq<Action>, s': State)
    requires Reachable(cfg, s) && Enabled(cfg, s, Submit(ch, p, t1, t2))
    requires VerdictOn(cfg, s, ch, p, t1, t2) == Accepted && AcceptanceOf(s, ch, p, t2).early
    requires ExecFrom(cfg, Apply(cfg, s, Submit(ch, p, t1, t2)), acts) == Some(s')
    ensures
      var nonce := AcceptanceOf(s, ch, p, t2).nonceUsed;
      && (NonceOf(s'.store, p.jobId) == Some(nonce) <==> SavedFirst(acts))
      && (Restart in acts && !SavedFirst(acts) ==>
            forall j :: j in s'.store.jobHist ==> s'.store.jobHist[j].nonce != nonce)
  {
    ReachableInv(cfg, s);
    NewAcceptanceOk(cfg, s, ch, p, t1, t2);
    ReachableStep(cfg, s, Submit(ch, p, t1, t2));
    MintedUntouched(cfg, s, ch, p, t1, t2);
    FateOfNonce(cfg, AfterSubmit(cfg, s, ch, p, t1, t2), acts, s', s.coord.serverNonce, p.jobId);
  }

  lemma MintedUntouched(cfg: Config, s: State, ch: ChannelId, p: SubmitParams, t1: Instant, t2: Instant)
    requires JobInv(s) && s.phase == Minted && p.jobId == s.coord.jobId
    ensures AboutToSave(AfterSubmit(cfg, s, ch, p, t1, t2), s.coord.serverNonce, s.coord.jobId)
  {
  }

  /** The job was just minted with the nonce, and is still to be stored. */
  ghost predicate AboutToSave(s: State, nonce: string, j: int) {
    && s.phase == Minted && s.coord.serverNonce == nonce && s.coord.jobId == j
    && nonce in s.log.nonces && j > 0 && j !in s.store.jobHist
    && (forall k :: k in s.store.jobHist ==> s.store.jobHist[k].nonce != nonce)
  }

  /** What has become of a nonce that was about to be saved, after the actions. */
  ghost predicate Fate(s: State, nonce: string, j: int, acts: seq<Action>) {
    && j > 0
    && if SavedFirst(acts) then NonceOf(s.store, j) == Some(nonce)
       else if Restart in acts then NonceGone(s, nonce)
       else AboutToSave(s, nonce, j)
  }

  lemma SavedFirstSnoc(acts: seq<Action>, a: Action)
    ensures SavedFirst(acts + [a]) <==> SavedFirst(acts) || (a.SaveJob? && Restart !in acts)
  {
    var acts' := acts + [a];
    assert acts'[..|acts|] == acts && acts'[|acts|] == a;
    assert forall i :: 0 <= i < |acts| ==> acts'[i] == acts[i] && acts'[..i] == acts[..i];
    if SavedFirst(acts) {
      var i :| 0 <= i < |acts| && acts[i].SaveJob? && Restart !in acts[..i];
      assert acts'[i].SaveJob? && Restart !in acts'[..i];
    }
    if SavedFirst(acts') {
      var i :| 0 <= i < |acts'| && acts'[i].SaveJob? && Restart !in acts'[..i];
      assert i == |acts| || (acts[i].SaveJob? && Restart !in acts[..i]);
    }
  }

  lemma FateOnce(cfg: Config, s: State, nonce: string, j: int, acts: seq<Action>, a: Action)
    requires JobInv(s) && Fate(s, nonce, j, acts) && Enabled(cfg, s, a)
    ensures Fate(Apply(cfg, s, a), nonce, j, acts + [a])
  {
    SavedFirstSnoc(acts, a);
    if SavedFirst(acts) {
      KnownJobsKeepNonce(cfg, s, a);
    } else if Restart in acts {
      StaysGoneOnce(cfg, s, a, nonce);
    } else {
      FromAboutToSave(cfg, s, a, nonce, j);
    }
  }

  lemma FromAboutToSave(cfg: Config, s: State, a: Action, nonce: string, j: int)
    requires AboutToSave(s, nonce, j) && Enabled(cfg, s, a)
    ensures
      var s' := Apply(cfg, s, a);
      if a.SaveJob? then NonceOf(s'.store, j) == Some(nonce)
      else if a.Restart? then NonceGone(s', nonce)
      else AboutToSave(s', nonce, j)
  {
  }

  lemma {:induction false} FateOfNonce(cfg: Config, s: State, acts: seq<Action>, s': State, nonce: string, j: int)
    requires Reachable(cfg, s) && AboutToSave(s, nonce, j) && ExecFrom(cfg, s, acts) == Some(s')
    ensures Fate(s', nonce, j, acts)
  {
    if acts != [] {
      var front, a := acts[..|acts| - 1], acts[|acts| - 1];
      var m := ExecFrom(cfg, s, front).value;
      FateOfNonce(cfg, s, front, m, nonce, j);
      ReachableFrom(cfg, s, front);
      ReachableInv(cfg, m);
      FateOnce(cfg, m, nonce, j, front, a);
      assert acts == front + [a];
    }
  }

  /** The nonce was drawn and neither is nor is about to be stored. */
  ghost predicate NonceGone(s: State, nonce: string) {
    && nonce in s.log.nonces
    && (s.phase == Minted ==> s.coord.serverNonce != nonce)
    && (forall j :: j in s.store.jobHist ==> s.store.jobHist[j].nonce != nonce)
  }

  lemma StaysGoneOnce(cfg: Config, s: State, a: Action, nonce: string)
    requires Enabled(cfg, s, a) && NonceGone(s, nonce)
    ensures NonceGone(Apply(cfg, s, a), nonce)
  {
  }

  // ----- monotonicity through persistence -----

  /** From the end of its accept on, a session's job number never goes down. */
  lemma {:induction false} SessionNeverGoesBack(cfg: Config, acts: seq<Action>, n: nat, ch: ChannelId)
    requires n <= |acts| && Exec(cfg, acts).Some? && Exec(cfg, acts[..n]).Some?
    requires Settled(Exec(cfg, acts[..n]).value, ch) && ch in Exec(cfg, acts).value.coord.sessions
    ensures ch in Exec(cfg, acts[..n]).value.coord.sessions
    ensures Settled(Exec(cfg, acts).value, ch)
    ensures Exec(cfg, acts[..n]).value.coord.sessions[ch].latestJobId
         <= Exec(cfg, acts).value.coord.sessions[ch].latestJobId
  {
    if n == |acts| {
      assert acts[..n] == acts;
      Always(cfg, acts);
    } else {
      var front := acts[..|acts| - 1];
      assert front[..n] == acts[..n];
      Always(cfg, front);
      SettledStays(cfg, acts, n, ch);
      SettledStays(cfg, front, n, ch);
      var s, a := Exec(cfg, front).value, acts[|acts| - 1];
      StillThere(cfg, s, a, ch);
      SessionNeverGoesBack(cfg, front, n, ch);
    }
  }

  lemma StillThere(cfg: Config, s: State, a: Action, ch: ChannelId)
    requires JobInv(s) && NumberInv(s)
    requires Enabled(cfg, s, a) && ch in s.log.ids && (ch in s.conns ==> s.conns[ch] != Joining)
    requires ch in Apply(cfg, s, a).coord.sessions
    ensures ch in s.coord.sessions
    ensures s.coord.sessions[ch].latestJobId <= Apply(cfg, s, a).coord.sessions[ch].latestJobId
  {
    if Background(a) {
      BackgroundFrame(cfg, s, a);
    } else if a.Submit? {
      SubmitFrame(cfg, s, a.ch, a.params, a.t1, a.t2);
    } else if a.Deliver? {
      assert Frontier(s) == s.coord.jobId;
    }
  }

  lemma {:induction false} SettledStays(cfg: Config, acts: seq<Action>, n: nat, ch: ChannelId)
    requires n <= |acts| && Exec(cfg, acts).Some? && Exec(cfg, acts[..n]).Some?
    requires Settled(Exec(cfg, acts[..n]).value, ch)
    ensures ch in Exec(cfg, acts).value.log.ids
    ensures ch in Exec(cfg, acts).value.conns ==> Exec(cfg, acts).value.conns[ch] != Joining
  {
    if n == |acts| {
      assert acts[..n] == acts;
      Always(cfg, acts);
    } else {
      var front := acts[..|acts| - 1];
      assert front[..n] == acts[..n];
      SettledStays(cfg, front, n, ch);
      NeverJoinsAgain(cfg, Exec(cfg, front).value, acts[|acts| - 1], ch);
    }
  }

  /** An identifier that is not joining never will be: identifiers are fresh. */
  lemma NeverJoinsAgain(cfg: Config, s: State, a: Action, ch: ChannelId)
    requires Enabled(cfg, s, a) && ch in s.log.ids && (ch in s.conns ==> s.conns[ch] != Joining)
    ensures ch in Apply(cfg, s, a).log.ids
    ensures ch in Apply(cfg, s, a).conns ==> Apply(cfg, s, a).conns[ch] != Joining
  {
  }

  /** A broadcast strictly raises every session that was settled when it began. */
  lemma BroadcastStrictlyRaises(cfg: Config, s: State, ch: ChannelId, pushed: bool)
    requires Reachable(cfg, s) && Enabled(cfg, s, Deliver(ch, pushed))
    requires ch in s.coord.sessions && ch in s.phase.settled
    ensures s.coord.sessions[ch].latestJobId < Apply(cfg, s, Deliver(ch, pushed)).coord.sessions[ch].latestJobId
  {
    ReachableInv(cfg, s);
  }

  /** Saved user states are never ahead of the saved jobs. */
  lemma SavedUsersAreBehind(cfg: Config, s: State, user: string)
    requires Reachable(cfg, s) && user in s.store.userStates
    ensures 0 <= s.store.userStates[user].latestJobId <= s.store.latestJobId
  {
    ReachableInv(cfg, s);
  }

  /** The job frames pushed on one connection have strictly increasing ids. */
  lemma JobFramesIncrease(cfg: Config, s: State, ch: ChannelId, i: int, k: int)
    requires Reachable(cfg, s) && 0 <= i < k < |ToldTo(s, ch)|
    ensures ToldTo(s, ch)[i].id < ToldTo(s, ch)[k].id
  {
    ReachableInv(cfg, s);
  }

  // ----- rates -----

  lemma SessionRateLimit(cfg: Config, s: State, i: int, k: int)
    requires Reachable(cfg, s) && 0 <= i < k < |s.log.accepted| && s.log.accepted[i].ch == s.log.accepted[k].ch
    ensures s.log.accepted[k].event.time - s.log.accepted[i].event.time >= 1_000_000_000
  {
    ReachableInv(cfg, s);
    assert TimeOf(s, k) - TimeOf(s, i) >= SECOND;
  }

  /** Along the run the user never has two sessions at once. */
  ghost predicate SoloRun(cfg: Config, acts: seq<Action>, user: string) {
    forall n :: 0 <= n <= |acts| ==> SoloAt(Exec(cfg, acts[..n]), user)
  }

  ghost predicate SoloAt(s: Option<State>, user: string) {
    s.Some? ==> Solo(s.value, user)
  }

  lemma {:induction false} SoloAlways(cfg: Config, acts: seq<Action>, user: string)
    requires Exec(cfg, acts).Some? && SoloRun(cfg, acts, user)
    ensures SoloInv(Exec(cfg, acts).value, user)
  {
    if acts != [] {
      var front := acts[..|acts| - 1];
      assert forall n :: 0 <= n <= |front| ==> front[..n] == acts[..n];
      assert SoloAt(Exec(cfg, acts[..|front|]), user);
      SoloAlways(cfg, front, user);
      Always(cfg, front);
      SoloInvStep(cfg, Exec(cfg, front).value, acts[|acts| - 1], user);
    }
  }

  /** The action accepts no submission of the user within a second of the time saved for that
      user, which is what `LoadUserState` returns. */
  predicate KeepsGap(cfg: Config, s: State, a: Action, user: string) {
    a.Submit? && VerdictOn(cfg, s, a.ch, a.params, a.t1, a.t2) == Accepted && s.coord.sessions[a.ch].username == user ==>
      SavedGap(s, user, a.t2)
  }

  ghost predicate KeptGapAt(cfg: Config, acts: seq<Action>, n: nat, user: string)
    requires n < |acts|
  {
    Exec(cfg, acts[..n]).Some? ==> KeepsGap(cfg, Exec(cfg, acts[..n]).value, acts[n], user)
  }

  /** In every state, all of a user's acceptances are a second past if and only if the saved time
      is; the check that the listener makes looks at the session's own time instead. */
  lemma SavedTimeIsExact(cfg: Config, s: State, user: string, now: Instant)
    requires Reachable(cfg, s)
    ensures AllPast(s.log.accepted, user, now) <==> SavedGap(s, user, now)
  {
    ReachableInv(cfg, s);
    SavedGapIsExact(s, user, now);
  }

  ghost predicate KeptGap(cfg: Config, acts: seq<Action>, user: string) {
    forall n :: 0 <= n < |acts| ==> KeptGapAt(cfg, acts, n, user)
  }

  lemma KeptGapSnoc(cfg: Config, acts: seq<Action>, user: string)
    requires acts != [] && Exec(cfg, acts[..|acts| - 1]).Some?
    ensures
      var front := acts[..|acts| - 1];
      KeptGap(cfg, acts, user) <==>
        KeptGap(cfg, front, user) && KeepsGap(cfg, Exec(cfg, front).value, acts[|acts| - 1], user)
  {
    var front := acts[..|acts| - 1];
    assert KeptGapAt(cfg, acts, |front|, user) <==> KeepsGap(cfg, Exec(cfg, front).value, acts[|acts| - 1], user);
    forall n | 0 <= n < |front|
      ensures KeptGapAt(cfg, acts, n, user) <==> KeptGapAt(cfg, front, n, user)
    {
      assert front[..n] == acts[..n] && front[n] == acts[n];
    }
  }

  /** A user's acceptances are a second apart, over any sessions, reconnects and restarts, if
      and only if each came a second after the time saved for the user when it came. */
  lemma {:induction false} UserRateLimitIff(cfg: Config, acts: seq<Action>, user: string)
    requires Exec(cfg, acts).Some?
    ensures Spaced(Exec(cfg, acts).value.log.accepted, user) <==> KeptGap(cfg, acts, user)
  {
    if acts != [] {
      var front := acts[..|acts| - 1];
      UserRateLimitIff(cfg, front, user);
      Always(cfg, front);
      GapOnce(cfg, Exec(cfg, front).value, acts[|acts| - 1], user);
      KeptGapSnoc(cfg, acts, user);
    }
  }

  lemma GapOnce(cfg: Config, s: State, a: Action, user: string)
    requires RateInv(s) && SavedInv(s) && Enabled(cfg, s, a)
    ensures Spaced(Apply(cfg, s, a).log.accepted, user) <==> Spaced(s.log.accepted, user) && KeepsGap(cfg, s, a, user)
  {
    if a.Submit? && VerdictOn(cfg, s, a.ch, a.params, a.t1, a.t2) == Accepted {
      AcceptedFacts(cfg, s, a.ch, a.params, a.t1, a.t2);
      SpacedSnoc(s.log.accepted, AcceptanceOf(s, a.ch, a.params, a.t2), user);
      SavedGapIsExact(s, user, a.t2);
    } else {
      AcceptsNothing(cfg, s, a);
    }
  }

  lemma AcceptsNothing(cfg: Config, s: State, a: Action)
    requires Enabled(cfg, s, a) && (a.Submit? ==> VerdictOn(cfg, s, a.ch, a.params, a.t1, a.t2) != Accepted)
    ensures Apply(cfg, s, a).log.accepted == s.log.accepted
  {
  }

  /** For a user with one session at a time the limit survives reconnects and restarts. */
  lemma UserRateLimit(cfg: Config, acts: seq<Action>, user: string, i: int, k: int)
    requires Exec(cfg, acts).Some? && SoloRun(cfg, acts, user)
    requires
      var acc := Exec(cfg, acts).value.log.accepted;
      0 <= i < k < |acc| && acc[i].event.username == user == acc[k].event.username
    ensures
      var acc := Exec(cfg, acts).value.log.accepted;
      acc[k].event.time - acc[i].event.time >= SECOND
  {
    SoloAlways(cfg, acts, user);
  }

  /** Hence no minute ever counts more than sixty submissions of such a user, and no more are
      accepted in any minute of the clock. */
  lemma AtMostSixtyCounted(cfg: Config, acts: seq<Action>, user: string, minute: Instant)
    requires Exec(cfg, acts).Some? && SoloRun(cfg, acts, user)
    ensures CountAt(Exec(cfg, acts).value.store, user, minute) <= 60
    ensures InMinuteOf(EventsOf(Exec(cfg, acts).value.log.accepted), user, minute) <= 60
  {
    SoloAlways(cfg, acts, user);
    Always(cfg, acts);
    var s := Exec(cfg, acts).value;
    assert Balanced(s, user, minute);
    SixtyPerMinute(s.log.accepted, user, minute);
    SixtyPerMinute(s.log.accepted, user, Truncate(minute));
    TallyIsInMinuteOf(EventsOf(s.log.accepted), user, minute);
  }

  // ----- duplicates -----

  lemma DuplicatesAreExact(cfg: Config, s: State, ch: ChannelId, user: string, jobId: int, nonce: string)
    requires Reachable(cfg, s)
    ensures ch in s.coord.sessions ==>
      (Recorded(s.coord.sessions[ch].usedNonces, jobId, nonce) <==> AcceptedOn(s.log.accepted, ch, jobId, nonce))
    ensures HasUsed(s.store, user, jobId, nonce) <==> AcceptedFor(s.log.accepted, user, jobId, nonce)
  {
    ReachableInv(cfg, s);
  }

  /** A pair is never accepted twice on one session; with the repaired check, never twice
      for one user. */
  lemma NothingAcceptedTwice(cfg: Config, s: State, i: int, k: int)
    requires Reachable(cfg, s) && 0 <= i < k < |s.log.accepted|
    requires SameUse(s.log.accepted[i], s.log.accepted[k])
    ensures s.log.accepted[i].ch != s.log.accepted[k].ch
    ensures cfg.perUserNonces ==> s.log.accepted[i].event.username != s.log.accepted[k].event.username
  {
    ReachableInv(cfg, s);
  }

  /** The verdict, check by check, in terms of what has been accepted: a submission for a known
      job that comes neither too late nor too soon is, as written, a duplicate exactly if its
      pair was accepted on this very session; what another session of the user had accepted
      counts only with the repaired check. */
  lemma DuplicateIffSameSession(cfg: Config, s: State, ch: ChannelId, p: SubmitParams, t1: Instant, t2: Instant)
    requires Reachable(cfg, s) && ch in s.coord.sessions
    ensures
      var sess := s.coord.sessions[ch];
      var accepted := s.log.accepted;
      VerdictOn(cfg, s, ch, p, t1, t2) ==
        if p.jobId == 0 && cfg.refuseJobZero then NoSuchTask
        else if p.jobId != sess.latestJobId && p.jobId !in s.coord.history then NoSuchTask
        else if p.jobId != sess.latestJobId && Expired(cfg.expireAfter, s.coord.history[p.jobId], t1) then TaskExpired
        else if Hasty(sess, t2) then TooFrequent
        else if AcceptedOn(accepted, ch, p.jobId, p.clientNonce) then DuplicateNonce
        else if cfg.perUserNonces && AcceptedFor(accepted, sess.username, p.jobId, p.clientNonce) then DuplicateNonce
        else if Matches(cfg, NonceFor(s.coord.history, sess, p), p) then Accepted
        else InvalidResult
  {
    DuplicatesAreExact(cfg, s, ch, s.coord.sessions[ch].username, p.jobId, p.clientNonce);
  }

  // ----- lifecycle -----

  /** The lookup after registration finds its session, an identifier is never met twice in
      the channel map, every channel has its session, and when the last connection has ended
      both maps are empty. */
  lemma Lifecycle(cfg: Config, s: State, ch: ChannelId)
    requires Reachable(cfg, s)
    ensures At(s, ch, Joining) ==> ch in s.coord.sessions
    ensures At(s, ch, Joined) ==> ch !in s.channels
    ensures ch in s.channels ==> ch in s.coord.sessions
    ensures (forall c :: c in s.conns ==> s.conns[c] == Gone) ==> s.coord.sessions == map[] && s.channels == {}
  {
    ReachableInv(cfg, s);
    if forall c :: c in s.conns ==> s.conns[c] == Gone {
      assert forall c :: c !in s.coord.sessions && c !in s.channels;
    }
  }

  /** The submission comes less than a second after one accepted for the user. */
  ghost predicate WithinASecond(acc: seq<Acceptance>, user: string, now: Instant) {
    exists i :: 0 <= i < |acc| && acc[i].event.username == user && now - acc[i].event.time < 1_000_000_000
  }

  /** A submission is told "too frequent" only within a second of an acceptance of the same user:
      a second later it never is. */
  lemma NeverTooFrequentASecondLater(cfg: Config, s: State, ch: ChannelId, p: SubmitParams, t1: Instant, t2: Instant)
    requires Reachable(cfg, s) && ch in s.coord.sessions
    requires !WithinASecond(s.log.accepted, s.coord.sessions[ch].username, t2)
    ensures VerdictOn(cfg, s, ch, p, t1, t2) != TooFrequent
  {
    ReachableInv(cfg, s);
    if Hasty(s.coord.sessions[ch], t2) {
      RemembersRecent(s, ch, t2);
    }
  }

  lemma RemembersRecent(s: State, ch: ChannelId, now: Instant)
    requires SavedInv(s) && ch in s.coord.sessions && Hasty(s.coord.sessions[ch], now)
    ensures WithinASecond(s.log.accepted, s.coord.sessions[ch].username, now)
  {
    var sess := s.coord.sessions[ch];
    assert Remembers(s, sess);
    var i :| 0 <= i < |s.log.accepted| && s.log.accepted[i].event == SubmitEvent(sess.username, sess.lastSubmitAt);
  }

  /** Within a second of an acceptance on the same session it is, unless it is refused for its job. */
  lemma TooFrequentWithinASecond(cfg: Config, s: State, ch: ChannelId, p: SubmitParams, t1: Instant, t2: Instant, i: int)
    requires Reachable(cfg, s) && ch in s.coord.sessions
    requires 0 <= i < |s.log.accepted| && s.log.accepted[i].ch == ch && t2 - s.log.accepted[i].event.time < 1_000_000_000
    ensures VerdictOn(cfg, s, ch, p, t1, t2) in {NoSuchTask, TaskExpired, TooFrequent}
  {
    ReachableInv(cfg, s);
    assert 0 < TimeOf(s, i) <= s.coord.sessions[ch].lastSubmitAt;
  }

  // ----- expiry -----

  /** The job has been minted in this process at the instant `since`. */
  predicate MintedAt(s: State, j: int, since: Instant) {
    && s.phase != Booting && s.phase != Restoring
    && j <= s.coord.jobId && j in s.coord.history && s.coord.history[j].createdAt == since
  }

  lemma StaysMintedAt(cfg: Config, s: State, a: Action, j: int, since: Instant)
    requires Enabled(cfg, s, a) && a != Restart && MintedAt(s, j, since)
    ensures MintedAt(Apply(cfg, s, a), j, since)
  {
    if a.Submit? {
      SubmitFrame(cfg, s, a.ch, a.params, a.t1, a.t2);
    }
  }

  lemma {:induction false} MintedAtForever(cfg: Config, s: State, acts: seq<Action>, s': State, j: int, since: Instant)
    requires ExecFrom(cfg, s, acts) == Some(s') && Restart !in acts && MintedAt(s, j, since)
    ensures MintedAt(s', j, since)
  {
    if acts != [] {
      var front := acts[..|acts| - 1];
      MintedAtForever(cfg, s, front, ExecFrom(cfg, s, front).value, j, since);
      StaysMintedAt(cfg, ExecFrom(cfg, s, front).value, acts[|acts| - 1], j, since);
    }
  }

  /** From the rotation that mints a job, as long as the process runs: a submission for it, on a
      session with another latest job, is told "expired" if and only if expiry is on and more than
      `expireAfter` has passed since the rotation. */
  lemma ExpiredExactlyWhenOlder(cfg: Config, s: State, nonce: string, acts: seq<Action>, s': State,
                                ch: ChannelId, p: SubmitParams, t1: Instant, t2: Instant)
    requires Reachable(cfg, s) && Enabled(cfg, s, Rotate(nonce))
    requires ExecFrom(cfg, Apply(cfg, s, Rotate(nonce)), acts) == Some(s') && Restart !in acts
    requires p.jobId == s.coord.jobId + 1
    requires ch in s'.coord.sessions && s'.coord.sessions[ch].latestJobId != p.jobId
    ensures VerdictOn(cfg, s', ch, p, t1, t2) == TaskExpired <==> cfg.expireAfter > 0 && t1 - s.clock > cfg.expireAfter
  {
    ReachableInv(cfg, s);
    MintedAtForever(cfg, AfterRotate(s, nonce), acts, s', p.jobId, s.clock);
  }

  /** After a restart a job that comes back counts from the instant of its save: the same holds with
      the time of the stored record, on any run from the save. */
  lemma SavedAgeIsForever(cfg: Config, s: State, acts: seq<Action>, s': State)
    requires Reachable(cfg, s) && s.phase == Minted
    requires ExecFrom(cfg, Apply(cfg, s, Action.SaveJob), acts) == Some(s')
    ensures s.coord.jobId in s'.store.jobHist && s'.store.jobHist[s.coord.jobId] == JobRecord(s.coord.serverNonce, s.clock)
  {
    ReachableStep(cfg, s, Action.SaveJob);
    StoredJobIsForever(cfg, AfterSaveJob(s), acts, s', s.coord.jobId);
  }

  /** Once a session is told that a job is expired, the job's broadcast being over, no later
      submission for that job is accepted on that session. */
  lemma ExpiryIsPermanent(cfg: Config, s: State, ch: ChannelId, p: SubmitParams, t1: Instant, t2: Instant)
    requires Reachable(cfg, s) && (ch, p.jobId) in s.log.expired && s.clock <= t1
    ensures VerdictOn(cfg, s, ch, p, t1, t2) in {NoSuchTask, TaskExpired}
  {
    ReachableInv(cfg, s);
  }

  /** The same along every run from the verdict on. */
  lemma ExpiredStaysExpired(cfg: Config, s: State, told: Action, acts: seq<Action>, s': State,
                            p: SubmitParams, t1: Instant, t2: Instant)
    requires Reachable(cfg, s) && told.Submit? && Enabled(cfg, s, told)
    requires VerdictOn(cfg, s, told.ch, told.params, told.t1, told.t2) == TaskExpired
    requires BroadcastOver(s, told.ch, told.params.jobId)
    requires ExecFrom(cfg, Apply(cfg, s, told), acts) == Some(s') && p.jobId == told.params.jobId && s'.clock <= t1
    ensures VerdictOn(cfg, s', told.ch, p, t1, t2) in {NoSuchTask, TaskExpired}
  {
    SubmitTellsExpired(cfg, s, told.ch, told.params, told.t1, told.t2);
    ReachableStep(cfg, s, told);
    ExpiredGrows(cfg, Apply(cfg, s, told), acts, s');
    ReachableFrom(cfg, Apply(cfg, s, told), acts);
    ExpiryIsPermanent(cfg, s', told.ch, p, t1, t2);
  }

  lemma ReachableStep(cfg: Config, s: State, a: Action)
    requires Reachable(cfg, s) && Enabled(cfg, s, a)
    ensures Reachable(cfg, Apply(cfg, s, a))
  {
    var acts :| Exec(cfg, acts) == Some(s);
    ExecSnoc(cfg, acts, s, a);
  }

  lemma ExpiredGrowsOnce(cfg: Config, s: State, a: Action)
    requires Enabled(cfg, s, a)
    ensures s.log.expired <= Apply(cfg, s, a).log.expired
  {
  }

  lemma {:induction false} ExpiredGrows(cfg: Config, s: State, acts: seq<Action>, s': State)
    requires ExecFrom(cfg, s, acts) == Some(s')
    ensures s.log.expired <= s'.log.expired
  {
    if acts != [] {
      var front := acts[..|acts| - 1];
      ExpiredGrows(cfg, s, front, ExecFrom(cfg, s, front).value);
      ExpiredGrowsOnce(cfg, ExecFrom(cfg, s, front).value, acts[|acts| - 1]);
    }
  }

  /** What is left of the current broadcast up to the turn of one session. */
  function UntilReached(s: State, ch: ChannelId): seq<Action> {
    match s.phase
    case Minted => [Action.SaveJob, Snapshot, Deliver(ch, true)]
    case Saved => [Snapshot, Deliver(ch, true)]
    case _ => [Deliver(ch, true)]
  }

  /** The state in which the rest of the current broadcast reaches the session. */
  function Reached(s: State, ch: ChannelId): State
    requires s.phase.Minted? || s.phase.Saved? || s.phase.Broadcasting?
  {
    var saved := if s.phase.Minted? then AfterSaveJob(s) else s;
    AfterDeliver(if saved.phase.Saved? then AfterSnapshot(saved) else saved, ch, true)
  }

  lemma BroadcastReaches(cfg: Config, s: State, ch: ChannelId, j: int)
    requires ch in s.coord.sessions && !BroadcastOver(s, ch, j)
    ensures ExecFrom(cfg, s, UntilReached(s, ch)) == Some(Reached(s, ch))
  {
    if s.phase.Minted? {
      ExecFromSnoc(cfg, s, [], s, Action.SaveJob);
      SnapshotReaches(cfg, s, [] + [Action.SaveJob], AfterSaveJob(s), ch);
      assert [] + [Action.SaveJob] + [Snapshot, Deliver(ch, true)] == UntilReached(s, ch);
    } else if s.phase.Saved? {
      SnapshotReaches(cfg, s, [], s, ch);
      assert [] + [Snapshot, Deliver(ch, true)] == UntilReached(s, ch);
    } else {
      ExecFromSnoc(cfg, s, [], s, Deliver(ch, true));
      assert [] + [Deliver(ch, true)] == UntilReached(s, ch);
    }
  }

  lemma SnapshotReaches(cfg: Config, s: State, acts: seq<Action>, m: State, ch: ChannelId)
    requires ExecFrom(cfg, s, acts) == Some(m) && m.phase == Saved && ch in m.coord.sessions
    ensures ExecFrom(cfg, s, acts + [Snapshot, Deliver(ch, true)]) == Some(AfterDeliver(AfterSnapshot(m), ch, true))
  {
    ExecFromSnoc(cfg, s, acts, m, Snapshot);
    ExecFromSnoc(cfg, s, acts + [Snapshot], AfterSnapshot(m), Deliver(ch, true));
    assert acts + [Snapshot] + [Deliver(ch, true)] == acts + [Snapshot, Deliver(ch, true)];
  }

  lemma ReachedHolds(s: State, ch: ChannelId, j: int)
    requires ch in s.coord.sessions && !BroadcastOver(s, ch, j)
    ensures
      var s' := Reached(s, ch);
      && s'.clock == s.clock && s'.store.used == s.store.used
      && s'.coord.sessions.Keys == s.coord.sessions.Keys
      && s'.coord.sessions[ch] == s.coord.sessions[ch].(latestJobId := j, latestServerNonce := s.coord.serverNonce)
  {
  }

  /** Where the broadcast of the job is not over, being told that the job is expired does not
      last: when the session's turn comes the job becomes its latest, and the latest job is
      accepted however old it is. */
  lemma BroadcastRevivesJob(cfg: Config, s: State, told: Action, p: SubmitParams, t1: Instant, t2: Instant)
    requires Reachable(cfg, s) && told.Submit? && Enabled(cfg, s, told)
    requires VerdictOn(cfg, s, told.ch, told.params, told.t1, told.t2) == TaskExpired
    requires !BroadcastOver(s, told.ch, told.params.jobId) && p.jobId == told.params.jobId
    requires !Hasty(s.coord.sessions[told.ch], t2) && !Repeated(cfg, s.store, s.coord.sessions[told.ch], p)
    requires Matches(cfg, s.coord.serverNonce, p)
    ensures
      var s' := Apply(cfg, s, told);
      && ExecFrom(cfg, s', UntilReached(s', told.ch)) == Some(Reached(s', told.ch))
      && VerdictOn(cfg, Reached(s', told.ch), told.ch, p, t1, t2) == Accepted
  {
    ReachableInv(cfg, s);
    ToldExpiredChangesLittle(cfg, s, told);
    var s' := Apply(cfg, s, told);
    BroadcastReaches(cfg, s', told.ch, p.jobId);
    ReachedHolds(s', told.ch, p.jobId);
    LatestIsAccepted(cfg, Reached(s', told.ch), told.ch, p, t1, t2);
  }

  lemma ToldExpiredChangesLittle(cfg: Config, s: State, told: Action)
    requires told.Submit? && Enabled(cfg, s, told)
    requires VerdictOn(cfg, s, told.ch, told.params, told.t1, told.t2) == TaskExpired
    ensures
      var s' := Apply(cfg, s, told);
      && s'.phase == s.phase && s'.store == s.store && s'.coord.jobId == s.coord.jobId
      && s'.coord.serverNonce == s.coord.serverNonce && told.ch in s'.coord.sessions
      && s'.coord.sessions[told.ch].usedNonces == s.coord.sessions[told.ch].usedNonces
      && s'.coord.sessions[told.ch].lastSubmitAt == s.coord.sessions[told.ch].lastSubmitAt
      && s'.coord.sessions[told.ch].username == s.coord.sessions[told.ch].username
  {
  }

  lemma LatestIsAccepted(cfg: Config, s: State, ch: ChannelId, p: SubmitParams, t1: Instant, t2: Instant)
    requires ch in s.coord.sessions && s.coord.sessions[ch].latestJobId == p.jobId != 0
    requires !Hasty(s.coord.sessions[ch], t2) && !Repeated(cfg, s.store, s.coord.sessions[ch], p)
    requires Matches(cfg, s.coord.sessions[ch].latestServerNonce, p)
    ensures VerdictOn(cfg, s, ch, p, t1, t2) == Accepted
  {
  }

  /** After `acts` the job is accepted on the session. */
  ghost predicate AcceptedAfter(cfg: Config, s: State, ch: ChannelId, acts: seq<Action>, p: SubmitParams, t1: Instant, t2: Instant) {
    var end := ExecFrom(cfg, s, acts);
    end.Some? && Enabled(cfg, end.value, Submit(ch, p, t1, t2)) && VerdictOn(cfg, end.value, ch, p, t1, t2) == Accepted
  }

  ghost predicate CanBeAccepted(cfg: Config, s: State, ch: ChannelId, j: int) {
    exists acts, p: SubmitParams, t1, t2 :: p.jobId == j && AcceptedAfter(cfg, s, ch, acts, p, t1, t2)
  }

  /** A verdict "expired" is for good if and only if the broadcast of the job to this session is
      over when it is given. */
  lemma ExpiredForGoodIffBroadcastOver(cfg: Config, s: State, told: Action)
    requires Reachable(cfg, s) && told.Submit? && Enabled(cfg, s, told)
    requires VerdictOn(cfg, s, told.ch, told.params, told.t1, told.t2) == TaskExpired
    ensures BroadcastOver(s, told.ch, told.params.jobId)
      <==> !CanBeAccepted(cfg, Apply(cfg, s, told), told.ch, told.params.jobId)
  {
    var s', ch, j := Apply(cfg, s, told), told.ch, told.params.jobId;
    if BroadcastOver(s, ch, j) {
      forall acts, p: SubmitParams, t1, t2 | p.jobId == j
        ensures !AcceptedAfter(cfg, s', ch, acts, p, t1, t2)
      {
        if AcceptedAfter(cfg, s', ch, acts, p, t1, t2) {
          ExpiredStaysExpired(cfg, s, told, acts, ExecFrom(cfg, s', acts).value, p, t1, t2);
        }
      }
    } else {
      Revived(cfg, s, told);
    }
  }

  lemma Revived(cfg: Config, s: State, told: Action)
    requires Reachable(cfg, s) && told.Submit? && Enabled(cfg, s, told)
    requires VerdictOn(cfg, s, told.ch, told.params, told.t1, told.t2) == TaskExpired
    requires !BroadcastOver(s, told.ch, told.params.jobId)
    ensures CanBeAccepted(cfg, Apply(cfg, s, told), told.ch, told.params.jobId)
  {
    var s', ch, j := Apply(cfg, s, told), told.ch, told.params.jobId;
    var sess := s.coord.sessions[ch];
    var nonce := UnusedNonce(cfg, s.store, sess, j);
    var p := SubmitParams(j, nonce, cfg.digest(s.coord.serverNonce + nonce));
    var t := told.t2 + if sess.lastSubmitAt > told.t2 then sess.lastSubmitAt - told.t2 + SECOND else SECOND;
    BroadcastRevivesJob(cfg, s, told, p, t, t);
    ToldExpiredChangesLittle(cfg, s, told);
    ReachedHolds(s', ch, j);
    assert AcceptedAfter(cfg, s', ch, UntilReached(s', ch), p, t, t);
  }

  /** There is always a nonce that nobody has used yet. */
  lemma UnusedNonce(cfg: Config, store: StoreState, sess: Session, j: int) returns (nonce: string)
    ensures forall result :: !Repeated(cfg, store, sess, SubmitParams(j, nonce, result))
  {
    var mine := if j in sess.usedNonces then sess.usedNonces[j] else {};
    var user := if sess.username in store.used && j in store.used[sess.username] then store.used[sess.username][j] else {};
    nonce := LongerThanAll(mine + user);
  }

  lemma LongerThanAll(xs: set<string>) returns (y: string)
    ensures forall x :: x in xs ==> |x| < |y|
    ensures y !in xs
    decreases |xs|
  {
    if x :| x in xs {
      var z := LongerThanAll(xs - {x});
      y := z + x + "x";
    } else {
      y := "";
    }
  }

  // ----- job zero -----

  /** The job has been minted: it is stored, or is the one about to be. */
  predicate IssuedJob(s: State, j: int) {
    j in s.store.jobHist || (s.phase == Minted && j == s.coord.jobId)
  }

  /** An accepted job has been issued exactly unless it is job 0; the repaired listener
      accepts issued jobs only. */
  lemma AcceptedJobIsKnown(cfg: Config, s: State, ch: ChannelId, p: SubmitParams, t1: Instant, t2: Instant)
    requires Reachable(cfg, s) && VerdictOn(cfg, s, ch, p, t1, t2) == Accepted
    ensures IssuedJob(s, p.jobId) <==> p.jobId != 0
    ensures cfg.refuseJobZero ==> IssuedJob(s, p.jobId)
  {
    ReachableInv(cfg, s);
    var sess := s.coord.sessions[ch];
    assert PairOk(s.store, sess.latestJobId, sess.latestServerNonce, ch in s.log.tainted);
  }

  /** Job 0 is accepted, as written, if and only if the session has heard of no job and the
      other checks pass against the nonce it holds: the empty one, exactly unless a lookup has
      left another job's there. */
  lemma JobZeroAcceptedIff(cfg: Config, s: State, ch: ChannelId, p: SubmitParams, t1: Instant, t2: Instant)
    requires Reachable(cfg, s) && ch in s.coord.sessions && p.jobId == 0
    ensures
      var sess := s.coord.sessions[ch];
      && (VerdictOn(cfg, s, ch, p, t1, t2) == Accepted <==>
            && !cfg.refuseJobZero && sess.latestJobId == 0 && !Hasty(sess, t2)
            && !Repeated(cfg, s.store, sess, p) && Matches(cfg, sess.latestServerNonce, p))
      && (sess.latestJobId == 0 ==> (sess.latestServerNonce == "" <==> ch !in s.log.tainted))
  {
    ReachableInv(cfg, s);
    var sess := s.coord.sessions[ch];
    assert PairOk(s.store, sess.latestJobId, sess.latestServerNonce, ch in s.log.tainted);
    assert 0 !in s.coord.history;
  }

  /** With the repair, every acceptance ever made is of a job that was issued. */
  lemma EveryAcceptedJobWasIssued(cfg: Config, s: State, i: int)
    requires Reachable(cfg, s) && cfg.refuseJobZero && 0 <= i < |s.log.accepted|
    ensures
      var a := s.log.accepted[i];
      a.params.jobId in s.store.jobHist || (a.early && MintedFor(s, a.nonceUsed, a.params.jobId))
  {
    ReachableInv(cfg, s);
    assert AcceptanceOk(cfg, s, s.log.accepted[i]);
  }
}
