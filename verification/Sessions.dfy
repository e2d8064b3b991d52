/** Connections and sessions: the lifecycle of app/server/acceptor.go and tcp/server.go,
    and the job numbers that sessions, saved user states and clients hold. */
module Sessions {
  import opened Types
  import opened Listener
  import opened Protocol
  import opened Jobs

  // ----- lifecycle -----

  /** A session is registered exactly from the start of the accept to the disconnect, and
      a channel is in the map exactly while its read loop runs. */
  ghost predicate LifeInv(s: State) {
    && (forall ch :: ch in s.coord.sessions <==> ch in s.conns && s.conns[ch] != Gone)
    && (forall ch :: ch in s.channels <==> At(s, ch, Open))
    && (forall ch :: ch in s.conns ==> ch in s.log.ids)
    && (forall ch :: ch in s.log.told ==> ch in s.log.ids)
    && (forall ch :: ch in s.coord.sessions ==> s.coord.sessions[ch].channelId == ch)
  }

  lemma DepartingKeepsLife(cfg: Config, s: State, a: Action)
    requires LifeInv(s) && Enabled(cfg, s, a) && Departing(a)
    ensures LifeInv(Apply(cfg, s, a))
  {
  }

  lemma ArrivingKeepsLife(cfg: Config, s: State, a: Action)
    requires LifeInv(s) && Enabled(cfg, s, a) && Arriving(a)
    ensures LifeInv(Apply(cfg, s, a))
  {
  }

  lemma SubmitKeepsLife(cfg: Config, s: State, ch: ChannelId, p: SubmitParams, t1: Instant, t2: Instant)
    requires LifeInv(s) && Enabled(cfg, s, Submit(ch, p, t1, t2))
    ensures LifeInv(AfterSubmit(cfg, s, ch, p, t1, t2))
  {
  }

  lemma LifeInvStep(cfg: Config, s: State, a: Action)
    requires LifeInv(s) && Enabled(cfg, s, a)
    ensures LifeInv(Apply(cfg, s, a))
  {
    if Background(a) {
      BackgroundFrame(cfg, s, a);
    } else if Departing(a) {
      DepartingKeepsLife(cfg, s, a);
    } else if Arriving(a) {
      ArrivingKeepsLife(cfg, s, a);
    } else {
      SubmitKeepsLife(cfg, s, a.ch, a.params, a.t1, a.t2);
    }
  }

  // ----- job numbers -----

  ghost predicate AllBelow(jobs: seq<Job>, bound: int) {
    forall i :: 0 <= i < |jobs| ==> jobs[i].id <= bound
  }

  /** No session and no saved user state is ahead of the broadcasts; a session that was
      settled when the current broadcast began and has not been reached is behind it. */
  ghost predicate NumberInv(s: State) {
    && (forall ch :: ch in s.coord.sessions ==> 0 <= s.coord.sessions[ch].latestJobId <= Frontier(s))
    && (forall u :: u in s.store.userStates ==> 0 <= s.store.userStates[u].latestJobId <= Frontier(s))
    && (s.phase.Broadcasting? ==>
          && (forall ch :: ch in s.phase.settled && ch in s.conns ==> s.conns[ch] != Joining)
          && (forall ch :: ch in s.phase.settled ==> ch in s.log.ids)
          && (forall ch :: ch in s.phase.pending && ch in s.phase.settled && ch in s.coord.sessions ==>
                s.coord.sessions[ch].latestJobId < s.coord.jobId))
  }

  /** A submission saves at most the submitting user's state, with that session's job. */
  lemma SavedJobIsSessions(cfg: Config, s: State, ch: ChannelId, p: SubmitParams, t1: Instant, t2: Instant)
    ensures
      var s' := AfterSubmit(cfg, s, ch, p, t1, t2);
      forall u :: u in s'.store.userStates ==>
        || (u in s.store.userStates && s'.store.userStates[u] == s.store.userStates[u])
        || (ch in s.coord.sessions && s'.store.userStates[u].latestJobId == s.coord.sessions[ch].latestJobId)
  {
  }

  lemma NumberInvSubmit(cfg: Config, s: State, ch: ChannelId, p: SubmitParams, t1: Instant, t2: Instant)
    requires JobInv(s) && LifeInv(s) && NumberInv(s) && Enabled(cfg, s, Submit(ch, p, t1, t2))
    ensures NumberInv(AfterSubmit(cfg, s, ch, p, t1, t2))
  {
    SubmitFrame(cfg, s, ch, p, t1, t2);
    SavedJobIsSessions(cfg, s, ch, p, t1, t2);
  }

  /** Background actions never lower the frontier, except that saving a job and starting
      its broadcast hold it back until the broadcast begins. */
  lemma NumberInvBackground(cfg: Config, s: State, a: Action)
    requires JobInv(s) && LifeInv(s) && NumberInv(s) && Enabled(cfg, s, a) && Background(a)
    ensures NumberInv(Apply(cfg, s, a))
  {
    BackgroundFrame(cfg, s, a);
    var s' := Apply(cfg, s, a);
    assert Frontier(s) <= Frontier(s');
    assert a.Snapshot? ==> Frontier(s) == s.coord.jobId - 1;
  }

  lemma NumberInvDeparting(cfg: Config, s: State, a: Action)
    requires LifeInv(s) && NumberInv(s) && Enabled(cfg, s, a) && Departing(a)
    ensures NumberInv(Apply(cfg, s, a))
  {
  }

  lemma NumberInvDeliver(s: State, ch: ChannelId, pushed: bool)
    requires JobInv(s) && NumberInv(s) && s.phase.Broadcasting?
    ensures NumberInv(AfterDeliver(s, ch, pushed))
  {
  }

  lemma NumberInvRegister(s: State, ch: ChannelId, user: string)
    requires JobInv(s) && LifeInv(s) && NumberInv(s) && ch !in s.log.ids
    ensures NumberInv(AfterRegister(s, ch, user))
  {
    assert Frontier(s) >= 0;
  }

  lemma NumberInvRestoreUser(s: State, ch: ChannelId)
    requires JobInv(s) && LifeInv(s) && NumberInv(s) && At(s, ch, Joining)
    ensures NumberInv(AfterRestoreUser(s, ch))
  {
    assert Frontier(s) >= 0;
  }

  lemma NumberInvStep(cfg: Config, s: State, a: Action)
    requires JobInv(s) && LifeInv(s) && NumberInv(s) && Enabled(cfg, s, a)
    ensures NumberInv(Apply(cfg, s, a))
  {
    if Background(a) {
      NumberInvBackground(cfg, s, a);
    } else if a.Submit? {
      NumberInvSubmit(cfg, s, a.ch, a.params, a.t1, a.t2);
    } else if Departing(a) {
      NumberInvDeparting(cfg, s, a);
    } else {
      match a
      case Deliver(ch, pushed) => NumberInvDeliver(s, ch, pushed);
      case Register(ch, user) => NumberInvRegister(s, ch, user);
      case RestoreUser(ch) => NumberInvRestoreUser(s, ch);
    }
  }

  /** Job frames pushed on a connection have strictly increasing ids, and while the session
      lives each of them is in the history with the nonce it was pushed with. */
  ghost predicate ToldInv(s: State) {
    && (forall ch :: ch in s.log.told ==> Increasing(s.log.told[ch]) && AllBelow(s.log.told[ch], Frontier(s)))
    && (s.phase.Broadcasting? ==>
          forall ch :: ch in s.phase.pending && ch in s.log.told ==> AllBelow(s.log.told[ch], s.coord.jobId - 1))
    && (forall ch, i :: ch in s.coord.sessions && ch in s.log.told && 0 <= i < |s.log.told[ch]| ==>
          InHistory(s.coord.history, s.log.told[ch][i]))
    && (s.phase == Booting || s.phase == Restoring ==>
          forall ch :: ch in s.coord.sessions ==> ch !in s.log.told)
  }

  predicate InHistory(history: map<int, JobRecord>, job: Job) {
    job.id in history && history[job.id].nonce == job.nonce
  }

  lemma ToldInvDeliver(cfg: Config, s: State, ch: ChannelId, pushed: bool)
    requires JobInv(s) && LifeInv(s) && ToldInv(s) && Enabled(cfg, s, Deliver(ch, pushed))
    ensures ToldInv(AfterDeliver(s, ch, pushed))
  {
    var s' := AfterDeliver(s, ch, pushed);
    var job := Job(s.coord.jobId, s.coord.serverNonce);
    assert Frontier(s') == Frontier(s) == s.coord.jobId && InHistory(s.coord.history, job);
    if pushed && ch in s.channels {
      ToldOneMore(ToldTo(s, ch), job);
      assert s'.log.told == s.log.told[ch := ToldTo(s, ch) + [job]];
    }
  }

  lemma ToldOneMore(told: seq<Job>, job: Job)
    requires Increasing(told) && AllBelow(told, job.id - 1)
    ensures Increasing(told + [job]) && AllBelow(told + [job], job.id)
  {
  }

  lemma ToldInvBackground(cfg: Config, s: State, a: Action)
    requires JobInv(s) && LifeInv(s) && ToldInv(s) && Enabled(cfg, s, a) && Background(a)
    ensures ToldInv(Apply(cfg, s, a))
  {
    BackgroundFrame(cfg, s, a);
    var s' := Apply(cfg, s, a);
    assert Frontier(s) <= Frontier(s');
    assert a.Snapshot? ==> Frontier(s) == s.coord.jobId - 1;
    assert a.Rotate? ==> s.coord.jobId + 1 !in s.coord.history;
  }

  lemma ToldInvDeparting(cfg: Config, s: State, a: Action)
    requires JobInv(s) && LifeInv(s) && ToldInv(s) && Enabled(cfg, s, a) && Departing(a)
    ensures ToldInv(Apply(cfg, s, a))
  {
    var s' := Apply(cfg, s, a);
    assert Frontier(s') == if a.Restart? then s.store.latestJobId else Frontier(s);
    assert s'.log.told == s.log.told;
  }

  lemma ToldInvRegister(s: State, ch: ChannelId, user: string)
    requires LifeInv(s) && ToldInv(s) && ch !in s.log.ids
    ensures ToldInv(AfterRegister(s, ch, user))
  {
  }

  lemma ToldInvRestoreUser(s: State, ch: ChannelId)
    requires ToldInv(s)
    ensures ToldInv(AfterRestoreUser(s, ch))
  {
  }

  lemma ToldInvSubmit(cfg: Config, s: State, ch: ChannelId, p: SubmitParams, t1: Instant, t2: Instant)
    requires ToldInv(s)
    ensures ToldInv(AfterSubmit(cfg, s, ch, p, t1, t2))
  {
    SubmitFrame(cfg, s, ch, p, t1, t2);
    assert AfterSubmit(cfg, s, ch, p, t1, t2).log.told == s.log.told;
  }

  lemma ToldInvStep(cfg: Config, s: State, a: Action)
    requires JobInv(s) && LifeInv(s) && ToldInv(s) && Enabled(cfg, s, a)
    ensures ToldInv(Apply(cfg, s, a))
  {
    if Background(a) {
      ToldInvBackground(cfg, s, a);
    } else if a.Deliver? {
      ToldInvDeliver(cfg, s, a.target, a.pushed);
    } else if Departing(a) {
      ToldInvDeparting(cfg, s, a);
    } else {
      match a
      case Register(ch, user) => ToldInvRegister(s, ch, user);
      case RestoreUser(ch) => ToldInvRestoreUser(s, ch);
      case Submit(ch, p, t1, t2) => ToldInvSubmit(cfg, s, ch, p, t1, t2);
    }
  }
}
