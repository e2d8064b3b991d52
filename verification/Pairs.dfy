/** The (job, nonce) pair of a session, the one a user's saved state carries, and the nonce
    each accepted submission was checked against (app/server/listener.go:56-88). */
module Pairs {
  import opened Types
  import opened Store
  import opened Listener
  import opened Protocol
  import opened Jobs
  import opened Sessions

  /** The job is known, and the nonce is that job's own exactly when there is no taint. */
  predicate PairOk(store: StoreState, jobId: int, nonce: string, tainted: bool) {
    && NonceOf(store, jobId).Some?
    && (NonceOf(store, jobId) == Some(nonce) <==> !tainted)
  }

  predicate NonceKnown(s: State, nonce: string) {
    nonce == "" || nonce in s.log.nonces
  }

  ghost predicate SessionPairs(s: State) {
    forall ch :: ch in s.coord.sessions ==>
      var sess := s.coord.sessions[ch];
      PairOk(s.store, sess.latestJobId, sess.latestServerNonce, ch in s.log.tainted) && NonceKnown(s, sess.latestServerNonce)
  }

  ghost predicate UserPairs(s: State) {
    && (forall u :: u in s.store.userStates ==>
          var us := s.store.userStates[u];
          PairOk(s.store, us.latestJobId, us.latestNonce, u in s.log.taintedUsers) && NonceKnown(s, us.latestNonce))
    && (forall u :: u in s.log.taintedUsers ==> u in s.store.userStates)
  }

  /** Identifiers still to come carry no taint, and a repaired listener taints nothing. */
  ghost predicate TaintOk(cfg: Config, s: State) {
    && (forall ch :: ch in s.log.tainted ==> ch in s.log.ids)
    && (cfg.localNonce ==> s.log.tainted == {} && s.log.taintedUsers == {})
  }

  ghost predicate PairInv(cfg: Config, s: State) {
    SessionPairs(s) && UserPairs(s) && TaintOk(cfg, s)
  }

  /** Jobs that the store knows keep their nonce: ids only grow. */
  lemma KnownJobsKeepNonce(cfg: Config, s: State, a: Action)
    requires JobInv(s) && Enabled(cfg, s, a)
    ensures forall j :: NonceOf(s.store, j).Some? ==> NonceOf(Apply(cfg, s, a).store, j) == NonceOf(s.store, j)
    ensures s.log.nonces <= Apply(cfg, s, a).log.nonces
  {
    var s' := Apply(cfg, s, a);
    if !a.SaveJob? {
      assert s'.store.jobHist == s.store.jobHist;
    }
  }

  /** The nonce of any job in the history is non-empty and no other known job's. */
  lemma HistoryNonceIsOwn(s: State, j: int, k: int)
    requires JobInv(s) && j in s.coord.history && NonceOf(s.store, k).Some? && j != k
    ensures NonceOf(s.store, k) != Some(s.coord.history[j].nonce)
    ensures s.coord.history[j].nonce in s.log.nonces
  {
  }

  lemma PairInvBackground(cfg: Config, s: State, a: Action)
    requires JobInv(s) && LifeInv(s) && PairInv(cfg, s) && Enabled(cfg, s, a) && Background(a)
    ensures PairInv(cfg, Apply(cfg, s, a))
  {
    BackgroundFrame(cfg, s, a);
    KnownJobsKeepNonce(cfg, s, a);
  }

  lemma PairInvDeparting(cfg: Config, s: State, a: Action)
    requires LifeInv(s) && PairInv(cfg, s) && Enabled(cfg, s, a) && Departing(a)
    ensures PairInv(cfg, Apply(cfg, s, a))
  {
    assert Apply(cfg, s, a).store == s.store;
  }

  lemma PairInvArriving(cfg: Config, s: State, a: Action)
    requires JobInv(s) && LifeInv(s) && PairInv(cfg, s) && Enabled(cfg, s, a) && Arriving(a)
    ensures PairInv(cfg, Apply(cfg, s, a))
  {
    assert Apply(cfg, s, a).store == s.store;
  }

  /** The pair of the submitting session: a looked-up job leaves its nonce beside another
      job's number, which is what a taint is. */
  lemma SubmittedPairOk(cfg: Config, s: State, ch: ChannelId, p: SubmitParams, v: Verdict, t2: Instant)
    requires JobInv(s) && SessionPairs(s) && ch in s.coord.sessions
    ensures
      var sess' := SessionAfter(cfg, s.coord.history, s.coord.sessions[ch], p, v, t2);
      && PairOk(s.store, sess'.latestJobId, sess'.latestServerNonce, TaintedAfter(cfg, s, ch, p))
      && NonceKnown(s, sess'.latestServerNonce)
      && sess'.username == s.coord.sessions[ch].username
  {
    var sess := s.coord.sessions[ch];
    assert PairOk(s.store, sess.latestJobId, sess.latestServerNonce, ch in s.log.tainted);
    if ViaHistory(s.coord.history, sess, p) {
      HistoryNonceIsOwn(s, p.jobId, sess.latestJobId);
    }
  }

  /** An accepted submission saves whatever pair, tainted or not, the session has. */
  lemma PairInvSubmit(cfg: Config, s: State, ch: ChannelId, p: SubmitParams, t1: Instant, t2: Instant)
    requires JobInv(s) && LifeInv(s) && PairInv(cfg, s) && Enabled(cfg, s, Submit(ch, p, t1, t2))
    ensures PairInv(cfg, AfterSubmit(cfg, s, ch, p, t1, t2))
  {
    if ch in s.coord.sessions {
      var s' := AfterSubmit(cfg, s, ch, p, t1, t2);
      var v := VerdictOn(cfg, s, ch, p, t1, t2);
      SubmittedPairOk(cfg, s, ch, p, v, t2);
      SubmitSavesPair(cfg, s, ch, p, t1, t2);
      assert forall j :: NonceOf(s'.store, j) == NonceOf(s.store, j);
      forall c | c in s'.coord.sessions
        ensures PairOk(s'.store, s'.coord.sessions[c].latestJobId, s'.coord.sessions[c].latestServerNonce, c in s'.log.tainted)
        ensures NonceKnown(s', s'.coord.sessions[c].latestServerNonce)
      {
        if c != ch {
          assert s'.coord.sessions[c] == s.coord.sessions[c];
        }
      }
    }
  }

  lemma SubmitSavesPair(cfg: Config, s: State, ch: ChannelId, p: SubmitParams, t1: Instant, t2: Instant)
    requires ch in s.coord.sessions
    ensures
      var s' := AfterSubmit(cfg, s, ch, p, t1, t2);
      var sess' := s'.coord.sessions[ch];
      && s'.store.jobHist == s.store.jobHist
      && s'.log.nonces == s.log.nonces && s'.log.ids == s.log.ids
      && s'.store.userStates ==
         if VerdictOn(cfg, s, ch, p, t1, t2) == Accepted
         then s.store.userStates[sess'.username := UserState(sess'.latestJobId, sess'.latestServerNonce, sess'.lastSubmitAt)]
         else s.store.userStates
  {
  }

  lemma PairInvStep(cfg: Config, s: State, a: Action)
    requires JobInv(s) && LifeInv(s) && PairInv(cfg, s) && Enabled(cfg, s, a)
    ensures PairInv(cfg, Apply(cfg, s, a))
  {
    if Background(a) {
      PairInvBackground(cfg, s, a);
    } else if a.Submit? {
      PairInvSubmit(cfg, s, a.ch, a.params, a.t1, a.t2);
    } else if Departing(a) {
      PairInvDeparting(cfg, s, a);
    } else {
      PairInvArriving(cfg, s, a);
    }
  }

  // ----- accepted submissions -----

  /** The nonce was minted for the job: it is stored, or may yet be, under no other. */
  ghost predicate MintedFor(s: State, nonce: string, jobId: int) {
    && nonce in s.log.nonces
    && (s.phase == Minted && s.coord.serverNonce == nonce ==> s.coord.jobId == jobId)
    && (forall j :: j in s.store.jobHist && s.store.jobHist[j].nonce == nonce ==> j == jobId)
  }

  lemma StaysMintedFor(cfg: Config, s: State, a: Action, nonce: string, jobId: int)
    requires Enabled(cfg, s, a) && MintedFor(s, nonce, jobId)
    ensures MintedFor(Apply(cfg, s, a), nonce, jobId)
  {
  }

  /** An acceptance matched the digest.  If the job was stored, the nonce it was checked
      against is the job's own exactly when the session was not tainted; if it was not, the
      nonce was minted for the job. */
  ghost predicate AcceptanceOk(cfg: Config, s: State, a: Acceptance) {
    && Matches(cfg, a.nonceUsed, a.params)
    && NonceKnown(s, a.nonceUsed)
    && (if a.early then !a.tainted && MintedFor(s, a.nonceUsed, a.params.jobId)
        else PairOk(s.store, a.params.jobId, a.nonceUsed, a.tainted))
    && (cfg.localNonce ==> !a.tainted)
    && (cfg.refuseJobZero ==> a.params.jobId != 0)
  }

  ghost predicate AcceptInv(cfg: Config, s: State) {
    forall i :: 0 <= i < |s.log.accepted| ==> AcceptanceOk(cfg, s, s.log.accepted[i])
  }

  lemma NewAcceptanceOk(cfg: Config, s: State, ch: ChannelId, p: SubmitParams, t1: Instant, t2: Instant)
    requires JobInv(s) && LifeInv(s) && PairInv(cfg, s) && ch in s.coord.sessions
    requires VerdictOn(cfg, s, ch, p, t1, t2) == Accepted
    ensures AcceptanceOk(cfg, s, AcceptanceOf(s, ch, p, t2))
    ensures AcceptanceOf(s, ch, p, t2).early ==> s.phase == Minted && p.jobId == s.coord.jobId
  {
    var sess := s.coord.sessions[ch];
    assert PairOk(s.store, sess.latestJobId, sess.latestServerNonce, ch in s.log.tainted);
    if ViaHistory(s.coord.history, sess, p) {
      HistoryNonceIsOwn(s, p.jobId, sess.latestJobId);
    }
  }

  lemma AcceptInvStep(cfg: Config, s: State, a: Action)
    requires JobInv(s) && LifeInv(s) && PairInv(cfg, s) && AcceptInv(cfg, s) && Enabled(cfg, s, a)
    ensures AcceptInv(cfg, Apply(cfg, s, a))
  {
    KnownJobsKeepNonce(cfg, s, a);
    var s' := Apply(cfg, s, a);
    if a.Submit? && a.ch in s.coord.sessions && VerdictOn(cfg, s, a.ch, a.params, a.t1, a.t2) == Accepted {
      NewAcceptanceOk(cfg, s, a.ch, a.params, a.t1, a.t2);
      assert s'.log.accepted == s.log.accepted + [AcceptanceOf(s, a.ch, a.params, a.t2)];
    } else {
      assert s'.log.accepted == s.log.accepted;
    }
    forall i | 0 <= i < |s'.log.accepted|
      ensures AcceptanceOk(cfg, s', s'.log.accepted[i])
    {
      var b := s'.log.accepted[i];
      assert AcceptanceOk(cfg, s, b);
      if b.early {
        StaysMintedFor(cfg, s, a, b.nonceUsed, b.params.jobId);
      }
    }
  }

  // ----- expiry -----

  /** The job is expired for the session, or the session is gone. */
  predicate ExpiredFor(cfg: Config, s: State, ch: ChannelId, j: int) {
    && ch in s.log.ids
    && (ch in s.conns ==> s.conns[ch] != Joining)
    && (ch in s.coord.sessions ==>
          && j in s.coord.history
          && j <= s.coord.jobId
          && BroadcastOver(s, ch, j)
          && s.coord.sessions[ch].latestJobId != j
          && Expired(cfg.expireAfter, s.coord.history[j], s.clock))
  }

  /** What a session was told to be expired stays expired for it. */
  ghost predicate ExpiryInv(cfg: Config, s: State) {
    forall ch, j :: (ch, j) in s.log.expired ==> ExpiredFor(cfg, s, ch, j)
  }

  lemma StaysExpiredInBackground(cfg: Config, s: State, a: Action, ch: ChannelId, j: int)
    requires JobInv(s) && LifeInv(s) && ExpiredFor(cfg, s, ch, j) && Enabled(cfg, s, a) && Background(a)
    ensures ExpiredFor(cfg, Apply(cfg, s, a), ch, j)
  {
    BackgroundFrame(cfg, s, a);
    var s' := Apply(cfg, s, a);
    if ch in s.coord.sessions {
      assert a.Rotate? ==> s.coord.jobId + 1 !in s.coord.history;
      assert j in s'.coord.history && s'.coord.history[j] == s.coord.history[j];
    }
  }

  lemma ExpiryInvBackground(cfg: Config, s: State, a: Action)
    requires JobInv(s) && LifeInv(s) && ExpiryInv(cfg, s) && Enabled(cfg, s, a) && Background(a)
    ensures ExpiryInv(cfg, Apply(cfg, s, a))
  {
    BackgroundFrame(cfg, s, a);
    forall ch, j | (ch, j) in s.log.expired
      ensures ExpiredFor(cfg, Apply(cfg, s, a), ch, j)
    {
      StaysExpiredInBackground(cfg, s, a, ch, j);
    }
  }

  lemma ExpiryInvDeparting(cfg: Config, s: State, a: Action)
    requires LifeInv(s) && ExpiryInv(cfg, s) && Enabled(cfg, s, a) && Departing(a)
    ensures ExpiryInv(cfg, Apply(cfg, s, a))
  {
  }

  lemma ExpiryInvArriving(cfg: Config, s: State, a: Action)
    requires LifeInv(s) && ExpiryInv(cfg, s) && Enabled(cfg, s, a) && Arriving(a)
    ensures ExpiryInv(cfg, Apply(cfg, s, a))
  {
  }

  /** The one pair a submission can add is its own, when it is told that the job is expired. */
  lemma SubmitTellsExpired(cfg: Config, s: State, ch: ChannelId, p: SubmitParams, t1: Instant, t2: Instant)
    ensures
      var told := AfterSubmit(cfg, s, ch, p, t1, t2).log.expired;
      if VerdictOn(cfg, s, ch, p, t1, t2) == TaskExpired && BroadcastOver(s, ch, p.jobId)
      then told == s.log.expired + {(ch, p.jobId)} else told == s.log.expired
  {
  }

  lemma StaysExpiredOnSubmit(cfg: Config, s: State, ch: ChannelId, p: SubmitParams, t1: Instant, t2: Instant, c: ChannelId, j: int)
    requires ExpiredFor(cfg, s, c, j) && s.clock <= t2
    ensures ExpiredFor(cfg, AfterSubmit(cfg, s, ch, p, t1, t2), c, j)
  {
    SubmitFrame(cfg, s, ch, p, t1, t2);
  }

  /** A job just told to be expired is. */
  lemma ToldIsExpired(cfg: Config, s: State, ch: ChannelId, p: SubmitParams, t1: Instant, t2: Instant)
    requires JobInv(s) && LifeInv(s) && Enabled(cfg, s, Submit(ch, p, t1, t2))
    requires VerdictOn(cfg, s, ch, p, t1, t2) == TaskExpired && BroadcastOver(s, ch, p.jobId)
    ensures ExpiredFor(cfg, AfterSubmit(cfg, s, ch, p, t1, t2), ch, p.jobId)
  {
    SubmitFrame(cfg, s, ch, p, t1, t2);
  }

  lemma ExpiryInvSubmit(cfg: Config, s: State, ch: ChannelId, p: SubmitParams, t1: Instant, t2: Instant)
    requires JobInv(s) && LifeInv(s) && ExpiryInv(cfg, s) && Enabled(cfg, s, Submit(ch, p, t1, t2))
    ensures ExpiryInv(cfg, AfterSubmit(cfg, s, ch, p, t1, t2))
  {
    var s' := AfterSubmit(cfg, s, ch, p, t1, t2);
    SubmitTellsExpired(cfg, s, ch, p, t1, t2);
    forall c, j | (c, j) in s'.log.expired
      ensures ExpiredFor(cfg, s', c, j)
    {
      if (c, j) in s.log.expired {
        StaysExpiredOnSubmit(cfg, s, ch, p, t1, t2, c, j);
      } else {
        ToldIsExpired(cfg, s, ch, p, t1, t2);
      }
    }
  }

  lemma ExpiryInvStep(cfg: Config, s: State, a: Action)
    requires JobInv(s) && LifeInv(s) && ExpiryInv(cfg, s) && Enabled(cfg, s, a)
    ensures ExpiryInv(cfg, Apply(cfg, s, a))
  {
    if Background(a) {
      ExpiryInvBackground(cfg, s, a);
    } else if Departing(a) {
      ExpiryInvDeparting(cfg, s, a);
    } else if Arriving(a) {
      ExpiryInvArriving(cfg, s, a);
    } else {
      ExpiryInvSubmit(cfg, s, a.ch, a.params, a.t1, a.t2);
    }
  }
}
