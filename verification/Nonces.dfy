/** Duplicate detection (app/server/listener.go:70-88, stats/memory.go:106-130). */
module Nonces {
  import opened Types
  import opened Store
  import opened Listener
  import opened Protocol
  import opened Sessions

  predicate Uses(a: Acceptance, jobId: int, nonce: string) {
    a.params.jobId == jobId && a.params.clientNonce == nonce
  }

  ghost predicate AcceptedOn(acc: seq<Acceptance>, ch: ChannelId, jobId: int, nonce: string) {
    exists i :: 0 <= i < |acc| && acc[i].ch == ch && Uses(acc[i], jobId, nonce)
  }

  ghost predicate AcceptedFor(acc: seq<Acceptance>, user: string, jobId: int, nonce: string) {
    exists i :: 0 <= i < |acc| && acc[i].event.username == user && Uses(acc[i], jobId, nonce)
  }

  predicate SameUse(a: Acceptance, b: Acceptance) {
    Uses(a, b.params.jobId, b.params.clientNonce)
  }

  /** A session's used nonces are exactly those accepted on it. */
  ghost predicate SessionIndexOk(s: State) {
    forall ch, k, x :: ch in s.coord.sessions ==>
      (Recorded(s.coord.sessions[ch].usedNonces, k, x) <==> AcceptedOn(s.log.accepted, ch, k, x))
  }

  /** The store's index of a user is exactly what was ever accepted for that user, on any session. */
  ghost predicate StoreIndexOk(s: State) {
    forall u, k, x :: HasUsed(s.store, u, k, x) <==> AcceptedFor(s.log.accepted, u, k, x)
  }

  ghost predicate NoRepeats(cfg: Config, s: State) {
    forall i, k :: 0 <= i < k < |s.log.accepted| && SameUse(s.log.accepted[i], s.log.accepted[k]) ==>
      && s.log.accepted[i].ch != s.log.accepted[k].ch
      && (cfg.perUserNonces ==> s.log.accepted[i].event.username != s.log.accepted[k].event.username)
  }

  ghost predicate UsedInv(cfg: Config, s: State) {
    && (forall i :: 0 <= i < |s.log.accepted| ==> s.log.accepted[i].ch in s.log.ids)
    && SessionIndexOk(s)
    && StoreIndexOk(s)
    && NoRepeats(cfg, s)
  }

  lemma AcceptedSnoc(acc: seq<Acceptance>, a: Acceptance, ch: ChannelId, user: string, k: int, x: string)
    ensures AcceptedOn(acc + [a], ch, k, x) <==> AcceptedOn(acc, ch, k, x) || (a.ch == ch && Uses(a, k, x))
    ensures AcceptedFor(acc + [a], user, k, x) <==>
      AcceptedFor(acc, user, k, x) || (a.event.username == user && Uses(a, k, x))
  {
    var acc' := acc + [a];
    assert acc'[|acc|] == a;
    if AcceptedOn(acc, ch, k, x) {
      var i :| 0 <= i < |acc| && acc[i].ch == ch && Uses(acc[i], k, x);
      assert acc'[i] == acc[i];
    }
    if AcceptedFor(acc, user, k, x) {
      var i :| 0 <= i < |acc| && acc[i].event.username == user && Uses(acc[i], k, x);
      assert acc'[i] == acc[i];
    }
  }

  /** The pieces of a submission's effect that the indexes depend on. */
  lemma SubmitIndexes(cfg: Config, s: State, ch: ChannelId, p: SubmitParams, t1: Instant, t2: Instant)
    requires ch in s.coord.sessions
    ensures
      var s' := AfterSubmit(cfg, s, ch, p, t1, t2);
      var v := VerdictOn(cfg, s, ch, p, t1, t2);
      && s'.coord.sessions == s.coord.sessions[ch := SessionAfter(cfg, s.coord.history, s.coord.sessions[ch], p, v, t2)]
      && s'.store.used == (if v == Accepted
                           then WithUsedNonce(s.store, s.coord.sessions[ch].username, p.jobId, p.clientNonce).used
                           else s.store.used)
      && s'.log.accepted == (if v == Accepted then s.log.accepted + [AcceptanceOf(s, ch, p, t2)] else s.log.accepted)
      && s'.log.ids == s.log.ids
  {
  }

  lemma SubmitKeepsIndexes(cfg: Config, s: State, ch: ChannelId, p: SubmitParams, t1: Instant, t2: Instant)
    requires LifeInv(s) && UsedInv(cfg, s) && Enabled(cfg, s, Submit(ch, p, t1, t2)) && ch in s.coord.sessions
    ensures SessionIndexOk(AfterSubmit(cfg, s, ch, p, t1, t2))
    ensures StoreIndexOk(AfterSubmit(cfg, s, ch, p, t1, t2))
  {
    var s' := AfterSubmit(cfg, s, ch, p, t1, t2);
    var v := VerdictOn(cfg, s, ch, p, t1, t2);
    var sess := s.coord.sessions[ch];
    var a := AcceptanceOf(s, ch, p, t2);
    SubmitIndexes(cfg, s, ch, p, t1, t2);
    UsedNoncesAfter(cfg, s.coord.history, sess, p, v, t2);
    UsedNonceAddsOneTriple(s.store, sess.username, p.jobId, p.clientNonce);
    forall c, k, x | c in s'.coord.sessions
      ensures Recorded(s'.coord.sessions[c].usedNonces, k, x) <==> AcceptedOn(s'.log.accepted, c, k, x)
    {
      AcceptedSnoc(s.log.accepted, a, c, "", k, x);
      assert Recorded(s.coord.sessions[c].usedNonces, k, x) <==> AcceptedOn(s.log.accepted, c, k, x);
    }
    forall u, k, x
      ensures HasUsed(s'.store, u, k, x) <==> AcceptedFor(s'.log.accepted, u, k, x)
    {
      AcceptedSnoc(s.log.accepted, a, "", u, k, x);
      assert HasUsed(s.store, u, k, x) <==> AcceptedFor(s.log.accepted, u, k, x);
      assert v == Accepted ==> (HasUsed(s'.store, u, k, x) <==>
        HasUsed(WithUsedNonce(s.store, sess.username, p.jobId, p.clientNonce), u, k, x));
    }
  }

  lemma SubmitRepeatsNothing(cfg: Config, s: State, ch: ChannelId, p: SubmitParams, t1: Instant, t2: Instant)
    requires LifeInv(s) && UsedInv(cfg, s) && Enabled(cfg, s, Submit(ch, p, t1, t2)) && ch in s.coord.sessions
    ensures NoRepeats(cfg, AfterSubmit(cfg, s, ch, p, t1, t2))
  {
    var s' := AfterSubmit(cfg, s, ch, p, t1, t2);
    var sess := s.coord.sessions[ch];
    var acc := s.log.accepted;
    SubmitIndexes(cfg, s, ch, p, t1, t2);
    if VerdictOn(cfg, s, ch, p, t1, t2) == Accepted {
      assert !Recorded(sess.usedNonces, p.jobId, p.clientNonce);
      assert !AcceptedOn(acc, ch, p.jobId, p.clientNonce);
      assert cfg.perUserNonces ==> !HasUsed(s.store, sess.username, p.jobId, p.clientNonce);
      assert cfg.perUserNonces ==> !AcceptedFor(acc, sess.username, p.jobId, p.clientNonce);
      forall i | 0 <= i < |acc| && SameUse(acc[i], AcceptanceOf(s, ch, p, t2))
        ensures acc[i].ch != ch && (cfg.perUserNonces ==> acc[i].event.username != sess.username)
      {
        assert Uses(acc[i], p.jobId, p.clientNonce);
      }
    }
  }

  lemma UsedInvFrame(cfg: Config, s: State, s': State)
    requires UsedInv(cfg, s)
    requires s'.log.accepted == s.log.accepted && s'.store.used == s.store.used && s.log.ids <= s'.log.ids
    requires forall ch :: ch in s'.coord.sessions ==>
      || (ch in s.coord.sessions && s'.coord.sessions[ch].usedNonces == s.coord.sessions[ch].usedNonces)
      || (ch !in s.log.ids && s'.coord.sessions[ch].usedNonces == map[])
    ensures UsedInv(cfg, s')
  {
    forall ch, k, x | ch in s'.coord.sessions
      ensures Recorded(s'.coord.sessions[ch].usedNonces, k, x) <==> AcceptedOn(s'.log.accepted, ch, k, x)
    {
      if ch in s.coord.sessions && s'.coord.sessions[ch].usedNonces == s.coord.sessions[ch].usedNonces {
        assert Recorded(s.coord.sessions[ch].usedNonces, k, x) <==> AcceptedOn(s.log.accepted, ch, k, x);
      }
    }
    forall u, k, x
      ensures HasUsed(s'.store, u, k, x) <==> AcceptedFor(s'.log.accepted, u, k, x)
    {
      assert HasUsed(s.store, u, k, x) <==> AcceptedFor(s.log.accepted, u, k, x);
    }
  }

  lemma UsedInvStep(cfg: Config, s: State, a: Action)
    requires LifeInv(s) && UsedInv(cfg, s) && Enabled(cfg, s, a)
    ensures UsedInv(cfg, Apply(cfg, s, a))
  {
    var s' := Apply(cfg, s, a);
    if a.Submit? && a.ch in s.coord.sessions {
      SubmitIndexes(cfg, s, a.ch, a.params, a.t1, a.t2);
      SubmitKeepsIndexes(cfg, s, a.ch, a.params, a.t1, a.t2);
      SubmitRepeatsNothing(cfg, s, a.ch, a.params, a.t1, a.t2);
    } else {
      if Background(a) {
        BackgroundFrame(cfg, s, a);
      }
      UsedInvFrame(cfg, s, s');
    }
  }
}
