/** What a client is told, in the words and numbers of app/server/listener.go. */
module Answers {
  import opened Types
  import opened Listener
  import opened Protocol
  import opened Nonces
  import opened Theorems
  import opened Coordination
  import opened TcpServer

  /** A request is answered exactly if it names the submit method and carries an id; if its
      parameters do not decode the answer is "Invalid result" and nothing happens. */
  lemma WhichRequestsAreAnswered(cfg: Config, s: State, ch: ChannelId, req: Request, t1: Instant, t2: Instant)
    ensures
      var reply := ReplyTo(cfg, s, ch, req, t1, t2);
      && (reply.Some? <==> exists id, params :: req == Request(Some(id), "submit", params))
      && (reply.Some? ==> req.Request? && req.id == Some(reply.value.id))
      && (forall id :: req == Request(Some(id), "submit", None) ==> reply == Some(Response(id, Some("Invalid result"))))
      && (AfterRequest(cfg, s, ch, req, t1, t2) == s
          || exists id, p :: req == Request(Some(id), "submit", Some(p)) && AfterRequest(cfg, s, ch, req, t1, t2) == AfterSubmit(cfg, s, ch, p, t1, t2))
  {
    if req.Request? && req.id.Some? && req.methodName == "submit" {
      assert req == Request(Some(req.id.value), "submit", req.params);
      if req.params.Some? {
        assert req == Request(Some(req.id.value), "submit", Some(req.params.value));
      }
    }
  }

  /** What is wrong with a submission, check by check and word for word; `None` stands for success. */
  ghost function Complaint(cfg: Config, s: State, ch: ChannelId, p: SubmitParams, t1: Instant, t2: Instant): Option<string> {
    if ch !in s.coord.sessions then Some("Task does not exist")
    else
      var sess := s.coord.sessions[ch];
      var known := p.jobId in s.coord.history;
      var nonce := if p.jobId != sess.latestJobId && known then s.coord.history[p.jobId].nonce else sess.latestServerNonce;
      if p.jobId != sess.latestJobId && !known then Some("Task does not exist")
      else if p.jobId != sess.latestJobId && cfg.expireAfter > 0 && t1 - s.coord.history[p.jobId].createdAt > cfg.expireAfter
      then Some("Task expired")
      else if sess.lastSubmitAt != 0 && t2 - sess.lastSubmitAt < 1_000_000_000 then Some("Submission too frequent")
      else if AcceptedOn(s.log.accepted, ch, p.jobId, p.clientNonce) then Some("Duplicate submission")
      else if !Capitalised(cfg.digest(nonce + p.clientNonce), p.result) then Some("Invalid result")
      else None
  }

  /** In every reachable state the code as written answers a submission with exactly that; the
      digest has no capitals. */
  lemma AnswerIsExact(cfg: Config, s: State, ch: ChannelId, id: int, p: SubmitParams, t1: Instant, t2: Instant)
    requires Reachable(cfg, s) && AsWritten(cfg) && forall x :: NoCapitals(cfg.digest(x))
    ensures ReplyTo(cfg, s, ch, Request(Some(id), "submit", Some(p)), t1, t2)
         == Some(Response(id, Complaint(cfg, s, ch, p, t1, t2)))
  {
    if ch in s.coord.sessions {
      DuplicateIffSameSession(cfg, s, ch, p, t1, t2);
      FoldIsCapitals(cfg.digest(NonceFor(s.coord.history, s.coord.sessions[ch], p) + p.clientNonce), p.result);
    }
  }

  /** When the goroutine of a submission runs on a connection, that answer is the next to be pushed
      there, after all that were pushed before. */
  lemma NextAnswer(cfg: Config, ch: ChannelId, t: Talk, k: nat, t1: Instant, t2: Instant, id: int, p: SubmitParams)
    requires Reachable(cfg, t.state) && AsWritten(cfg) && forall x :: NoCapitals(cfg.digest(x))
    requires CanTurn(cfg, ch, t, Handles(k, t1, t2)) && t.pending[k] == Request(Some(id), "submit", Some(p))
    ensures Turned(cfg, ch, t, Handles(k, t1, t2)).replies
         == t.replies + [Response(id, Complaint(cfg, t.state, ch, p, t1, t2))]
  {
    AnswerIsExact(cfg, t.state, ch, id, p, t1, t2);
  }

  /** An accepted result is the digest of the nonce and the client's nonce, letter for letter but
      for capitals, and exactly the digest if it has none. */
  lemma AcceptedResultIsDigest(cfg: Config, s: State, ch: ChannelId, p: SubmitParams, t1: Instant, t2: Instant)
    requires VerdictOn(cfg, s, ch, p, t1, t2) == Accepted
    ensures ch in s.coord.sessions
    ensures
      var digest := cfg.digest(NonceFor(s.coord.history, s.coord.sessions[ch], p) + p.clientNonce);
      NoCapitals(digest) ==> Capitalised(digest, p.result) && (NoCapitals(p.result) ==> p.result == digest)
  {
    FoldIsCapitalsIfAny(cfg.digest(NonceFor(s.coord.history, s.coord.sessions[ch], p) + p.clientNonce), p.result);
  }

  lemma FoldIsCapitalsIfAny(a: string, b: string)
    ensures NoCapitals(a) && EqualFold(a, b) ==> Capitalised(a, b) && (NoCapitals(b) ==> a == b)
  {
    if NoCapitals(a) {
      FoldIsCapitals(a, b);
    }
  }

  /** The digest, and the digest with any of its letters capitalised, is never an invalid result. */
  lemma DigestIsNeverInvalid(cfg: Config, s: State, ch: ChannelId, p: SubmitParams, t1: Instant, t2: Instant)
    requires ch in s.coord.sessions
    requires
      var digest := cfg.digest(NonceFor(s.coord.history, s.coord.sessions[ch], p) + p.clientNonce);
      p.result == digest || (NoCapitals(digest) && Capitalised(digest, p.result))
    ensures VerdictOn(cfg, s, ch, p, t1, t2) != InvalidResult
  {
    var digest := cfg.digest(NonceFor(s.coord.history, s.coord.sessions[ch], p) + p.clientNonce);
    if NoCapitals(digest) {
      FoldIsCapitals(digest, p.result);
    }
  }
}
