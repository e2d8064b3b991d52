/** app/server/listener.go: the decision on one submission, as a function of the
    session, the job history and two readings of the clock. */
module Listener {
  import opened Types
  import opened Store

  /** `digest` is the lower-case hexadecimal SHA-256 (section 6.2 of FIPS 180-4) of a
      string; nothing is assumed of it.  The code is the configuration in which the last
      four flags are false; each flag turns on one repair: keeping the looked-up nonce in a
      local variable instead of the session, asking the store's `HasUsedNonce` for
      duplicates, refusing the job number 0 that no job has, and restoring only the latest
      job when the history window is 0. */
  datatype Config = Config(
    digest: string -> string,
    expireAfter: int,
    historyWindow: int,
    queueSize: nat,
    localNonce: bool,
    perUserNonces: bool,
    refuseJobZero: bool,
    latestOnlyAtZero: bool)

  ghost predicate AsWritten(cfg: Config) {
    !cfg.localNonce && !cfg.perUserNonces && !cfg.refuseJobZero && !cfg.latestOnlyAtZero
  }

  datatype Verdict = Accepted | NoSuchTask | TaskExpired | TooFrequent | DuplicateNonce | InvalidResult

  function Lower(c: char): char {
    if 'A' <= c <= 'Z' then c - 'A' + 'a' else c
  }

  /** `strings.EqualFold`; ASCII folding is exact because one side is hexadecimal. */
  predicate EqualFold(a: string, b: string) {
    |a| == |b| && forall i :: 0 <= i < |a| ==> Lower(a[i]) == Lower(b[i])
  }

  /** Nothing is in upper case, as in the digest. */
  predicate NoCapitals(a: string) {
    forall i :: 0 <= i < |a| ==> !('A' <= a[i] <= 'Z')
  }

  /** The text with any of its letters capitalised. */
  predicate Capitalised(a: string, b: string) {
    |a| == |b| && forall i :: 0 <= i < |a| ==> b[i] == a[i] || ('a' <= a[i] <= 'z' && b[i] as int == a[i] as int - 32)
  }

  /** A text without capitals folds to exactly itself and its capitalisations. */
  lemma FoldIsCapitals(a: string, b: string)
    requires NoCapitals(a)
    ensures EqualFold(a, b) <==> Capitalised(a, b)
    ensures NoCapitals(b) ==> (EqualFold(a, b) <==> a == b)
  {
    if EqualFold(a, b) {
      forall i | 0 <= i < |a|
        ensures b[i] == a[i] || ('a' <= a[i] <= 'z' && b[i] as int == a[i] as int - 32)
      {
        assert Lower(a[i]) == Lower(b[i]);
      }
    }
  }

  /** `viaHistory` says that the job was not the session's latest and was looked up. */
  predicate ViaHistory(history: map<int, JobRecord>, s: Session, p: SubmitParams) {
    p.jobId != s.latestJobId && p.jobId in history
  }

  /** The nonce the result is checked against. */
  function NonceFor(history: map<int, JobRecord>, s: Session, p: SubmitParams): string {
    if ViaHistory(history, s, p) then history[p.jobId].nonce else s.latestServerNonce
  }

  predicate Expired(expireAfter: int, rec: JobRecord, now: Instant) {
    expireAfter > 0 && now - rec.createdAt > expireAfter
  }

  predicate Hasty(s: Session, now: Instant) {
    s.lastSubmitAt != ZERO_TIME && now - s.lastSubmitAt < SECOND
  }

  predicate Matches(cfg: Config, nonce: string, p: SubmitParams) {
    EqualFold(cfg.digest(nonce + p.clientNonce), p.result)
  }

  /** Whether the nonce counts as used; the store is asked only by the repaired check. */
  predicate Repeated(cfg: Config, store: StoreState, s: Session, p: SubmitParams) {
    || Recorded(s.usedNonces, p.jobId, p.clientNonce)
    || (cfg.perUserNonces && HasUsed(store, s.username, p.jobId, p.clientNonce))
  }

  /** The verdict, check by check in the order of the code.  `t1` is the clock when
      expiry is tested, `t2` the clock when the rate is. */
  function Decide(cfg: Config, history: map<int, JobRecord>, store: StoreState, s: Session,
                  p: SubmitParams, t1: Instant, t2: Instant): Verdict
  {
    if cfg.refuseJobZero && p.jobId == 0 then NoSuchTask
    else if p.jobId != s.latestJobId && p.jobId !in history then NoSuchTask
    else if ViaHistory(history, s, p) && Expired(cfg.expireAfter, history[p.jobId], t1) then TaskExpired
    else if Hasty(s, t2) then TooFrequent
    else if Repeated(cfg, store, s, p) then DuplicateNonce
    else if !Matches(cfg, NonceFor(history, s, p), p) then InvalidResult
    else Accepted
  }

  /** What the decision leaves in the session.  The nonce of a looked-up job stays there
      whatever the verdict, and the inner nonce map is created before the duplicate test. */
  function SessionAfter(cfg: Config, history: map<int, JobRecord>, s: Session, p: SubmitParams,
                        v: Verdict, t2: Instant): Session
  {
    var s1 := if ViaHistory(history, s, p) && !cfg.localNonce
              then s.(latestServerNonce := history[p.jobId].nonce) else s;
    var seen := if p.jobId in s.usedNonces then s.usedNonces[p.jobId] else {};
    match v
    case NoSuchTask | TaskExpired | TooFrequent => s1
    case DuplicateNonce | InvalidResult => s1.(usedNonces := s.usedNonces[p.jobId := seen])
    case Accepted =>
      s1.(usedNonces := s.usedNonces[p.jobId := seen + {p.clientNonce}], lastSubmitAt := t2)
  }

  /** The store after an accepted submission. */
  function StoreAfter(store: StoreState, s': Session, p: SubmitParams): StoreState {
    WithUserState(
      WithUsedNonce(store, s'.username, p.jobId, p.clientNonce),
      s'.username, UserState(s'.latestJobId, s'.latestServerNonce, s'.lastSubmitAt))
  }

  /** Only an accepted submission adds to the used nonces, and it adds exactly its own. */
  lemma UsedNoncesAfter(cfg: Config, history: map<int, JobRecord>, s: Session, p: SubmitParams,
                        v: Verdict, t2: Instant)
    ensures forall k, x ::
      Recorded(SessionAfter(cfg, history, s, p, v, t2).usedNonces, k, x)
      <==> Recorded(s.usedNonces, k, x) || (v == Accepted && k == p.jobId && x == p.clientNonce)
  {
  }
}
