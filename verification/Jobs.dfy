/** Job numbering across rotations, broadcasts, crashes and restarts
    (app/server/coordinator.go against the store of stats/memory.go). */
module Jobs {
  import opened Types
  import opened Store
  import opened Listener
  import opened Protocol

  /** The nonce a job was issued with; job 0 stands for "no job yet". */
  function NonceOf(store: StoreState, id: int): Option<string> {
    if id == 0 then Some("")
    else if id in store.jobHist then Some(store.jobHist[id].nonce)
    else None
  }

  ghost predicate StoreOk(store: StoreState) {
    && store.latestJobId >= 0
    && (forall j :: j in store.jobHist ==> 0 < j <= store.latestJobId)
    && (store.latestJobId > 0 ==> store.latestJobId in store.jobHist)
    && (forall i, j :: i in store.jobHist && j in store.jobHist && i != j
          ==> store.jobHist[i].nonce != store.jobHist[j].nonce)
  }

  ghost predicate NoncesLogged(s: State) {
    && "" !in s.log.nonces
    && (forall j :: j in s.store.jobHist ==> s.store.jobHist[j].nonce in s.log.nonces)
  }

  ghost predicate PhaseOk(s: State) {
    match s.phase
    case Booting => s.coord.jobId == 0 && s.coord.history == map[]
    case Restoring =>
      && s.coord.jobId == s.store.latestJobId
      && (if s.store.latestJobId > 0
          then s.coord.history == map[s.store.latestJobId := LatestRecord(s.store)]
               && s.coord.serverNonce == LatestRecord(s.store).nonce
          else s.coord.history == map[])
    case Idle => s.coord.jobId == s.store.latestJobId
    case Minted =>
      && s.coord.jobId == s.store.latestJobId + 1
      && s.coord.jobId in s.coord.history
      && s.coord.history[s.coord.jobId].nonce == s.coord.serverNonce
      && s.coord.serverNonce in s.log.nonces
      && forall j :: j in s.store.jobHist ==> s.store.jobHist[j].nonce != s.coord.serverNonce
    case Saved => CurrentSaved(s)
    case Broadcasting(_, _) => CurrentSaved(s)
  }

  predicate CurrentSaved(s: State) {
    && s.coord.jobId == s.store.latestJobId > 0
    && s.coord.jobId in s.coord.history
    && NonceOf(s.store, s.coord.jobId) == Some(s.coord.serverNonce)
  }

  /** The only job of the history that the store may lack is the one just minted, and the
      creation time in the store is never before the one in memory. */
  ghost predicate HistoryOk(s: State) {
    forall j :: j in s.coord.history ==>
      && s.coord.history[j].createdAt <= s.clock
      && (|| (s.phase == Minted && j == s.coord.jobId)
          || (&& j in s.store.jobHist
              && s.store.jobHist[j].nonce == s.coord.history[j].nonce
              && s.coord.history[j].createdAt <= s.store.jobHist[j].createdAt))
  }

  /** The greatest job id that a session, a saved user state or a client can hold. */
  function Frontier(s: State): int {
    if s.phase == Saved then s.store.latestJobId - 1 else s.store.latestJobId
  }

  ghost predicate Increasing(jobs: seq<Job>) {
    forall i, k :: 0 <= i < k < |jobs| ==> jobs[i].id < jobs[k].id
  }

  ghost predicate BroadcastsOk(s: State) {
    && Increasing(s.log.broadcasts)
    && forall i :: 0 <= i < |s.log.broadcasts| ==>
         && 0 < s.log.broadcasts[i].id <= Frontier(s)
         && NonceOf(s.store, s.log.broadcasts[i].id) == Some(s.log.broadcasts[i].nonce)
  }

  ghost predicate JobInv(s: State) {
    && s.clock > 0
    && StoreOk(s.store)
    && NoncesLogged(s)
    && PhaseOk(s)
    && HistoryOk(s)
    && BroadcastsOk(s)
    && (forall j :: j in s.store.jobHist ==> s.store.jobHist[j].createdAt <= s.clock)
  }

  /** Everything `JobInv` speaks of. */
  predicate SameJobs(s: State, s': State) {
    && s.clock <= s'.clock
    && s'.coord.jobId == s.coord.jobId
    && s'.coord.serverNonce == s.coord.serverNonce
    && s'.coord.history == s.coord.history
    && s'.store.jobHist == s.store.jobHist
    && s'.store.latestJobId == s.store.latestJobId
    && s'.log.nonces == s.log.nonces
    && s'.log.broadcasts == s.log.broadcasts
    && (s'.phase == s.phase || (s.phase.Broadcasting? && (s'.phase.Broadcasting? || s'.phase.Idle?)))
  }

  lemma FrameJobs(s: State, s': State)
    requires JobInv(s) && SameJobs(s, s')
    ensures JobInv(s')
  {
  }

  /** The actions that touch neither jobs nor the loop's phase. */
  lemma MostActionsKeepJobs(cfg: Config, s: State, a: Action)
    requires Enabled(cfg, s, a)
    requires !a.RestoreLatest? && !a.RestoreHistory? && !a.Rotate? && !a.SaveJob? && !a.Snapshot? && !a.Restart?
    ensures SameJobs(s, Apply(cfg, s, a))
  {
  }

  lemma RestoreKeepsJobs(cfg: Config, s: State, a: Action)
    requires JobInv(s) && Enabled(cfg, s, a) && (a.RestoreLatest? || a.RestoreHistory?)
    ensures JobInv(Apply(cfg, s, a))
  {
  }

  lemma RotateKeepsJobs(s: State, nonce: string)
    requires JobInv(s) && s.phase == Idle && nonce != "" && nonce !in s.log.nonces
    ensures JobInv(AfterRotate(s, nonce))
  {
  }

  lemma SaveKeepsJobs(s: State)
    requires JobInv(s) && s.phase == Minted
    ensures JobInv(AfterSaveJob(s))
  {
  }

  lemma SnapshotKeepsJobs(s: State)
    requires JobInv(s) && s.phase == Saved
    ensures JobInv(AfterSnapshot(s))
  {
  }

  lemma JobInvStep(cfg: Config, s: State, a: Action)
    requires JobInv(s) && Enabled(cfg, s, a)
    ensures JobInv(Apply(cfg, s, a))
  {
    match a
    case RestoreLatest => RestoreKeepsJobs(cfg, s, a);
    case RestoreHistory => RestoreKeepsJobs(cfg, s, a);
    case Rotate(nonce) => RotateKeepsJobs(s, nonce);
    case SaveJob => SaveKeepsJobs(s);
    case Snapshot => SnapshotKeepsJobs(s);
    case Restart =>
    case _ =>
      MostActionsKeepJobs(cfg, s, a);
      FrameJobs(s, Apply(cfg, s, a));
  }
}
