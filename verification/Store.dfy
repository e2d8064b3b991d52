/** stats/memory.go: the in-memory store, first as a value with the operations on
    it, then as the object whose methods update its maps in place. */
module Store {
  import opened Types

  datatype UserState = UserState(latestJobId: int, latestNonce: string, lastSubmit: Instant)

  datatype StoreState = StoreState(
    counts: map<string, map<Instant, int>>,
    jobHist: map<int, JobRecord>,
    latestJobId: int,
    latestNonce: string,
    userStates: map<string, UserState>,
    used: map<string, map<int, set<string>>>)

  const EMPTY_STORE := StoreState(map[], map[], 0, "", map[], map[])

  // ----- statistics -----

  function CountAt(s: StoreState, user: string, minute: Instant): int {
    if user in s.counts && minute in s.counts[user] then s.counts[user][minute] else 0
  }

  function Incremented(s: StoreState, e: SubmitEvent): StoreState {
    var perUser := if e.username in s.counts then s.counts[e.username] else map[];
    var m := Truncate(e.time);
    var n := if m in perUser then perUser[m] else 0;
    s.(counts := s.counts[e.username := perUser[m := n + 1]])
  }

  /** One increment raises exactly one user's count in exactly one minute. */
  lemma IncrementRaisesOneCount(s: StoreState, e: SubmitEvent)
    ensures forall user, minute ::
      CountAt(Incremented(s, e), user, minute) == CountAt(s, user, minute) + Hit(e, user, minute)
  {
  }

  /** The store after a sequence of increments. */
  function IncrementedAll(s: StoreState, events: seq<SubmitEvent>): StoreState
    decreases |events|
  {
    if events == [] then s
    else Incremented(IncrementedAll(s, events[..|events| - 1]), events[|events| - 1])
  }

  /** What a query at any instant adds up to: the events of its user in its minute of the clock. */
  lemma {:induction false} QueryCountsMinute(s: StoreState, events: seq<SubmitEvent>, user: string, t: Instant)
    ensures CountAt(IncrementedAll(s, events), user, Truncate(t)) == CountAt(s, user, Truncate(t)) + InMinuteOf(events, user, t)
  {
    if events != [] {
      var front, e := events[..|events| - 1], events[|events| - 1];
      QueryCountsMinute(s, front, user, t);
      IncrementRaisesOneCount(IncrementedAll(s, front), e);
      TruncateIsMinute(e.time, t);
    }
  }

  // ----- jobs -----

  function WithJob(s: StoreState, id: int, nonce: string, at: Instant): StoreState {
    s.(latestJobId := id, latestNonce := nonce, jobHist := s.jobHist[id := JobRecord(nonce, at)])
  }

  /** Go's zero `JobRecord` stands for a missing one. */
  function LatestRecord(s: StoreState): JobRecord {
    if s.latestJobId in s.jobHist then s.jobHist[s.latestJobId] else JobRecord("", ZERO_TIME)
  }

  predicate InWindow(rec: JobRecord, since: int, now: Instant) {
    since == 0 || rec.createdAt > now - since
  }

  function HistorySince(s: StoreState, since: int, now: Instant): map<int, JobRecord> {
    map id | id in s.jobHist && InWindow(s.jobHist[id], since, now) :: s.jobHist[id]
  }

  // ----- user state and used nonces -----

  function UserStateOf(s: StoreState, user: string): UserState {
    if user in s.userStates then s.userStates[user] else UserState(0, "", ZERO_TIME)
  }

  function WithUserState(s: StoreState, user: string, us: UserState): StoreState {
    s.(userStates := s.userStates[user := us])
  }

  predicate HasUsed(s: StoreState, user: string, jobId: int, nonce: string) {
    user in s.used && Recorded(s.used[user], jobId, nonce)
  }

  function WithUsedNonce(s: StoreState, user: string, jobId: int, nonce: string): StoreState {
    var u := if user in s.used then s.used[user] else map[];
    var m := if jobId in u then u[jobId] else {};
    s.(used := s.used[user := u[jobId := m + {nonce}]])
  }

  /** Recording a nonce adds that one triple to the index and nothing else. */
  lemma UsedNonceAddsOneTriple(s: StoreState, user: string, jobId: int, nonce: string)
    ensures forall v, k, x ::
      HasUsed(WithUsedNonce(s, user, jobId, nonce), v, k, x)
      <==> HasUsed(s, v, k, x) || (v == user && k == jobId && x == nonce)
  {
  }

  // ----- the object -----

  class MemoryStore {
    var counts: map<string, map<Instant, int>>
    var jobHist: map<int, JobRecord>
    var latestJobId: int
    var latestNonce: string
    var userStates: map<string, UserState>
    var used: map<string, map<int, set<string>>>

    function View(): StoreState
      reads this
    {
      StoreState(counts, jobHist, latestJobId, latestNonce, userStates, used)
    }

    constructor ()
      ensures View() == EMPTY_STORE
    {
      counts, jobHist, latestJobId, latestNonce, userStates, used := map[], map[], 0, "", map[], map[];
    }

    method Increment(username: string, minute: Instant)
      modifies this
      ensures View() == Incremented(old(View()), SubmitEvent(username, minute))
      ensures forall u, m ::
        CountAt(View(), u, m) == CountAt(old(View()), u, m) + Hit(SubmitEvent(username, minute), u, m)
      ensures forall u, t ::
        CountAt(View(), u, Truncate(t)) == CountAt(old(View()), u, Truncate(t))
          + (if u == username && minute / 60_000_000_000 == t / 60_000_000_000 then 1 else 0)
    {
      var m := Truncate(minute);
      if username !in counts {
        counts := counts[username := map[]];
      }
      var u := counts[username];
      var n := if m in u then u[m] else 0;
      counts := counts[username := u[m := n + 1]];
      assert View() == Incremented(old(View()), SubmitEvent(username, minute));
      IncrementRaisesOneCount(old(View()), SubmitEvent(username, minute));
      forall u, t
        ensures Hit(SubmitEvent(username, minute), u, Truncate(t))
             == (if u == username && minute / 60_000_000_000 == t / 60_000_000_000 then 1 else 0)
      {
        TruncateIsMinute(minute, t);
      }
    }

    method Get(username: string, minute: Instant) returns (n: int)
      ensures n == CountAt(View(), username, Truncate(minute))
      ensures forall events :: counts == IncrementedAll(EMPTY_STORE, events).counts ==> n == InMinuteOf(events, username, minute)
    {
      forall events | counts == IncrementedAll(EMPTY_STORE, events).counts
        ensures CountAt(View(), username, Truncate(minute)) == InMinuteOf(events, username, minute)
      {
        QueryCountsMinute(EMPTY_STORE, events, username, minute);
      }
      var m := Truncate(minute);
      if username !in counts {
        return 0;
      }
      var u := counts[username];
      n := if m in u then u[m] else 0;
    }

    method SaveJob(id: int, nonce: string, createdAt: Instant)
      modifies this
      ensures View() == WithJob(old(View()), id, nonce, createdAt)
    {
      latestJobId := id;
      latestNonce := nonce;
      jobHist := jobHist[id := JobRecord(nonce, createdAt)];
    }

    method LoadLatestJob() returns (id: int, rec: JobRecord)
      ensures id == latestJobId && rec == LatestRecord(View())
      ensures rec == if id in jobHist then jobHist[id] else JobRecord("", 0)
    {
      rec := if latestJobId in jobHist then jobHist[latestJobId] else JobRecord("", ZERO_TIME);
      id := latestJobId;
    }

    /** The loop over the history map, in whatever order the map yields its keys. */
    method LoadJobHistory(since: int, now: Instant) returns (out: map<int, JobRecord>)
      ensures out == HistorySince(View(), since, now)
      ensures forall id :: id in out <==> id in jobHist && (since == 0 || now - jobHist[id].createdAt < since)
      ensures forall id :: id in out ==> out[id] == jobHist[id]
      ensures since == 0 ==> out == jobHist
    {
      out := map[];
      var cutoff := now - since;
      var todo := jobHist.Keys;
      while exists id :: id in todo
        invariant todo <= jobHist.Keys
        invariant out == map id | id in jobHist.Keys - todo && InWindow(jobHist[id], since, now) :: jobHist[id]
        decreases |todo|
      {
        var id :| id in todo;
        var rec := jobHist[id];
        if since == 0 || rec.createdAt > cutoff {
          out := out[id := rec];
        }
        todo := todo - {id};
      }
    }

    method LoadUserState(username: string) returns (us: UserState)
      ensures us == UserStateOf(View(), username)
      ensures us == if username in userStates then userStates[username] else UserState(0, "", 0)
    {
      us := if username in userStates then userStates[username] else UserState(0, "", ZERO_TIME);
    }

    method SaveUserState(username: string, jobId: int, nonce: string, lastSubmitAt: Instant)
      modifies this
      ensures View() == WithUserState(old(View()), username, UserState(jobId, nonce, lastSubmitAt))
    {
      userStates := userStates[username := UserState(jobId, nonce, lastSubmitAt)];
    }

    method SaveUsedNonce(username: string, jobId: int, nonce: string)
      modifies this
      ensures View() == WithUsedNonce(old(View()), username, jobId, nonce)
    {
      if username !in used {
        used := used[username := map[]];
      }
      var u := used[username];
      var m := if jobId in u then u[jobId] else {};
      used := used[username := u[jobId := m + {nonce}]];
    }

    method HasUsedNonce(username: string, jobId: int, nonce: string) returns (b: bool)
      ensures b <==> HasUsed(View(), username, jobId, nonce)
    {
      var u := if username in used then used[username] else map[];
      var m := if jobId in u then u[jobId] else {};
      b := nonce in m;
    }
  }

  // ----- the SQL upsert of stats/pg.go -----

  /** The row after one upsert `excluded.submission_count + 1`, where `excluded` is the
      proposed row and always carries 1. */
  function UpsertAsWritten(row: Option<int>): int {
    if row.None? then 1 else 1 + 1
  }

  /** The row after one upsert `submissions.submission_count + 1` of stats/schema.sql. */
  function UpsertOfSchema(row: Option<int>): int {
    if row.None? then 1 else row.value + 1
  }

  function Upserts(n: nat, upsert: Option<int> -> int): Option<int> {
    if n == 0 then None else Some(upsert(Upserts(n - 1, upsert)))
  }

  /** The SQL store agrees with the in-memory one up to two submissions a minute and
      never beyond; the statement documented in the schema agrees always. */
  lemma {:induction false} UpsertAgreesUpToTwo(n: nat)
    requires n > 0
    ensures Upserts(n, UpsertAsWritten) == Some(if n < 2 then n else 2)
    ensures Upserts(n, UpsertAsWritten) == Upserts(n, UpsertOfSchema) <==> n <= 2
    ensures Upserts(n, UpsertOfSchema) == Some(n)
  {
    if n > 1 {
      UpsertAgreesUpToTwo(n - 1);
    }
  }
}
