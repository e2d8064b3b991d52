/** The records that the server, the stores and the client exchange, and the
    clock they share.  An instant counts nanoseconds since Go's zero time, so
    `0` is the zero `time.Time` and truncation to a minute is truncation of the count. */
module Types {

  type Instant = int
  type ChannelId = string

  const SECOND: int := 1_000_000_000
  const MINUTE: int := 60_000_000_000
  const ZERO_TIME: Instant := 0

  /** `time.Time.Truncate(time.Minute)`. */
  function Truncate(t: Instant): Instant {
    t - t % MINUTE
  }

  datatype Option<+T> = None | Some(value: T)

  datatype JobRecord = JobRecord(nonce: string, createdAt: Instant)

  /** A job as a `job` message carries it. */
  datatype Job = Job(id: int, nonce: string)

  datatype SubmitParams = SubmitParams(jobId: int, clientNonce: string, result: string)

  datatype SubmitEvent = SubmitEvent(username: string, time: Instant)

  datatype Session = Session(
    channelId: ChannelId,
    username: string,
    latestJobId: int,
    latestServerNonce: string,
    lastSubmitAt: Instant,
    usedNonces: map<int, set<string>>)

  /** A session as `RegisterSession` creates it: Go's zero values everywhere. */
  function NewSession(ch: ChannelId, user: string): Session {
    Session(ch, user, 0, "", ZERO_TIME, map[])
  }

  /** Membership in a two-level index `map[int]map[string]struct{}`. */
  predicate Recorded(index: map<int, set<string>>, jobId: int, nonce: string) {
    jobId in index && nonce in index[jobId]
  }

  /** Two instants fall in the same minute of the clock exactly if they truncate to the same. */
  lemma TruncateIsMinute(t: Instant, u: Instant)
    ensures Truncate(t) == Truncate(u) <==> t / 60_000_000_000 == u / 60_000_000_000
    ensures Truncate(Truncate(t)) == Truncate(t) && Truncate(t) <= t < Truncate(t) + 60_000_000_000
  {
  }

  /** The number of events of one user in one minute. */
  function Tally(events: seq<SubmitEvent>, user: string, minute: Instant): (n: nat) {
    if events == [] then 0
    else Tally(events[..|events| - 1], user, minute) + Hit(events[|events| - 1], user, minute)
  }

  function Hit(e: SubmitEvent, user: string, minute: Instant): nat {
    if e.username == user && Truncate(e.time) == minute then 1 else 0
  }

  /** The number of events of one user in the minute of the clock in which `t` falls. */
  function InMinuteOf(events: seq<SubmitEvent>, user: string, t: Instant): (n: nat) {
    if events == [] then 0
    else
      var e := events[|events| - 1];
      InMinuteOf(events[..|events| - 1], user, t)
      + if e.username == user && e.time / 60_000_000_000 == t / 60_000_000_000 then 1 else 0
  }

  lemma {:induction false} TallyIsInMinuteOf(events: seq<SubmitEvent>, user: string, t: Instant)
    ensures Tally(events, user, Truncate(t)) == InMinuteOf(events, user, t)
  {
    if events != [] {
      TallyIsInMinuteOf(events[..|events| - 1], user, t);
      TruncateIsMinute(events[|events| - 1].time, t);
    }
  }

  lemma {:induction false} TallyConcat(a: seq<SubmitEvent>, b: seq<SubmitEvent>, user: string, minute: Instant)
    ensures Tally(a + b, user, minute) == Tally(a, user, minute) + Tally(b, user, minute)
  {
    if b == [] {
      assert a + b == a;
    } else {
      assert (a + b)[..|a + b| - 1] == a + b[..|b| - 1];
      TallyConcat(a, b[..|b| - 1], user, minute);
    }
  }

  lemma TallySingle(e: SubmitEvent, user: string, minute: Instant)
    ensures Tally([e], user, minute) == Hit(e, user, minute)
  {
    assert [e][..0] == [];
    assert Tally([e][..0], user, minute) == 0;
  }
}
