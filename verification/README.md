# A verified model of KuPool's server, client and transport

KuPool hands out jobs over long-lived TCP connections and counts the answers. A coordinator
rotates a job every interval, stores it and broadcasts it; an acceptor registers a session and
restores the user's saved state; a listener checks each submission (known job, not expired, not
too frequent, not a duplicate, right hash), saves its verdict and queues an event; a consumer
turns events into per-minute counts. Below it a bounded write buffer feeds a length-prefixed
frame codec, and at the other end a client loop answers every job.

## How the model is built

- `Protocol.dfy` is the server as a transition system. Every atomic piece of the coordinator's
  loop, of a connection's goroutine, of the listener and of the consumer is one action, they
  interleave in every order, and a run may restart the process any number of times on the same
  store. The loop over a broadcast's snapshot is taken apart into one action for each session,
  which allows more interleavings than the lock does. The `Log` component records history only.
- `Answers.dfy` says what a client is told, in words and numbers and without the model's own terms.
- `Jobs`, `Sessions`, `Pairs`, `Nonces`, `Rates` and `Accounting` hold the inductive invariants,
  `Theorems.dfy` what follows from them for every reachable state and every run.
- `Store`, `Queue`, `Coordinator`, `App`, `Server`, `Channel`, `Wire` and `Client` hold the same code
  as objects updated in place. Each method is proved to take the abstract state exactly through the
  actions it stands for. `App.dfy` carries out every action on the objects, and so every run with
  its restarts (`Application.Run`): the theorems speak about the objects. `Server.dfy` runs one
  connection and the goroutines of its requests among whatever the other goroutines do.
- `EndToEnd.dfy` runs the server and the write buffer of one connection together and puts the codec
  behind them; `Honest.dfy` composes the server with a client that follows its own loop over the
  coordinator's pushes; `Line.dfy` proves that server, buffer, frames, a broken stream and the client
  together are such a composition; `Witnesses.dfy` has runs on which the code falls short of its
  intent, for every configuration and digest for which they can.
- `Config` has four flags, all off for the code as written (`AsWritten`); each turns on one repair.

An instant counts nanoseconds since Go's zero time. The clock does not go back and is never zero.
The SHA-256 digest (section 6.2 of FIPS 180-4) is an arbitrary function, a field of `Config`.
Channel ids, server nonces and client nonces are fresh random values, server nonces not empty.
Store calls succeed, as those of the in-memory store do. `handleSubmit` is one step, although the
code locks only its lookup. `Publish` and `Close` of `MemoryQueue` are one step each, while a
channel's `Push` is a test and a send and its `Close` the closing of the Go channel and the firing of
the event, with anything in between. Counts are keyed by instant, while
Go's map key also compares the location of a time. Integers do not wrap.

## Where the code and its intent part

Each item names the exact condition under which the code keeps the intent, a run on which it does
not, and, where `Config` has one, the repair, under which the same theorems give the full property.

- app/server/listener.go:58 overwrites the session's nonce with an old job's and keeps the latest
  job's number, even when the submission is then rejected: `Theorems.CoherentIffUntainted`,
  `Theorems.WhatTaintsAndClears`, `Theorems.AcceptedMeansCorrect`, `Honest.LateSubmissionPoisons`,
  the run `Witnesses.HonestClientRejected`. Repair `localNonce`.
- `HasUsedNonce` is never called, so duplicates are found per session only:
  `Theorems.DuplicateIffSameSession`, `Theorems.NothingAcceptedTwice`, the run
  `Witnesses.ReplayAfterReconnect`. Repair `perUserNonces`.
- A session that has heard of no job holds job 0, and job 0 passes the lookup:
  `Theorems.JobZeroAcceptedIff`, `Theorems.AcceptedJobIsKnown`, the runs `Witnesses.JobZeroAccepted`
  and, against an old job's nonce, `Witnesses.JobZeroAcceptedAgainstOldNonce`. Repair
  `refuseJobZero`: `Theorems.EveryAcceptedJobWasIssued`.
- README.md:117 says that history window 0 restores only the latest job; the code restores every
  job: `Theorems.WindowZeroRestoresAll`, the run `Witnesses.WindowZeroRestoresTwo`. Repair
  `latestOnlyAtZero`.
- "Task expired" is not for good while the job's broadcast has still to reach the session:
  `Theorems.ExpiredForGoodIffBroadcastOver`, the run `Witnesses.ExpiredThenAccepted`.
- The one-second limit is checked against the session's own time, so a user with two sessions escapes
  it: `Theorems.UserRateLimitIff` and `Theorems.SavedTimeIsExact` say exactly when, by the time
  that `LoadUserState` returns; the run `Witnesses.TwoSessionsDoubleTheRate`.
- A submission may be accepted between the minting of its job and the save; after a crash there the
  number is issued again with another nonce: `Theorems.EarlyAcceptanceNeedsSave`, the run
  `Witnesses.AcceptedForALostNonce`.
- `Shutdown` stops the consumer before it closes the queue, which strands what is queued or still
  accepted: `Theorems.StoppedConsumerStrandsTheRest`, the run `Witnesses.AcceptedAfterStop`.
- A push that has passed the test panics if the Go channel is closed before its send:
  `Channel.ChannelImpl.Push` panics exactly then.
- stats/pg.go:42 counts at most two submissions a minute: `Store.UpsertAgreesUpToTwo`.

## Model

| member | source | states |
|---|---|---|
| Theorems.Always | app/server/coordinator.go:27-128 | every invariant of jobs, sessions, pairs, nonces, rates, expiry and counts holds after every run |
| Theorems.Conservation | app/server/listener.go:83-89 | accepted submissions of a user in a minute equal the stored count plus those in the consumer's hand, buffered, waiting to be sent, crashed by or dropped after the close, and lost to restarts |
| Theorems.DrainedCountsAreExact | stats/memory.go:32-54 | queries of every user at every instant give exactly the number of submissions accepted in that minute of the clock, of 60,000,000,000 ns, if and only if nothing is in hand, outstanding, dropped or lost |
| Theorems.WhereAnEventGoes | mq/memory.go:15-23 | an accepted submission's event joins the buffer while fewer than the configured number are in it, waits otherwise, and is dropped after the close |
| Theorems.CountsCanBecomeExact | app/server/server.go:44-65 | while the consumer runs, its own actions can catch up, with the queue open or closed, and the counts then are exact if and only if nothing was crashed, dropped or lost |
| Theorems.StoppedConsumerStrandsTheRest | app/server/server.go:70-85 | after the consumer has stopped no count changes until a restart and what is accepted joins the outstanding events in order; the counts end up exact if and only if nothing was outstanding or lost then and nothing is accepted after |
| Theorems.RestartSafety | app/server/coordinator.go:41-104 | over any number of restarts and crashes broadcast ids strictly increase, no id goes out with two nonces, and the stored nonce is the broadcast one |
| Theorems.StoredJobIsForever | stats/memory.go:59-66 | along every run a stored job is never lost and its record never changes |
| Theorems.RestoreIsExact | app/server/coordinator.go:108-128 | whatever comes between the two loads, after restore the current job is the greatest stored one and the history is that job and all stored jobs younger than the window, by their age in numbers, record for record |
| Theorems.WindowZeroRestoresAll | app/server/coordinator.go:120-127 | window 0 restores every stored job, so only the latest exactly if no other is stored; the repaired restore always only the latest |
| Theorems.RestartNeverExpiresSooner | app/server/coordinator.go:65-76 | along every run with any restarts, a job in the history now and later is expired later only where its record now is, and once stored keeps its nonce |
| Theorems.CoherentIffUntainted | app/server/listener.go:56-65 | a session's (job, nonce) is the issued pair of that job exactly when no history lookup tainted it since the last broadcast or clean restore; its nonce is always empty or an issued one |
| Theorems.WhatTaintsAndClears | app/server/listener.go:57-58 | a broadcast leaves the session with an issued (job, nonce) pair; a submission does exactly if it had one and the submission did not go through the history, whatever the verdict |
| Theorems.RestoreCarriesTaint | app/server/acceptor.go:58-64 | the restore finds its session, and taints it exactly when the user's saved pair is not an issued one |
| Theorems.AcceptedMeansCorrect | app/server/listener.go:56-82 | an accepted submission for a broadcast job was checked against that job's own nonce exactly unless the job is the latest of a tainted session; with the local nonce always |
| Theorems.LoggedAcceptancesAreCorrect | app/server/listener.go:78-82 | the same of every acceptance ever made, in every later state; one made before its job was saved was checked against the nonce minted for that job, which no other job is ever stored with |
| Theorems.EarlyAcceptanceNeedsSave | app/server/coordinator.go:65-76 | from an acceptance between minting and saving, along every run: the nonce it was checked against is the stored one of its job if and only if the save came before the first restart; if a restart came first, no job is ever stored with that nonce |
| Theorems.SessionNeverGoesBack | app/server/acceptor.go:54-67 | along every run, from the end of its accept a session's job number never decreases |
| Theorems.BroadcastStrictlyRaises | app/server/coordinator.go:84-101 | a broadcast strictly raises every session that was accepted when it began |
| Theorems.SavedUsersAreBehind | app/server/listener.go:85-88 | no saved user state is ahead of the saved latest job |
| Theorems.JobFramesIncrease | app/server/coordinator.go:93-100 | the job frames pushed on one connection have strictly increasing ids |
| Theorems.SessionRateLimit | app/server/listener.go:66-69 | acceptances on one session are at least 1,000,000,000 ns apart |
| Theorems.NeverTooFrequentASecondLater | app/server/listener.go:66-69 | a submission that comes a second or more after all acceptances of its user is never told too frequent |
| Theorems.TooFrequentWithinASecond | app/server/listener.go:66-69 | within a second of an acceptance on the same session it is, unless it is refused for its job |
| Theorems.UserRateLimitIff | app/server/listener.go:66-88 | along every run, over any sessions, reconnects and restarts, a user's acceptances are a second apart if and only if each came a second after the time then saved for the user |
| Theorems.SavedTimeIsExact | stats/memory.go:88-104 | in every state all of a user's acceptances are a second past if and only if the saved time is absent or a second past |
| Theorems.UserRateLimit | app/server/acceptor.go:54-67 | for a user with one session at a time the one-second gap survives reconnects and restarts through the saved state |
| Theorems.AtMostSixtyCounted | stats/memory.go:32-54 | for such a user no minute's stored count ever exceeds 60, and no more are accepted in any minute of the clock |
| Theorems.DuplicatesAreExact | stats/memory.go:106-130 | a session's used nonces are exactly those accepted on it; the store's index of a user is exactly the union over all that user's sessions |
| Theorems.NothingAcceptedTwice | app/server/listener.go:70-83 | no (job, nonce) is accepted twice on a session; with the repaired check, for a user |
| Theorems.DuplicateIffSameSession | app/server/listener.go:56-82 | the whole verdict in terms of past acceptances: a duplicate exactly if the pair was accepted on this same session, or with the repaired check for this user |
| Theorems.Lifecycle | tcp/server.go:76-107 | the lookup after registration always finds its session, an id is never met twice in the channel map, each channel has a session, and both maps are empty once all connections have ended |
| Theorems.ExpiryIsPermanent | app/server/listener.go:56-65 | a job that a session was told is expired, its broadcast to the session being over, is never accepted on that session again |
| Theorems.ExpiredStaysExpired | app/server/listener.go:56-65 | the same along every run, from the verdict to any later state |
| Theorems.BroadcastRevivesJob | app/server/coordinator.go:84-101 | where the broadcast is not over, a job just told to be expired is accepted, however old, once the rest of the broadcast has reached the session |
| Theorems.ExpiredForGoodIffBroadcastOver | app/server/listener.go:56-65 | a verdict "expired" is never followed by an acceptance of the job on the session, on any run, if and only if the broadcast of the job to the session is over |
| Theorems.ExpiredExactlyWhenOlder | app/server/listener.go:57-61 | on every run from the rotation that mints a job, while the process lasts, a session with another latest job is told "expired" if and only if expiry is on and more than `expireAfter` has passed since the rotation |
| Theorems.SavedAgeIsForever | app/server/coordinator.go:73-75 | the age that a job has after any restart counts from the instant of its save |
| Theorems.AcceptedJobIsKnown | app/server/listener.go:56-64 | an accepted job has been issued exactly unless it is job 0; with the repair always |
| Theorems.JobZeroAcceptedIff | app/server/listener.go:56-82 | job 0 is accepted if and only if the session has heard of no job and the other checks pass against the nonce it holds, which is empty exactly unless a history lookup has left another there |
| Theorems.EveryAcceptedJobWasIssued | app/server/listener.go:56-64 | with the repair every acceptance ever made is of a job that is stored or, if it came early, was minted |
| Jobs.JobInvStep | app/server/coordinator.go:65-128 | every action keeps the numbering of jobs in memory, store and broadcasts consistent |
| Sessions.LifeInvStep | app/server/acceptor.go:54-67 | every action keeps sessions, connections and channel map in step |
| Sessions.NumberInvStep | app/server/coordinator.go:84-101 | every action keeps sessions and saved users at or behind the broadcasts |
| Sessions.ToldInvStep | app/server/coordinator.go:93-100 | every action keeps the pushed jobs increasing and, for live sessions, in the history with their nonces |
| Pairs.PairInvStep | app/server/listener.go:56-88 | every action keeps each session's and each saved user's pair coherent exactly when untainted |
| Pairs.AcceptInvStep | app/server/listener.go:78-82 | every action keeps each logged acceptance tied to its job's own nonce, or to the nonce minted for it |
| Pairs.ExpiryInvStep | app/server/listener.go:57-61 | every action keeps what was told to be expired expired |
| Nonces.UsedInvStep | app/server/listener.go:70-88 | every action keeps both indexes equal to the accepted pairs, and nothing repeated |
| Rates.RateInvStep | app/server/listener.go:66-88 | every action keeps the one-second gap and what the session and the store remember of it |
| Rates.SavedInvStep | app/server/listener.go:85-88 | every action keeps the time saved for a user that of one of the user's acceptances |
| Rates.SoloInvStep | app/server/acceptor.go:58-64 | every action from a state where the user has at most one session keeps that user's gap across sessions |
| Rates.SixtyPerMinute | stats/memory.go:32-43 | submissions a second apart are at most 60 in a truncated minute |
| Accounting.CountInvStep | app/server/server.go:53-62 | every action keeps the balance of accepted, counted and uncounted events |
| Honest.HonestVerdict | app/server/listener.go:49-92 | the verdict on an answer to a job pushed on the connection, with or without the repairs: expired, too frequent, duplicate only for a pair the user has used, invalid exactly for the latest job against a differing nonce, else accepted |
| Honest.LateSubmissionPoisons | app/server/listener.go:57-61 | as written, one submission for an older job, whatever its verdict, makes an honest answer to the latest job invalid exactly when the digests differ |
| Honest.WorldAlways | app/client/client.go:84-122 | in the composition the client has read a prefix of the pushed jobs, its nonces are distinct, and what was accepted are its own handled requests |
| Honest.HonestClientVerdict | app/client/client.go:84-122 | under every interleaving and configuration the exact verdict on each request of an honest client, the latest job of a tainted session included |
| Honest.HonestClientFailsOnlyForTiming | app/client/client.go:84-122 | with the local nonce, and with both repairs together, such a client is only ever told too frequent or expired, and exactly when it is so; as written except for the latest job of a tainted session |
| Line.JointRunIsPlay | app/client/client.go:84-122 | every joint run of server, channel, frames, a stream that delivers any part of what was written, and client is a run of that composition |
| Line.ClientOnTheLine | app/client/client.go:84-122 | hence over the whole line such a client fails only for its timing |
| Witnesses.HonestClientRejected | app/server/listener.go:58 | for every digest that tells the two apart, a run of the code as written on which an honest client is told "Invalid result" |
| Witnesses.ReplayAfterReconnect | app/server/acceptor.go:65 | a run of the code as written on which one user's same job and nonce are accepted twice |
| Witnesses.TwoSessionsDoubleTheRate | app/server/listener.go:67 | a run on which one user with two sessions has two submissions accepted at one instant |
| Witnesses.JobZeroAccepted | app/server/listener.go:56 | a run of the code as written on which job 0 is accepted |
| Witnesses.JobZeroAcceptedAgainstOldNonce | app/server/listener.go:56-58 | a run on which job 0 is accepted against the nonce of a job looked up before |
| Witnesses.ExpiredThenAccepted | app/server/coordinator.go:96-98 | with any expiry, a run on which a session is told that a job is expired and then has it accepted |
| Witnesses.WindowZeroRestoresTwo | app/server/coordinator.go:120-127 | a run on which a restart with window 0 brings back two jobs |
| Witnesses.AcceptedAfterStop | app/server/server.go:70-85 | a run on which a submission is accepted after the consumer stopped and the counts stay inexact |
| Witnesses.AcceptedForALostNonce | app/server/coordinator.go:65-76 | a run on which a job is accepted against a nonce that a crash loses, and its number is issued with another |
| Witnesses.AJobGetsThrough | channel.go:47-84 | a run and an encoding on which a client reads a job: the premises of the end-to-end theorem can be met |
| Listener.FoldIsCapitals | app/server/listener.go:80-81 | against a text without capitals the comparison accepts exactly that text with any of its letters capitalised |
| Listener.UsedNoncesAfter | app/server/listener.go:70-83 | only an accepted submission adds to a session's used nonces, and only its own |
| Answers.AnswerIsExact | app/server/listener.go:24-92 | in every reachable state the code as written answers a submission, check by check in numbers and words, with exactly the text of the first check that fails, and with success if none does |
| Answers.NextAnswer | app/server/listener.go:24-47 | when a submission's goroutine runs, that answer is pushed on its connection behind all that were pushed before |
| Answers.WhichRequestsAreAnswered | app/server/listener.go:24-47 | exactly the requests with method "submit" and an id are answered, under that id; bad parameters get "Invalid result" and change nothing; only a decoded submission changes anything |
| Answers.AcceptedResultIsDigest | app/server/listener.go:78-82 | an accepted result without capitals is exactly the digest of the nonce and the client's nonce |
| Answers.DigestIsNeverInvalid | app/server/listener.go:78-82 | the digest, with any of its letters capitalised, is never told invalid |
| Coordination.LiveSession.Judge | app/server/listener.go:56-84 | the checks in their order give the specified verdict and leave the specified session, for every verdict; an accepted result is the digest up to capitals, an invalid one is not |
| Coordination.Coordinator.HandleSubmit | app/server/listener.go:49-92 | lookup, verdict, saving and publishing are exactly the submit action, and touch no other session; an accepted result is the digest up to capitals |
| Coordination.Coordinator.RegisterSession | app/server/coordinator.go:27-31 | exactly the register action; a new session object, all others kept |
| Coordination.Coordinator.UnregisterSession | app/server/coordinator.go:33-37 | exactly the disconnect action |
| Coordination.Coordinator.RotateJob | app/server/coordinator.go:65-76 | exactly the mint and save actions with the two clock readings |
| Coordination.RotationIsARun | app/server/coordinator.go:65-76 | a rotation with a fresh nonce is a run of the transition system |
| Coordination.Coordinator.BroadcastJob | app/server/coordinator.go:84-101 | a run of snapshot, one delivery for each session in any order, and end; all sessions then hold the current job, and exactly that job was pushed once on each session's open channel and nothing on any other |
| Coordination.Coordinator.Merge | app/server/coordinator.go:123-125 | the loop over restored records overrides the history with them |
| Coordination.Coordinator.Restore | app/server/coordinator.go:108-128 | exactly the two restore actions |
| Coordination.AuthorizedIff | app/server/acceptor.go:28-49 | a frame logs somebody in exactly if it is binary and holds an "authorize" request with an id and a user name that is not empty |
| Coordination.Coordinator.Vet | app/server/acceptor.go:22-53 | joined exactly with such a frame and an identifier; otherwise refused, with "invalid opcode" and "unauthorized" in their cases |
| Coordination.Coordinator.Accept | app/server/acceptor.go:22-73 | joined exactly with such a frame and an identifier: then exactly register and restore, under the frame's user, answered with success under its id; otherwise nothing changes |
| Coordination.Coordinator.RestoreUserState | app/server/acceptor.go:55-67 | exactly the restore-user action |
| Coordination.Pusher.Push | tcp/server.go:146-152 | fails exactly for a channel not in the map or closed; otherwise the job joins those pushed there |
| Coordination.SuccessMeansAccepted | app/server/listener.go:37-46 | a response has no error exactly if the request added an acceptance, and otherwise nothing was stored |
| Coordination.Coordinator.Receive | app/server/listener.go:24-47 | what does not decode, is no submission or has no id is passed over; the response has no error exactly if the submission was accepted; the state takes exactly the submit action |
| Coordination.Consume | app/server/server.go:45-65 | with the stop signal or the cancellation chosen after any number of events, exactly that many of the oldest are counted, each once in its minute, and the others stay in order; otherwise all are, and it returns on a closed queue and waits at an open one |
| Application.AppServer.Perform | app/server/server.go:44-68 | every action but the restart is carried out by the objects exactly, with its verdict |
| Application.Run | app/server/server.go:44-68 | every run of the transition system, restarts included, is carried out by the objects: they end up standing for its last state and have given its verdicts |
| TcpServer.Server.Readloop | channel.go:116-147 | the loop over frames, a goroutine for each request run at any later time and in any order, and anything happening elsewhere meanwhile: the objects end up standing for what the turns come to |
| TcpServer.EachAnsweredOnce | channel.go:116-147 | whatever the order and whatever happens elsewhere, each submit request read with an id has been answered once under it or is still pending, and nothing else is answered |
| TcpServer.PongsAndTheEnd | channel.go:132-143 | each ping read is answered by one pong and the loop goes on; it returns exactly at the first end or close frame and reads nothing after it |
| TcpServer.ConversationIsARun | channel.go:116-147 | such a conversation is a run of its submissions in the order their goroutines run, among everything else |
| TcpServer.Server.Serve | tcp/server.go:76-107 | a connection among all others, from accept to close, takes the objects exactly through its life; a refusal changes nothing; the close frames and the login reply are those of each case |
| TcpServer.NothingStays | tcp/server.go:76-107 | whatever happens elsewhere, a served connection leaves no session and no channel and its channel closed; one told that its id is in use, exactly when it is, leaves its session |
| TcpServer.AloneLeavesMaps | tcp/server.go:76-107 | a connection that is alone leaves every other session and the channel map as they were |
| TcpServer.LifeIsARun | tcp/server.go:76-107 | with a fresh id the life of a connection among all others is a run of the transition system |
| Types.TruncateIsMinute | stats/memory.go:35 | two instants truncate to the same exactly if they fall in the same 60,000,000,000 ns of the clock |
| Store.QueryCountsMinute | stats/memory.go:32-54 | after any increments a query at any instant gives the number of events of its user in its minute of the clock |
| Store.IncrementRaisesOneCount | stats/memory.go:32-43 | an increment raises one user's count in one minute by one and no other |
| Store.UsedNonceAddsOneTriple | stats/memory.go:106-121 | recording a nonce adds one triple to the nested index and nothing else |
| Store.MemoryStore.Increment | stats/memory.go:32-43 | the in-place nested map update raises by one what that user's queries in the same minute of the clock give, and no other |
| Store.MemoryStore.Get | stats/memory.go:45-54 | after any increments, the number of the user's events in that minute of the clock; 0 where there is none |
| Store.MemoryStore.SaveJob | stats/memory.go:59-66 | stores the record and moves the latest pointer |
| Store.MemoryStore.LoadLatestJob | stats/memory.go:68-73 | the latest id with its record, or zero values |
| Store.MemoryStore.LoadJobHistory | stats/memory.go:75-86 | the loop returns exactly the records whose age is less than the window, all of them for window 0 |
| Store.MemoryStore.LoadUserState | stats/memory.go:88-93 | the saved state, or zero values |
| Store.MemoryStore.SaveUserState | stats/memory.go:95-104 | replaces that user's state only |
| Store.MemoryStore.SaveUsedNonce | stats/memory.go:106-121 | adds the nonce to the nested index |
| Store.MemoryStore.HasUsedNonce | stats/memory.go:123-130 | membership in the nested index, missing levels included |
| Store.UpsertAgreesUpToTwo | stats/pg.go:36-52 | n upserts as written give min(n, 2), which agrees with the schema's statement exactly up to 2 |
| Queue.FirstInFirstOut | mq/memory.go:19-32 | over every history of publishes, receives and closes, what was received followed by what is held, crashed or dropped is what was published, in order |
| Queue.MemoryQueue.Publish | mq/memory.go:19-23 | appends, waits in order when full, drops when closed |
| Queue.MemoryQueue.Receive | mq/memory.go:25-27 | takes the oldest event and lets one waiting sender in; an empty queue is told as drained when closed and as one to wait at when open |
| Queue.MemoryQueue.Close | mq/memory.go:29-32 | closes once; waiting senders crash |
| Channel.OrderedDelivery | channel.go:47-99 | on every run with pushes on a full buffer, either half of a close between the halves of a push, and write errors at any moment the non-empty payloads written are a prefix of those the channel took, while the writer lives the rest is buffered, at most five, waiting behind five, or crashed by the close, and the measured inner loop never blocks |
| Channel.LoopLivesUntilFired | channel.go:47-73 | if no write fails the write loop returns only once the close event has fired |
| EndToEnd.WrittenJobsIncrease | channel.go:47-84 | on every joint run of server and channel the job frames that leave a connection are a prefix of those the coordinator pushed, with strictly increasing ids, and none is missing that the channel does not hold while the write loop lives |
| Channel.ChannelImpl.Push | channel.go:77-84 | with anything between the test and the send: refused exactly when the event has fired, panics exactly when the channel is closed by the send, otherwise appended, or waiting in turn when the buffer is full |
| Channel.ChannelImpl.Close | channel.go:93-99 | closes once, with anything between the closing and the event; waiting pushes crash |
| Channel.ChannelImpl.WriteRound | channel.go:50-66 | one turn, with pushes and the close between its statements and a failure at any write, is a run of the channel; without failure it writes all that the buffer held, in order, and with one exactly what comes before it |
| Codec.DecodeEncoded | wire/endian/helper.go:15-48 | a value that fits a width survives encoding in it, for every width |
| Codec.EncodeDecoded | wire/endian/helper.go:84-120 | every byte string is the encoding of the value it decodes to, which fits |
| Codec.PrefixRoundTrip | wire/endian/helper.go:131-166 | reading back a length-prefixed write gives the first (length mod 256^width) bytes and leaves the rest; it round-trips exactly when the length fits |
| Codec.ParsedPrefixIsWritten | wire/endian/helper.go:60-71 | a length-prefixed string that parses is the one written |
| Codec.FrameBytes | tcp/connection.go:76-84 | the bytes of a frame: opcode, length in four bytes with the lowest first, payload |
| Codec.FrameRoundTrip | tcp/connection.go:50-84 | a frame under 2^32 bytes followed by anything parses back to itself and that |
| Codec.ParsedIsPrinted | tcp/connection.go:50-63 | bytes that parse are the printed frame and the rest: no second encoding |
| Codec.StreamRoundTrip | tcp/connection.go:50-84 | any list of frames reads back as that list and then end of file |
| Codec.CutStream | tcp/connection.go:50-63 | a stream cut anywhere yields exactly the frames that are whole, then end of file if the cut is at a frame, after an opcode or after a length, unexpected end otherwise |
| Wire.ReadFull | wire/endian/helper.go:15-48 | filling a buffer from arbitrary chunks depends only on the bytes; end of file with nothing read, unexpected end otherwise |
| Wire.PutUint | wire/endian/helper.go:93-120 | the buffer is filled with the little-endian bytes |
| Wire.GetUint | wire/endian/helper.go:24-48 | the value of the buffer's little-endian bytes |
| Wire.WriteUint | wire/endian/helper.go:84-120 | sends what the connection takes of the encoding, and fails exactly if that is not all |
| Wire.ReadUint | wire/endian/helper.go:15-48 | decodes the next bytes, or fails as the read does |
| Wire.WritePrefixed | wire/endian/helper.go:131-153 | the same of the cut length followed by all the bytes |
| Wire.ReadPrefixed | wire/endian/helper.go:60-71 | reads the length and that many bytes, or fails |
| Wire.WriteFrame | tcp/connection.go:76-84 | the same of the printed frame |
| Wire.ReadFrame | tcp/connection.go:50-63 | the next frame of the stream and the rest, or the error |
| Wire.Relay | tcp/connection.go:50-84 | frames written until the connection fails and received in any chunks are exactly those sent whole, then the error the cut determines; all of them and end of file if nothing failed |
| EndToEnd.NetAlways | app/server/coordinator.go:95-99 | on every joint run the job messages pushed on a channel are exactly those the coordinator's log has for the connection |
| EndToEnd.ClientReadsPrefix | channel.go:47-84 | on every joint run, through frames and a stream that breaks off anywhere, with any encoding faithful on what was written, the jobs a client decodes are a prefix of those pushed on its connection, with strictly increasing ids |
| EndToEnd.WireBytes | channel.go:51-59 | a payload goes out as a frame of opcode 2 with its length and encoding |
| EndToEnd.EncodingExists | channel.go:53 | such an encoding exists for any payloads, up to 2^32 of them |
| Client.ClientRun | app/client/client.go:55-141 | along every run request ids count up from 1, each request answers the most recent job message, and a timer never sends within a second (minute) of the request before |
| Client.SendsWhenDue | app/client/client.go:84-140 | a request goes out on every job message, and on a tick exactly when a job is known and the second (minute) is over |
| Client.Client.Run | app/client/client.go:34-143 | the select loop over any events is that run |

## Left out

- websocket/*, mq/rabbitmq.go, logger/*, cmd/*, examples/*: wrappers, plumbing and configuration.
- stats/pg.go: only the upsert of `Increment`; the rest is SQL through an object mapper.
- protocol/message.go: JSON is the standard library's; messages are decoded values with an optional id.
- A nil StateStore: only tests build one; the model always has the store.
- `handleSubmit` interleaved with itself or with the broadcast between its statements: it is one step.
- A panic in one goroutine ends the Go process: a sender that is blocked when the close comes, or sends after it, is counted as crashed and the run may go on, with or without a restart.
- Deadlines, heartbeats, progress and deadlock-freedom: `broadcastJob` holds the lock while a push may block.
- Byte-level interleaving of concurrent frame writers (the pong of channel.go:137, the ping of tcp/client.go:161-169): frames are written one at a time.
- Saturation of `time.Duration` differences and wrap-around of `int` job numbers after 2^63 rotations.
- Coordination.Coordinator.HandleSubmit: models the code as written; the repaired variants exist as actions only.
