/** Conservation of accepted submissions on their way into the per-minute counts. */
module Accounting {
  import opened Types
  import opened Store
  import opened Queue
  import opened Listener
  import opened Protocol

  function EventsOf(acc: seq<Acceptance>): (events: seq<SubmitEvent>)
    ensures |events| == |acc|
    ensures forall i :: 0 <= i < |acc| ==> events[i] == acc[i].event
  {
    seq(|acc|, i requires 0 <= i < |acc| => acc[i].event)
  }

  /** The submissions of one user accepted in one minute. */
  function TallyAccepted(acc: seq<Acceptance>, user: string, minute: Instant): (n: nat) {
    Tally(EventsOf(acc), user, minute)
  }

  lemma TallyAcceptedSnoc(acc: seq<Acceptance>, a: Acceptance, user: string, minute: Instant)
    ensures TallyAccepted(acc + [a], user, minute) == TallyAccepted(acc, user, minute) + Hit(a.event, user, minute)
  {
    var events := EventsOf(acc + [a]);
    assert events[..|events| - 1] == EventsOf(acc);
  }

  /** Accepted submissions that are not in the counts: in the consumer's hand, in the queue
      or its waiting senders, dropped after the close, or lost to a restart. */
  function Uncounted(s: State, user: string, minute: Instant): nat {
    Tally(InHand(s), user, minute) + Tally(Outstanding(s.queue), user, minute) + Tally(s.log.lost, user, minute)
  }

  ghost predicate Balanced(s: State, user: string, minute: Instant) {
    && CountAt(s.store, user, minute) == Tally(s.log.counted, user, minute)
    && TallyAccepted(s.log.accepted, user, minute) == Tally(s.log.counted, user, minute) + Uncounted(s, user, minute)
  }

  ghost predicate CountInv(s: State) {
    && WellFormed(s.queue)
    && forall user, minute :: Balanced(s, user, minute)
  }

  /** Events that nobody can be found to have caused are no events. */
  lemma {:induction false} NothingTallied(events: seq<SubmitEvent>)
    requires forall user, t :: Tally(events, user, Truncate(t)) == 0
    ensures events == []
  {
    if events != [] {
      var last := events[|events| - 1];
      assert Tally(events, last.username, Truncate(last.time)) >= Hit(last, last.username, Truncate(last.time));
    }
  }

  predicate SameAccounts(s: State, s': State) {
    && s'.store.counts == s.store.counts
    && s'.queue == s.queue
    && s'.consumer.inHand == s.consumer.inHand
    && s'.log.accepted == s.log.accepted
    && s'.log.counted == s.log.counted
    && s'.log.lost == s.log.lost
  }

  lemma MostActionsKeepAccounts(cfg: Config, s: State, a: Action)
    requires Enabled(cfg, s, a)
    requires !a.ConsumerReceive? && !a.ConsumerCount? && !a.CloseQueue? && !a.Restart?
    requires a.Submit? ==> VerdictOn(cfg, s, a.ch, a.params, a.t1, a.t2) != Accepted
    ensures SameAccounts(s, Apply(cfg, s, a))
  {
  }

  lemma AcceptBalances(cfg: Config, s: State, ch: ChannelId, p: SubmitParams, t1: Instant, t2: Instant, user: string, minute: Instant)
    requires Enabled(cfg, s, Submit(ch, p, t1, t2)) && VerdictOn(cfg, s, ch, p, t1, t2) == Accepted
    requires WellFormed(s.queue) && Balanced(s, user, minute)
    ensures WellFormed(AfterSubmit(cfg, s, ch, p, t1, t2).queue)
    ensures Balanced(AfterSubmit(cfg, s, ch, p, t1, t2), user, minute)
  {
    var s' := AfterSubmit(cfg, s, ch, p, t1, t2);
    var a := AcceptanceOf(s, ch, p, t2);
    assert s'.store.counts == s.store.counts && s'.log.counted == s.log.counted && s'.log.lost == s.log.lost;
    assert s'.log.accepted == s.log.accepted + [a];
    TallyAcceptedSnoc(s.log.accepted, a, user, minute);
    PublishAppends(s.queue, a.event);
    TallyConcat(Outstanding(s.queue), [a.event], user, minute);
    TallySingle(a.event, user, minute);
    assert InHand(s') == InHand(s);
  }

  lemma ReceiveBalances(cfg: Config, s: State, user: string, minute: Instant)
    requires Enabled(cfg, s, ConsumerReceive) && WellFormed(s.queue) && Balanced(s, user, minute)
    ensures WellFormed(AfterReceive(s).queue) && Balanced(AfterReceive(s), user, minute)
  {
    ReceiveTakesFirst(s.queue);
    TallyConcat([Head(s.queue)], Outstanding(Received(s.queue)), user, minute);
  }

  lemma CountBalances(cfg: Config, s: State, user: string, minute: Instant)
    requires Enabled(cfg, s, ConsumerCount) && Balanced(s, user, minute)
    ensures Balanced(AfterCount(s), user, minute)
  {
    var e := s.consumer.inHand.value;
    IncrementRaisesOneCount(s.store, e);
    TallyConcat(s.log.counted, [e], user, minute);
  }

  lemma RestartBalances(cfg: Config, s: State, user: string, minute: Instant)
    requires Balanced(s, user, minute)
    ensures Balanced(AfterRestart(cfg, s), user, minute)
  {
    TallyConcat(s.log.lost + InHand(s), Outstanding(s.queue), user, minute);
    TallyConcat(s.log.lost, InHand(s), user, minute);
    assert Outstanding(NewQueue(cfg.queueSize)) == [];
  }

  lemma CountInvStep(cfg: Config, s: State, a: Action)
    requires CountInv(s) && Enabled(cfg, s, a)
    ensures CountInv(Apply(cfg, s, a))
  {
    var s' := Apply(cfg, s, a);
    if a.ConsumerReceive? {
      ReceiveTakesFirst(s.queue);
    } else if a.CloseQueue? {
      CloseKeepsAll(s.queue);
    } else if a.Submit? && VerdictOn(cfg, s, a.ch, a.params, a.t1, a.t2) == Accepted {
      AcceptBalances(cfg, s, a.ch, a.params, a.t1, a.t2, "", 0);
    } else if !a.ConsumerCount? && !a.Restart? {
      MostActionsKeepAccounts(cfg, s, a);
    }
    assert WellFormed(s'.queue);
    forall user, minute
      ensures Balanced(s', user, minute)
    {
      assert Balanced(s, user, minute);
      if a.ConsumerReceive? {
        ReceiveBalances(cfg, s, user, minute);
      } else if a.ConsumerCount? {
        CountBalances(cfg, s, user, minute);
      } else if a.Restart? {
        RestartBalances(cfg, s, user, minute);
      } else if a.Submit? && VerdictOn(cfg, s, a.ch, a.params, a.t1, a.t2) == Accepted {
        AcceptBalances(cfg, s, a.ch, a.params, a.t1, a.t2, user, minute);
      }
    }
  }
}
