/**
 * The pre-vote collector as a value: what one response does to it, what a run
 * of responses does to it, and what disabling it does. The class
 * `Election.PreVoteCollector` is proved to follow these functions; the lemmas
 * here state the collector's guarantees (staleness filtering, vote counting,
 * the majority threshold, promotion at most once, inertness once disabled).
 */
module PreVoteSpec {
  import opened ElectionTypes

  /**
   * The collector's own state: the term it was created for, the agreeing
   * voters (None once `disAble` has released the set) and the one-shot flag.
   */
  datatype Collector = Collector(voteTerm: Long, agreeSet: Option<set<string>>, available: bool)

  /** An active collector still owns its agreement set. */
  predicate Valid(c: Collector)
  {
    c.available ==> c.agreeSet.Some?
  }

  /** A collector as constructed: the node's current term, seeded with the node itself. */
  function NewCollector(nodeTerm: Long, selfId: string): Collector
  {
    Collector(nodeTerm, Some({selfId}), true)
  }

  /**
   * Whether a response passes both term filters: it must answer exactly the
   * collector's term, and the collector's term must not be below the node's
   * term plus one (computed as a Java long).
   */
  predicate Accepted(voteTerm: Long, nodeTerm: Long, resp: VoteResp)
  {
    resp.term == voteTerm && !(voteTerm < LongInc(nodeTerm))
  }

  /** The effect of one response: the collector afterwards, and whether it promoted the node. */
  datatype Outcome = Outcome(next: Collector, promoted: bool)

  /**
   * One `onResponse` call, given the node's term and the size of its peer map
   * at that moment.
   */
  function Respond(c: Collector, nodeTerm: Long, peerCount: nat, resp: VoteResp): (r: Outcome)
    requires Valid(c)
    ensures Valid(r.next)
    ensures r.next.voteTerm == c.voteTerm
    ensures r.promoted ==> c.available && !r.next.available
    ensures !c.available ==> r == Outcome(c, false)
    ensures r.next.available ==> c.available
  {
    if resp.term != c.voteTerm then Outcome(c, false)
    else if c.voteTerm < LongInc(nodeTerm) then Outcome(c, false)
    else if !c.available then Outcome(c, false)
    else if resp.result != Agree then Outcome(c, false)
    else
      var agreed := c.agreeSet.value + {resp.voteMemberId};
      if |agreed| > peerCount / 2 then
        // compareAndSet(true, false) succeeds: the collector is spent
        Outcome(Collector(c.voteTerm, Some(agreed), false), true)
      else
        Outcome(Collector(c.voteTerm, Some(agreed), true), false)
  }

  /** `disAble`: an active collector is switched off and releases its set; otherwise nothing. */
  function Disable(c: Collector): Collector
  {
    if c.available then Collector(c.voteTerm, None, false) else c
  }

  /** One delivered response together with the node state it was observed against. */
  datatype Event = Event(nodeTerm: Long, peerCount: nat, resp: VoteResp)

  /** A run of responses: the final collector and how many of them promoted the node. */
  datatype Trace = Trace(last: Collector, promotions: nat)

  /** Deliver the responses in order, one `onResponse` each. */
  function Run(c: Collector, events: seq<Event>): (t: Trace)
    requires Valid(c)
    ensures Valid(t.last)
    ensures t.last.voteTerm == c.voteTerm
    ensures t.last.available ==> c.available
    decreases |events|
  {
    if events == [] then Trace(c, 0)
    else
      var e := events[0];
      var o := Respond(c, e.nodeTerm, e.peerCount, e.resp);
      var rest := Run(o.next, events[1..]);
      Trace(rest.last, rest.promotions + if o.promoted then 1 else 0)
  }

  // ---------------------------------------------------------------------------
  // Term filtering

  /**
   * Exactly which responses get past the two term checks: the response must
   * carry the collector's term, and that term must exceed the node's term,
   * except when the node's term is Long.MAX_VALUE, where `term + 1` wraps to
   * Long.MIN_VALUE and the staleness check lets everything through.
   */
  lemma AcceptedIff(voteTerm: Long, nodeTerm: Long, resp: VoteResp)
    ensures Accepted(voteTerm, nodeTerm, resp)
        <==> resp.term == voteTerm && (voteTerm > nodeTerm || nodeTerm == LONG_MAX)
  {
  }

  /** A response for another term changes nothing and never promotes. */
  lemma ForeignTermChangesNothing(c: Collector, nodeTerm: Long, peerCount: nat, resp: VoteResp)
    requires Valid(c)
    requires resp.term != c.voteTerm
    ensures Respond(c, nodeTerm, peerCount, resp) == Outcome(c, false)
  {
  }

  /**
   * A response is dropped whenever the collector's term is below the node's
   * term plus one. In particular a collector created at the node's current
   * term is stale for as long as the node stays at or above that term.
   */
  lemma StaleTermChangesNothing(c: Collector, nodeTerm: Long, peerCount: nat, resp: VoteResp)
    requires Valid(c)
    requires c.voteTerm < LongInc(nodeTerm)
    ensures Respond(c, nodeTerm, peerCount, resp) == Outcome(c, false)
    ensures c.voteTerm <= nodeTerm < LONG_MAX ==> c.voteTerm < LongInc(nodeTerm)
  {
  }

  /** A REJECT verdict, or any response to an inactive collector, changes nothing. */
  lemma RejectOrInactiveChangesNothing(c: Collector, nodeTerm: Long, peerCount: nat, resp: VoteResp)
    requires Valid(c)
    requires resp.result == Reject || !c.available
    ensures Respond(c, nodeTerm, peerCount, resp) == Outcome(c, false)
  {
  }

  // ---------------------------------------------------------------------------
  // Counting votes and the majority threshold

  /**
   * An accepted AGREE on an active collector adds exactly the voter to the
   * agreement set; any other response leaves the set as it was. So a voter
   * heard twice does not grow the set.
   */
  lemma AgreeRecordsVoter(c: Collector, nodeTerm: Long, peerCount: nat, resp: VoteResp)
    requires Valid(c)
    ensures var o := Respond(c, nodeTerm, peerCount, resp);
      if Accepted(c.voteTerm, nodeTerm, resp) && c.available && resp.result == Agree
      then o.next.agreeSet == Some(c.agreeSet.value + {resp.voteMemberId})
      else o.next.agreeSet == c.agreeSet
    ensures c.agreeSet.Some? && resp.voteMemberId in c.agreeSet.value ==>
      Respond(c, nodeTerm, peerCount, resp).next.agreeSet == c.agreeSet
  {
    var o := Respond(c, nodeTerm, peerCount, resp);
    if c.agreeSet.Some? && resp.voteMemberId in c.agreeSet.value {
      assert c.agreeSet.value + {resp.voteMemberId} == c.agreeSet.value;
    }
  }

  /**
   * A response promotes the node if and only if it passes the term filters,
   * reaches an active collector, agrees, and brings the agreement set (self
   * included) strictly above half the peer count, in integer division.
   */
  lemma PromotesIff(c: Collector, nodeTerm: Long, peerCount: nat, resp: VoteResp)
    requires Valid(c)
    ensures Respond(c, nodeTerm, peerCount, resp).promoted
        <==> Accepted(c.voteTerm, nodeTerm, resp) && c.available && resp.result == Agree
             && |c.agreeSet.value + {resp.voteMemberId}| > peerCount / 2
  {
  }

  /**
   * The boundary of the threshold: with N peers, an agreement set of exactly
   * N/2 voters (self included) does not promote, one of N/2 + 1 voters does.
   */
  lemma QuorumBoundary(c: Collector, nodeTerm: Long, peerCount: nat, resp: VoteResp)
    requires Valid(c) && c.available
    requires Accepted(c.voteTerm, nodeTerm, resp) && resp.result == Agree
    ensures |c.agreeSet.value + {resp.voteMemberId}| == peerCount / 2 ==>
      !Respond(c, nodeTerm, peerCount, resp).promoted
    ensures |c.agreeSet.value + {resp.voteMemberId}| == peerCount / 2 + 1 ==>
      Respond(c, nodeTerm, peerCount, resp).promoted
  {
  }

  // ---------------------------------------------------------------------------
  // Promotion at most once, and inertness

  /**
   * However the responses and the node's term interleave, a collector promotes
   * the node at most once; and a collector that is no longer available never
   * promotes and never changes again.
   */
  lemma {:induction false} AtMostOnePromotion(c: Collector, events: seq<Event>)
    requires Valid(c)
    ensures Run(c, events).promotions <= 1
    ensures !c.available ==> Run(c, events) == Trace(c, 0)
    decreases |events|
  {
    if events != [] {
      var e := events[0];
      var o := Respond(c, e.nodeTerm, e.peerCount, e.resp);
      AtMostOnePromotion(o.next, events[1..]);
    }
  }

  /**
   * Whatever responses arrive, as long as the node's term stays at or above
   * the collector's term (and below Long.MAX_VALUE), the collector never
   * changes and never promotes. Since a collector takes the node's current
   * term when it is created, it can only promote after the node's term drops.
   */
  lemma {:induction false} NoPromotionWhileTermHolds(c: Collector, events: seq<Event>)
    requires Valid(c)
    requires forall i :: 0 <= i < |events| ==> c.voteTerm <= events[i].nodeTerm < LONG_MAX
    ensures Run(c, events) == Trace(c, 0)
    decreases |events|
  {
    if events != [] {
      var e := events[0];
      StaleTermChangesNothing(c, e.nodeTerm, e.peerCount, e.resp);
      NoPromotionWhileTermHolds(c, events[1..]);
    }
  }

  /**
   * `disAble` is idempotent, leaves the collector inactive and keeps its term;
   * afterwards no run of responses changes it or promotes.
   */
  lemma {:induction false} DisableIsFinal(c: Collector, events: seq<Event>)
    ensures Disable(Disable(c)) == Disable(c)
    ensures Valid(Disable(c)) && !Disable(c).available && Disable(c).voteTerm == c.voteTerm
    ensures c.available ==> Disable(c).agreeSet == None
    ensures Run(Disable(c), events) == Trace(Disable(c), 0)
  {
    AtMostOnePromotion(Disable(c), events);
  }

  // ---------------------------------------------------------------------------
  // Concrete runs

  /**
   * With four peers, a fresh collector of node "a" at term 0 receives AGREE
   * from "b" and "c" for term 0 while the node is still at term 0: both are
   * dropped as stale, so the node is never promoted by its own pre-vote.
   */
  lemma {:induction false} FreshCollectorIgnoresAgreement()
    ensures var evs := [Event(0, 4, VoteResp(0, Agree, "b")), Event(0, 4, VoteResp(0, Agree, "c"))];
      Run(NewCollector(0, "a"), evs) == Trace(NewCollector(0, "a"), 0)
  {
    var evs := [Event(0, 4, VoteResp(0, Agree, "b")), Event(0, 4, VoteResp(0, Agree, "c"))];
    NoPromotionWhileTermHolds(NewCollector(0, "a"), evs);
  }

  /**
   * Had the node's term dropped to 0 after a collector for term 1 was created,
   * two agreeing peers out of four (three voters with self) promote it once;
   * the first agreement alone (two voters) does not.
   */
  lemma TwoOfFourPeersPromote()
    ensures var c := NewCollector(1, "a");
      var evs := [Event(0, 4, VoteResp(1, Agree, "b")), Event(0, 4, VoteResp(1, Agree, "c"))];
      Run(c, evs[..1]).promotions == 0 && Run(c, evs).promotions == 1
      && Run(c, evs).last == Collector(1, Some({"a", "b", "c"}), false)
  {
    var c := NewCollector(1, "a");
    assert |{"a", "b"}| == 2;
    assert |{"a", "b", "c"}| == 3;
    var c1 := Collector(1, Some({"a", "b"}), true);
    assert LongInc(0) == 1;
    assert {"a"} + {"b"} == {"a", "b"};
    assert {"a", "b"} + {"c"} == {"a", "b", "c"};
    assert Respond(c, 0, 4, VoteResp(1, Agree, "b")) == Outcome(c1, false);
    assert Respond(c1, 0, 4, VoteResp(1, Agree, "c"))
        == Outcome(Collector(1, Some({"a", "b", "c"}), false), true);
  }

  /**
   * The wrap-around of `term + 1`: at term Long.MAX_VALUE a fresh collector
   * accepts an answer for its own term, so a single-node cluster promotes.
   */
  lemma WrappedTermAdmitsAnswer()
    ensures Respond(NewCollector(LONG_MAX, "a"), LONG_MAX, 0, VoteResp(LONG_MAX, Agree, "a")).promoted
  {
  }
}
