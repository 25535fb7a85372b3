/**
 * Runs of the elector on freshly built nodes, each ending in the observable
 * outcome the code produces: what an election timeout starts, what becomes
 * of pre-vote answers, what a heartbeat from a leader does to an in-flight
 * round, and what `BecomeALeader` leaves behind.
 */
module ElectionScenarios {
  import opened ElectionTypes
  import opened Election

  /**
   * A follower "a" at term 0 with four peers times out: it becomes a
   * pre-candidate and broadcasts one pre-vote round, held by the single
   * registered collector, for term 0 (its current term, not term 1) with
   * only itself in the agreement set.
   */
  method FirstElectionTimeout() returns (role: Role, voteTerm: Long, agreed: Option<set<string>>, registered: nat, broadcasts: nat)
    ensures role == PreCandidate && voteTerm == 0 && agreed == Some({"a"})
    ensures registered == 1 && broadcasts == 1
  {
    var node := new NodeState("a", {"b", "c", "d", "e"}, Follower, 0, "");
    var elector := new GekkoLeaderElector(node);
    elector.Init();
    elector.Start();
    elector.OnElectionTimeout();
    var collector := elector.preVoteRequests[0];
    role, voteTerm, agreed := node.role, collector.voteTerm, collector.agreeSet;
    registered, broadcasts := |elector.preVoteCollectors|, |elector.preVoteRequests|;
  }

  /**
   * The same round receives AGREE from "b" and "c" (a majority of the four
   * peers together with self), once for the collector's term 0 and once for
   * term 1: every answer is dropped, the node stays a pre-candidate at term 0
   * and no real vote is requested.
   */
  method PreVoteAnswersDropped() returns (role: Role, term: Long, voteRequests: nat, agreed: Option<set<string>>)
    ensures role == PreCandidate && term == 0 && voteRequests == 0 && agreed == Some({"a"})
  {
    var node := new NodeState("a", {"b", "c", "d", "e"}, Follower, 0, "");
    var elector := new GekkoLeaderElector(node);
    elector.Init();
    elector.OnElectionTimeout();
    var collector := elector.preVoteRequests[0];
    collector.OnResponse(VoteResp(0, Agree, "b"));
    collector.OnResponse(VoteResp(0, Agree, "c"));
    collector.OnResponse(VoteResp(1, Agree, "b"));
    collector.OnResponse(VoteResp(1, Agree, "c"));
    role, term, voteRequests, agreed := node.role, node.term, |elector.voteRequests|, collector.agreeSet;
  }

  /**
   * A pre-candidate at term 5 hears a heartbeat from "x" at term 3: it
   * follows "x" and its term goes down to 3. Its round for term 5 would now
   * pass the term checks, but it has been disabled, so late agreements from
   * "b" and "c" change nothing.
   */
  method HeartbeatSilencesRound() returns (role: Role, term: Long, leader: string, voteRequests: nat, active: bool)
    ensures role == Follower && term == 3 && leader == "x"
    ensures voteRequests == 0 && !active
  {
    var node := new NodeState("a", {"b", "c", "d", "e"}, Follower, 5, "");
    var elector := new GekkoLeaderElector(node);
    elector.Init();
    elector.OnElectionTimeout();
    var collector := elector.preVoteRequests[0];
    elector.BecomeAFollower(3, "x");
    collector.OnResponse(VoteResp(5, Agree, "b"));
    collector.OnResponse(VoteResp(5, Agree, "c"));
    role, term, leader := node.role, node.term, node.leaderId;
    voteRequests, active := |elector.voteRequests|, collector.available;
  }

  /**
   * `BecomeALeader` records the node as leader, stops the election timer and
   * starts the heartbeat, which then fires and re-arms at the fixed interval;
   * but the role it leaves is follower.
   */
  method LeaderEndsAsFollower() returns (role: Role, leader: string, election: Timer, heartbeat: Timer, sent: nat)
    ensures role == Follower && leader == "a"
    ensures election.Disarmed? && heartbeat == Armed(HEART_BEAT_INTERVAL) && sent == 2
  {
    var node := new NodeState("a", {"b", "c"}, Candidate, 7, "");
    var elector := new GekkoLeaderElector(node);
    elector.Init();
    elector.BecomeALeader();
    elector.OnHeartBeatTimeout();
    elector.OnHeartBeatTimeout();
    role, leader := node.role, node.leaderId;
    election, heartbeat, sent := elector.electionTimeoutChecker, elector.heartBeatSender, elector.heartBeatsSent;
  }

  /**
   * Cancelling the collectors a second time finds nothing left to do: the
   * role, term, registries and the collector's state are as the first call
   * left them.
   */
  method CancelTwice() returns (same: bool, emptied: bool)
    ensures same && emptied
  {
    var node := new NodeState("a", {"b", "c"}, Follower, 2, "");
    var elector := new GekkoLeaderElector(node);
    elector.Init();
    elector.OnElectionTimeout();
    var collector := elector.preVoteRequests[0];
    elector.CancelAllVoteCollectors();
    var role1, term1, view1 := node.role, node.term, collector.View();
    elector.CancelAllVoteCollectors();
    same := node.role == role1 && node.term == term1 && collector.View() == view1;
    emptied := elector.preVoteCollectors == {} && elector.voteCollectors == {};
  }

  /**
   * The one way a round promotes without the term going down: at term
   * Long.MAX_VALUE the check `voteTerm < term + 1` compares against the
   * wrapped Long.MIN_VALUE. A node with no peers agreeing with itself becomes
   * a candidate, its term wraps to Long.MIN_VALUE, and one real vote is requested.
   */
  method PromotionAtLongMax() returns (role: Role, term: Long, voteRequests: nat)
    ensures role == Candidate && term == LONG_MIN && voteRequests == 1
  {
    var node := new NodeState("a", {}, Follower, LONG_MAX, "");
    var elector := new GekkoLeaderElector(node);
    elector.Init();
    elector.OnElectionTimeout();
    var collector := elector.preVoteRequests[0];
    collector.OnResponse(VoteResp(LONG_MAX, Agree, "a"));
    role, term, voteRequests := node.role, node.term, |elector.voteRequests|;
  }
}
