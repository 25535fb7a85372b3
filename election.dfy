/**
 * The election state machine as objects: the node's shared state, the vote
 * and pre-vote collectors, and the elector that owns the timers and the
 * collector registries. Each handler is one sequential step; the transport
 * is a log of the broadcasts issued.
 */
module Election {
  import opened ElectionTypes
  import PreVoteSpec

  /** The node's identity, role, term and known leader, read and written by the elector and the collectors. */
  class NodeState {
    const selfId: string
    /** The keys of the peer map; only its size is used, as the quorum base. */
    const peers: set<string>
    var role: Role
    var term: Long
    var leaderId: string

    constructor (selfId: string, peers: set<string>, role: Role, term: Long, leaderId: string)
      ensures this.selfId == selfId && this.peers == peers
      ensures this.role == role && this.term == term && this.leaderId == leaderId
    {
      this.selfId := selfId;
      this.peers := peers;
      this.role := role;
      this.term := term;
      this.leaderId := leaderId;
    }
  }

  /** A real-vote collector, seen only as a handle that can be disabled. */
  class VoteCollector {
    var available: bool

    constructor ()
      ensures available
    {
      available := true;
    }

    method DisAble()
      modifies this
      ensures !available
    {
      available := false;
    }
  }

  /** One pre-vote round: filters responses by term, counts agreeing voters, promotes once. */
  class PreVoteCollector {
    const nodeState: NodeState
    const elector: GekkoLeaderElector
    const voteTerm: Long
    /** The agreeing voters; None once `DisAble` has released the set. */
    var agreeSet: Option<set<string>>
    var available: bool

    ghost predicate Valid()
      reads this
    {
      PreVoteSpec.Valid(View())
    }

    /** The collector's own state as a value. */
    function View(): PreVoteSpec.Collector
      reads this
    {
      PreVoteSpec.Collector(voteTerm, agreeSet, available)
    }

    constructor (nodeState: NodeState, elector: GekkoLeaderElector)
      ensures this.nodeState == nodeState && this.elector == elector
      ensures voteTerm == nodeState.term
      ensures agreeSet == Some({nodeState.selfId}) && available
      ensures Valid() && View() == PreVoteSpec.NewCollector(nodeState.term, nodeState.selfId)
    {
      this.nodeState := nodeState;
      this.voteTerm := nodeState.term;
      this.agreeSet := Some({nodeState.selfId});
      this.elector := elector;
      this.available := true;
    }

    /**
     * A peer's answer. The collector moves as `PreVoteSpec.Respond` says; when
     * that promotes, the node becomes a candidate one term up, one new vote
     * collector is registered and solicited, and the election timer is re-armed.
     * Otherwise neither the node nor the elector changes.
     */
    method OnResponse(resp: VoteResp)
      requires Valid() && elector.Valid() && elector.Ready()
      modifies this, nodeState, elector
      ensures Valid() && elector.Valid() && elector.Ready()
      ensures var o := PreVoteSpec.Respond(old(View()), old(nodeState.term), |nodeState.peers|, resp);
        View() == o.next &&
        if o.promoted then
          nodeState.role == Candidate && nodeState.term == LongInc(old(nodeState.term))
          && nodeState.leaderId == old(nodeState.leaderId)
          && elector.VoteIssuedAndRegistered(old(elector.voteRequests), old(elector.voteCollectors))
          && elector.electionTimeoutChecker.Armed?
          && elector.preVoteCollectors == old(elector.preVoteCollectors)
          && elector.preVoteRequests == old(elector.preVoteRequests)
          && elector.heartBeatSender == old(elector.heartBeatSender)
          && elector.heartBeatsSent == old(elector.heartBeatsSent)
        else
          unchanged(nodeState) && unchanged(elector)
      ensures old(elector.PreVotesStale()) && old(nodeState.term) < LONG_MAX ==> elector.PreVotesStale()
      ensures old(elector.VotesRegistered()) ==> elector.VotesRegistered()
      ensures old(elector.PreVotesStale()) && old(nodeState.term) < LONG_MAX
              && this in old(elector.preVoteRequests) && nodeState == elector.state ==>
        View() == old(View()) && unchanged(nodeState) && unchanged(elector)
    {
      if resp.term != voteTerm {
        return;
      }
      if voteTerm < LongInc(nodeState.term) {
        return;
      }
      if available {
        if resp.result == Agree {
          agreeSet := Some(agreeSet.value + {resp.voteMemberId});
          if |agreeSet.value| > |nodeState.peers| / 2 {
            // compareAndSet(true, false): sequentially, the flag is still set here
            if available {
              available := false;
              ReqToRealVote();
            }
          }
        }
      }
    }

    /** Quorum reached: become a candidate for the next term and start the real vote. */
    method ReqToRealVote()
      requires elector.Valid() && elector.Ready()
      modifies nodeState, elector
      ensures elector.Valid() && elector.Ready()
      ensures nodeState.role == Candidate && nodeState.term == LongInc(old(nodeState.term))
      ensures nodeState.leaderId == old(nodeState.leaderId)
      ensures elector.VoteIssuedAndRegistered(old(elector.voteRequests), old(elector.voteCollectors))
      ensures elector.electionTimeoutChecker.Armed?
      ensures elector.preVoteCollectors == old(elector.preVoteCollectors)
      ensures elector.preVoteRequests == old(elector.preVoteRequests)
      ensures elector.heartBeatSender == old(elector.heartBeatSender)
      ensures elector.heartBeatsSent == old(elector.heartBeatsSent)
      ensures old(elector.VotesRegistered()) ==> elector.VotesRegistered()
    {
      nodeState.role := Candidate;
      nodeState.term := LongInc(nodeState.term);
      var voteCollector := new VoteCollector();
      elector.voteCollectors := elector.voteCollectors + {voteCollector};
      elector.voteRequests := elector.voteRequests + [voteCollector];
      elector.ResetElectionTimeout();
    }

    /** Switch the collector off for good; only the first call has an effect. */
    method DisAble()
      modifies this
      ensures View() == PreVoteSpec.Disable(old(View()))
      ensures Valid() && !available
    {
      if available {
        available := false;
        agreeSet := None;
      }
    }
  }

  /** Owns the node's role transitions, the two timers and the registries of in-flight collectors. */
  class GekkoLeaderElector {
    const state: NodeState
    var voteCollectors: set<VoteCollector>
    var preVoteCollectors: set<PreVoteCollector>
    var electionTimeoutChecker: Timer
    var heartBeatSender: Timer
    /** Transport log: the collectors handed to `client.preVote`, in order. */
    var preVoteRequests: seq<PreVoteCollector>
    /** Transport log: the collectors handed to `client.reqVote`, in order. */
    var voteRequests: seq<VoteCollector>
    /** Transport log: how many times `client.sendHeartBeat` was called. */
    var heartBeatsSent: nat

    /**
     * Both timers exist together; the election delay is always one drawn from
     * [0, MAX_ELECTION_TIMEOUT) and the heartbeat delay is the fixed interval;
     * every registered collector was broadcast, and every registered pre-vote
     * collector belongs to this elector and its node.
     */
    ghost predicate Valid()
      reads this, preVoteCollectors
    {
      (electionTimeoutChecker.Absent? <==> heartBeatSender.Absent?)
      && (!electionTimeoutChecker.Absent? ==> electionTimeoutChecker.delay < MAX_ELECTION_TIMEOUT)
      && (!heartBeatSender.Absent? ==> heartBeatSender.delay == HEART_BEAT_INTERVAL)
      && (forall p :: p in preVoteCollectors ==> p.Valid() && p.elector == this && p.nodeState == state)
      && (forall p :: p in preVoteCollectors ==> p in preVoteRequests)
      && (forall v :: v in voteCollectors ==> v in voteRequests)
    }

    /**
     * Every pre-vote collector ever broadcast that is still available is in the
     * registry and was created at a term no higher than the node's current one,
     * so the staleness check drops every answer it gets.
     */
    ghost predicate PreVotesStale()
      reads this, state, preVoteRequests
    {
      forall p :: p in preVoteRequests && p.available ==> p in preVoteCollectors && p.voteTerm <= state.term
    }

    /**
     * Every vote collector ever solicited that is still available is in the
     * registry, so cancelling the registry reaches all of them.
     */
    ghost predicate VotesRegistered()
      reads this, voteRequests
    {
      forall v :: v in voteRequests && v.available ==> v in voteCollectors
    }

    /** The timers have been created by `Init`. */
    predicate Ready()
      reads this
    {
      !electionTimeoutChecker.Absent?
    }

    /**
     * Exactly one vote request was issued since `requests0`, for a fresh, active
     * collector, and that collector is the one added to the registry `registry0`.
     */
    ghost predicate VoteIssuedAndRegistered(requests0: seq<VoteCollector>, registry0: set<VoteCollector>)
      reads this, voteRequests
    {
      |voteRequests| == |requests0| + 1 && voteRequests[..|requests0|] == requests0
      && var v := voteRequests[|requests0|];
      v.available && v !in registry0 && voteCollectors == registry0 + {v}
    }

    constructor (state: NodeState)
      ensures this.state == state && Valid() && PreVotesStale() && VotesRegistered() && !Ready()
      ensures voteCollectors == {} && preVoteCollectors == {}
      ensures preVoteRequests == [] && voteRequests == [] && heartBeatsSent == 0
    {
      this.state := state;
      voteCollectors := {};
      preVoteCollectors := {};
      electionTimeoutChecker := Absent;
      heartBeatSender := Absent;
      preVoteRequests := [];
      voteRequests := [];
      heartBeatsSent := 0;
    }

    /** `random.nextInt(MAX_ELECTION_TIMEOUT)`: any delay in [0, MAX_ELECTION_TIMEOUT). */
    method NextElectionDelay() returns (delay: nat)
      ensures delay < MAX_ELECTION_TIMEOUT
    {
      delay :| delay < MAX_ELECTION_TIMEOUT;
    }

    /** Create the election timer, armed with a random delay, and the idle heartbeat timer. */
    method Init()
      requires Valid()
      modifies this`electionTimeoutChecker, this`heartBeatSender
      ensures Valid() && Ready()
      ensures old(PreVotesStale()) ==> PreVotesStale()
      ensures old(VotesRegistered()) ==> VotesRegistered()
      ensures electionTimeoutChecker.Armed? && electionTimeoutChecker.delay < MAX_ELECTION_TIMEOUT
      ensures heartBeatSender == Disarmed(HEART_BEAT_INTERVAL)
    {
      var delay := NextElectionDelay();
      electionTimeoutChecker := Armed(delay);
      heartBeatSender := Disarmed(HEART_BEAT_INTERVAL);
    }

    /** Arm the election timer again with its current delay. */
    method Start()
      requires Valid() && Ready()
      modifies this`electionTimeoutChecker
      ensures Valid() && Ready()
      ensures old(PreVotesStale()) ==> PreVotesStale()
      ensures old(VotesRegistered()) ==> VotesRegistered()
      ensures electionTimeoutChecker == Refreshed(old(electionTimeoutChecker))
    {
      electionTimeoutChecker := Refreshed(electionTimeoutChecker);
    }

    /** Cancel the election timer. */
    method Shutdown()
      requires Valid() && Ready()
      modifies this`electionTimeoutChecker
      ensures Valid() && Ready()
      ensures old(PreVotesStale()) ==> PreVotesStale()
      ensures old(VotesRegistered()) ==> VotesRegistered()
      ensures electionTimeoutChecker == Cancelled(old(electionTimeoutChecker))
    {
      electionTimeoutChecker := Cancelled(electionTimeoutChecker);
    }

    /**
     * The election timer's task: become a pre-candidate, register and broadcast
     * one new pre-vote collector at the current term, and re-arm the timer.
     */
    method OnElectionTimeout()
      requires Valid() && Ready()
      modifies this, state
      ensures Valid() && Ready()
      ensures old(PreVotesStale()) ==> PreVotesStale()
      ensures old(VotesRegistered()) ==> VotesRegistered()
      ensures state.role == PreCandidate
      ensures state.term == old(state.term) && state.leaderId == old(state.leaderId)
      ensures |preVoteRequests| == |old(preVoteRequests)| + 1
      ensures preVoteRequests[..|old(preVoteRequests)|] == old(preVoteRequests)
      ensures var c := preVoteRequests[|old(preVoteRequests)|];
        fresh(c) && c.elector == this && c.nodeState == state
        && c.View() == PreVoteSpec.NewCollector(old(state.term), state.selfId)
        && preVoteCollectors == old(preVoteCollectors) + {c}
      ensures electionTimeoutChecker.Armed?
      ensures voteCollectors == old(voteCollectors) && voteRequests == old(voteRequests)
      ensures heartBeatSender == old(heartBeatSender) && heartBeatsSent == old(heartBeatsSent)
    {
      state.role := PreCandidate;
      var prevoteCollector := new PreVoteCollector(state, this);
      preVoteCollectors := preVoteCollectors + {prevoteCollector};
      preVoteRequests := preVoteRequests + [prevoteCollector];
      ResetElectionTimeout();
    }

    /** The heartbeat timer's task: send one heartbeat and re-arm at the fixed interval. */
    method OnHeartBeatTimeout()
      requires Valid() && Ready()
      modifies this`heartBeatsSent, this`heartBeatSender
      ensures Valid() && Ready()
      ensures old(PreVotesStale()) ==> PreVotesStale()
      ensures old(VotesRegistered()) ==> VotesRegistered()
      ensures heartBeatsSent == old(heartBeatsSent) + 1
      ensures heartBeatSender == Armed(HEART_BEAT_INTERVAL)
    {
      heartBeatsSent := heartBeatsSent + 1;
      RefreshSendHeartBeatToFollower();
    }

    /**
     * Step down and silence every in-flight collector: the role becomes
     * follower, every registered collector is disabled, both registries are
     * emptied. Term, leader, timers and the transport log are untouched.
     */
    method CancelAllVoteCollectors()
      requires Valid()
      modifies this`voteCollectors, this`preVoteCollectors, state`role, voteCollectors, preVoteCollectors
      ensures Valid()
      ensures old(PreVotesStale()) ==> forall p :: p in preVoteRequests ==> !p.available
      ensures old(VotesRegistered()) ==> forall v :: v in voteRequests ==> !v.available
      ensures state.role == Follower
      ensures voteCollectors == {} && preVoteCollectors == {}
      ensures forall v :: v in old(voteCollectors) ==> !v.available
      ensures forall p :: p in old(preVoteCollectors) ==> p.View() == PreVoteSpec.Disable(old(p.View()))
    {
      state.role := Follower;
      if voteCollectors != {} {
        var pending := voteCollectors;
        while pending != {}
          invariant pending <= voteCollectors
          invariant forall v :: v in voteCollectors - pending ==> !v.available
          modifies voteCollectors
          decreases pending
        {
          var v :| v in pending;
          v.DisAble();
          pending := pending - {v};
        }
        voteCollectors := {};
      }
      if preVoteCollectors != {} {
        var pending := preVoteCollectors;
        while pending != {}
          invariant pending <= preVoteCollectors
          invariant forall p :: p in preVoteCollectors - pending ==> p.View() == PreVoteSpec.Disable(old(p.View()))
          invariant forall p :: p in pending ==> p.View() == old(p.View())
          modifies preVoteCollectors
          decreases pending
        {
          var p :| p in pending;
          p.DisAble();
          pending := pending - {p};
        }
        preVoteCollectors := {};
      }
    }

    method RefreshSendHeartBeatToFollower()
      requires Valid() && Ready()
      modifies this`heartBeatSender
      ensures Valid() && Ready()
      ensures old(PreVotesStale()) ==> PreVotesStale()
      ensures old(VotesRegistered()) ==> VotesRegistered()
      ensures heartBeatSender == Armed(HEART_BEAT_INTERVAL)
    {
      heartBeatSender := Refreshed(heartBeatSender);
    }

    method StopSendHeartBeatToFollower()
      requires Valid() && Ready()
      modifies this`heartBeatSender
      ensures Valid() && Ready()
      ensures old(PreVotesStale()) ==> PreVotesStale()
      ensures old(VotesRegistered()) ==> VotesRegistered()
      ensures heartBeatSender == Disarmed(HEART_BEAT_INTERVAL)
    {
      heartBeatSender := Cancelled(heartBeatSender);
    }

    method StopElectionTimeout()
      requires Valid() && Ready()
      modifies this`electionTimeoutChecker
      ensures Valid() && Ready()
      ensures old(PreVotesStale()) ==> PreVotesStale()
      ensures old(VotesRegistered()) ==> VotesRegistered()
      ensures electionTimeoutChecker == Cancelled(old(electionTimeoutChecker))
    {
      electionTimeoutChecker := Cancelled(electionTimeoutChecker);
    }

    /** Re-arm the election timer with a fresh random delay in [0, MAX_ELECTION_TIMEOUT). */
    method ResetElectionTimeout()
      requires Valid() && Ready()
      modifies this`electionTimeoutChecker
      ensures Valid() && Ready()
      ensures old(PreVotesStale()) ==> PreVotesStale()
      ensures old(VotesRegistered()) ==> VotesRegistered()
      ensures electionTimeoutChecker.Armed? && electionTimeoutChecker.delay < MAX_ELECTION_TIMEOUT
    {
      var delay := NextElectionDelay();
      electionTimeoutChecker := RefreshedWith(electionTimeoutChecker, delay);
    }

    /**
     * A leader for `term` has been heard: follow it. The term is overwritten
     * even when `term` is lower; all collectors are disabled, the heartbeat
     * stops and the election timer restarts with a random delay.
     */
    method BecomeAFollower(term: Long, leaderId: string)
      requires Valid() && Ready()
      modifies this, state, voteCollectors, preVoteCollectors
      ensures Valid() && Ready()
      ensures old(PreVotesStale()) ==> PreVotesStale()
      ensures old(VotesRegistered()) ==> VotesRegistered()
      ensures old(PreVotesStale() && VotesRegistered()) ==>
        (forall p :: p in preVoteRequests ==> !p.available) && (forall v :: v in voteRequests ==> !v.available)
      ensures state.role == Follower && state.term == term && state.leaderId == leaderId
      ensures voteCollectors == {} && preVoteCollectors == {}
      ensures forall v :: v in old(voteCollectors) ==> !v.available
      ensures forall p :: p in old(preVoteCollectors) ==> p.View() == PreVoteSpec.Disable(old(p.View()))
      ensures heartBeatSender == Disarmed(HEART_BEAT_INTERVAL)
      ensures electionTimeoutChecker.Armed? && electionTimeoutChecker.delay < MAX_ELECTION_TIMEOUT
      ensures preVoteRequests == old(preVoteRequests) && voteRequests == old(voteRequests)
      ensures heartBeatsSent == old(heartBeatsSent)
    {
      state.role := Follower;
      state.term := term;
      state.leaderId := leaderId;
      CancelAllVoteCollectors();
      StopSendHeartBeatToFollower();
      ResetElectionTimeout();
    }

    /**
     * Take the lead: record self as leader, disable all collectors, stop the
     * election timer and start the heartbeat. The role is set to leader and
     * then reset to follower by `CancelAllVoteCollectors`.
     */
    method BecomeALeader()
      requires Valid() && Ready()
      modifies this, state, voteCollectors, preVoteCollectors
      ensures Valid() && Ready()
      ensures old(PreVotesStale()) ==> PreVotesStale()
      ensures old(VotesRegistered()) ==> VotesRegistered()
      ensures old(PreVotesStale() && VotesRegistered()) ==>
        (forall p :: p in preVoteRequests ==> !p.available) && (forall v :: v in voteRequests ==> !v.available)
      ensures state.leaderId == state.selfId && state.term == old(state.term)
      ensures state.role == Follower
      ensures voteCollectors == {} && preVoteCollectors == {}
      ensures forall v :: v in old(voteCollectors) ==> !v.available
      ensures forall p :: p in old(preVoteCollectors) ==> p.View() == PreVoteSpec.Disable(old(p.View()))
      ensures electionTimeoutChecker == Cancelled(old(electionTimeoutChecker))
      ensures heartBeatSender == Armed(HEART_BEAT_INTERVAL)
      ensures preVoteRequests == old(preVoteRequests) && voteRequests == old(voteRequests)
      ensures heartBeatsSent == old(heartBeatsSent)
    {
      state.leaderId := state.selfId;
      state.role := Leader;
      CancelAllVoteCollectors();
      StopElectionTimeout();
      RefreshSendHeartBeatToFollower();
    }
  }
}
