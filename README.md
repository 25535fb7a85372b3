# Gekko leader election: a verified Dafny model

This project models the leader-election core of the Gekko replicated log. That
core is a Raft-style election with a pre-vote phase, made of two parts:

- the **elector** (`GekkoLeaderElector`). It owns the node's role, term and
  leader bookkeeping (`NodeState`), a registry of in-flight vote and pre-vote
  collectors, an election timer with a random delay and a heartbeat timer with
  a fixed delay;
- the **pre-vote collector** (`PreVoteCollector`). It handles one pre-vote
  round: it filters answers by term, gathers the agreeing voters in a set that
  starts with the node itself, and promotes the node to candidate once the set
  exceeds half the peer count, at most once.

Files:

- `election_types.dfy` (module `ElectionTypes`) holds Java `long` terms with
  their wrap-around (`LongInc`), roles, vote responses, the timing constants
  (300 / 150 / 80 ms) and the abstract timer state (`Absent`,
  `Armed(delay)`, `Disarmed(delay)`).
- `prevote_spec.dfy` (module `PreVoteSpec`) describes the collector as a value.
  `Respond` gives the effect of one answer, `Run` the effect of a sequence of
  answers observed against changing node terms, and `Disable` the effect of
  `disAble`. The lemmas state the collector's guarantees.
- `election.dfy` (module `Election`) holds the classes `NodeState`,
  `VoteCollector`, `PreVoteCollector` and `GekkoLeaderElector`. Their methods
  update fields in place, as the Java does. `PreVoteCollector.OnResponse` and
  `DisAble` are proved to follow `PreVoteSpec.Respond` and
  `PreVoteSpec.Disable`. Every elector method states its complete new state.
  Each elector method also preserves `Valid()`: the election delay is below 300,
  the heartbeat delay is 80, and every registered collector was broadcast.
  Each one also preserves `PreVotesStale()`: every pre-vote collector that is
  still available is registered and was created at a term no higher than the
  node's. And each preserves `VotesRegistered()`: every vote collector that is
  still available is registered.
- `scenarios.dfy` (module `ElectionScenarios`) drives the classes on freshly
  built nodes and states what each run ends with.

Quirks of the code that the model keeps, each a departure from the Raft pre-vote
rule (section 9.6 of Ongaro's dissertation "Consensus: Bridging Theory and
Practice") or from the source's own evident intent:

- The collector's term and its staleness check do not fit together. The
  constructor (PreVoteCollector.java:54) takes the node's *current* term, and
  the commented-out compare-and-set at PreVoteCollector.java:78, which moves the
  term from `voteTerm` to `voteTerm + 1`, sides with that reading. The
  staleness check at PreVoteCollector.java:66 drops every answer unless
  `voteTerm >= term + 1`, which fits the Raft pre-vote rule, where a pre-vote
  asks for the term the node would move to. Paired, the two lines let a round
  promote only after the node's term has gone down.
  `NoPromotionWhileTermHolds` proves this for any run of answers, and
  `OnResponse` proves it for the real objects. The one exception is a term of
  `Long.MAX_VALUE`, where `term + 1` wraps around
  (`WrappedTermAdmitsAnswer`, `ElectionScenarios.PromotionAtLongMax`).
- `BecomeAFollower` overwrites the term, so the term can decrease
  (`HeartbeatSilencesRound`).
- `BecomeALeader` sets the role to leader and then to follower, because it
  calls `CancelAllVoteCollectors` afterwards.
- Election delays are drawn from [0, 300). `MIN_ELECTION_TIMEOUT` (150 ms) is
  never used as a lower bound; it only seeds the `Random` at
  GekkoLeaderElector.java:57. So delays below 150 ms occur.

## Model

| member | source | states |
|---|---|---|
| ElectionTypes.LongInc | src/main/java/com/github/jobop/gekko/core/election/PreVoteCollector.java:66 | `term + 1` on a Java long: the result is congruent to term + 1 modulo 2^64 and equals term + 1 below Long.MAX_VALUE |
| PreVoteSpec.Respond | src/main/java/com/github/jobop/gekko/core/election/PreVoteCollector.java:60-86 | one answer keeps the collector valid and its term unchanged; it promotes only from an active collector, which it then leaves inactive; an inactive collector is never changed and never reactivated |
| PreVoteSpec.Run | src/main/java/com/github/jobop/gekko/core/election/PreVoteCollector.java:60-86 | a run of answers keeps the collector valid, keeps its term and never reactivates it |
| PreVoteSpec.AcceptedIff | src/main/java/com/github/jobop/gekko/core/election/PreVoteCollector.java:62-69 | an answer passes the term checks iff it carries the collector's term and that term exceeds the node's term, or the node's term is Long.MAX_VALUE |
| PreVoteSpec.ForeignTermChangesNothing | src/main/java/com/github/jobop/gekko/core/election/PreVoteCollector.java:62-65 | an answer for another term changes nothing and does not promote |
| PreVoteSpec.StaleTermChangesNothing | src/main/java/com/github/jobop/gekko/core/election/PreVoteCollector.java:66-69 | when voteTerm < term + 1 the answer changes nothing; this holds whenever voteTerm <= term < Long.MAX_VALUE |
| PreVoteSpec.RejectOrInactiveChangesNothing | src/main/java/com/github/jobop/gekko/core/election/PreVoteCollector.java:71-72 | a REJECT, or any answer to an inactive collector, changes nothing |
| PreVoteSpec.AgreeRecordsVoter | src/main/java/com/github/jobop/gekko/core/election/PreVoteCollector.java:71-73 | an accepted AGREE on an active collector adds exactly the voter to the agreement set; all other answers leave it as it was; a repeated voter leaves the set unchanged |
| PreVoteSpec.PromotesIff | src/main/java/com/github/jobop/gekko/core/election/PreVoteCollector.java:71-80 | an answer promotes iff it is accepted, the collector is active, it agrees, and the agreement set with the voter exceeds peers / 2 in integer division |
| PreVoteSpec.QuorumBoundary | src/main/java/com/github/jobop/gekko/core/election/PreVoteCollector.java:75 | an agreement set of exactly N/2 voters does not promote; one of N/2 + 1 voters does |
| PreVoteSpec.AtMostOnePromotion | src/main/java/com/github/jobop/gekko/core/election/PreVoteCollector.java:71-80 | in any run of answers, under any node terms, a collector promotes at most once; an inactive collector never changes and never promotes |
| PreVoteSpec.NoPromotionWhileTermHolds | src/main/java/com/github/jobop/gekko/core/election/PreVoteCollector.java:54-69 | while the node's term stays in [voteTerm, Long.MAX_VALUE), no run of answers changes the collector or promotes |
| PreVoteSpec.DisableIsFinal | src/main/java/com/github/jobop/gekko/core/election/PreVoteCollector.java:108-113 | disabling is idempotent; it leaves the collector inactive with the same term and releases the set of an active one; after it no answer changes anything |
| PreVoteSpec.FreshCollectorIgnoresAgreement | src/main/java/com/github/jobop/gekko/core/election/PreVoteCollector.java:52-69 | a new collector at term 0 ignores two agreements for term 0 while the node stays at term 0 |
| PreVoteSpec.TwoOfFourPeersPromote | src/main/java/com/github/jobop/gekko/core/election/PreVoteCollector.java:71-80 | with 4 peers, self plus one agreement does not promote; self plus two promotes exactly once and leaves the collector inactive with {a, b, c} |
| PreVoteSpec.WrappedTermAdmitsAnswer | src/main/java/com/github/jobop/gekko/core/election/PreVoteCollector.java:66 | at term Long.MAX_VALUE a new collector accepts an answer for its own term and can promote |
| Election.VoteCollector.DisAble | src/main/java/com/github/jobop/gekko/core/election/GekkoLeaderElector.java:109-113 | a disabled vote collector is inactive |
| Election.PreVoteCollector.constructor | src/main/java/com/github/jobop/gekko/core/election/PreVoteCollector.java:52-57 | the term is the node's current term, the agreement set is {selfId}, and the collector is available |
| Election.PreVoteCollector.OnResponse | src/main/java/com/github/jobop/gekko/core/election/PreVoteCollector.java:60-86 | the collector moves as Respond says. On promotion: role CANDIDATE, term + 1 (wrapping), one fresh vote collector registered and requested, and the election timer re-armed. Otherwise node and elector are unchanged. With the elector's invariant and a term below Long.MAX_VALUE, a registered round never changes |
| Election.PreVoteCollector.ReqToRealVote | src/main/java/com/github/jobop/gekko/core/election/PreVoteCollector.java:88-96 | role CANDIDATE and term + 1. Exactly one new vote collector is added to the registry and exactly one vote request is issued. The election timer is re-armed with a delay below 300. Pre-vote state and heartbeat are unchanged |
| Election.PreVoteCollector.DisAble | src/main/java/com/github/jobop/gekko/core/election/PreVoteCollector.java:108-113 | the new state is Disable of the old one: inactive, and the set is released if the collector was active |
| Election.GekkoLeaderElector.constructor | src/main/java/com/github/jobop/gekko/core/election/GekkoLeaderElector.java:59-64 | empty registries and no timers yet |
| Election.GekkoLeaderElector.NextElectionDelay | src/main/java/com/github/jobop/gekko/core/election/GekkoLeaderElector.java:79 | a random election delay lies in [0, MAX_ELECTION_TIMEOUT) |
| Election.GekkoLeaderElector.Init | src/main/java/com/github/jobop/gekko/core/election/GekkoLeaderElector.java:67-90 | the election timer is armed with a delay in [0, 300); the heartbeat timer is created idle at 80 ms |
| Election.GekkoLeaderElector.Start | src/main/java/com/github/jobop/gekko/core/election/GekkoLeaderElector.java:94-96 | re-arms the election timer with its delay and touches nothing else |
| Election.GekkoLeaderElector.Shutdown | src/main/java/com/github/jobop/gekko/core/election/GekkoLeaderElector.java:99-101 | cancels the election timer and touches nothing else |
| Election.GekkoLeaderElector.OnElectionTimeout | src/main/java/com/github/jobop/gekko/core/election/GekkoLeaderElector.java:71-78 | role PRE_CANDIDATE with term and leader unchanged. Exactly one fresh collector is broadcast and added to the pre-vote registry; its term is the current term and its set is {selfId}. The election timer is re-armed |
| Election.GekkoLeaderElector.OnHeartBeatTimeout | src/main/java/com/github/jobop/gekko/core/election/GekkoLeaderElector.java:84-88 | exactly one heartbeat is sent and the heartbeat timer is re-armed at 80 ms |
| Election.GekkoLeaderElector.CancelAllVoteCollectors | src/main/java/com/github/jobop/gekko/core/election/GekkoLeaderElector.java:106-125 | role FOLLOWER; every registered vote and pre-vote collector is disabled and both registries are empty. Under the elector's invariants `PreVotesStale` and `VotesRegistered`, no pre-vote or vote collector ever broadcast remains available. Term, leader and timers are unchanged |
| Election.GekkoLeaderElector.RefreshSendHeartBeatToFollower | src/main/java/com/github/jobop/gekko/core/election/GekkoLeaderElector.java:127-129 | the heartbeat timer is armed at 80 ms |
| Election.GekkoLeaderElector.StopSendHeartBeatToFollower | src/main/java/com/github/jobop/gekko/core/election/GekkoLeaderElector.java:131-133 | the heartbeat timer is disarmed |
| Election.GekkoLeaderElector.StopElectionTimeout | src/main/java/com/github/jobop/gekko/core/election/GekkoLeaderElector.java:135-137 | the election timer is disarmed |
| Election.GekkoLeaderElector.ResetElectionTimeout | src/main/java/com/github/jobop/gekko/core/election/GekkoLeaderElector.java:139-141 | the election timer is re-armed with a delay in [0, 300) |
| Election.GekkoLeaderElector.BecomeAFollower | src/main/java/com/github/jobop/gekko/core/election/GekkoLeaderElector.java:144-151 | role FOLLOWER, term exactly the given term (even a lower one), and leader as given. All collectors are disabled and both registries are empty; under the elector's invariants no collector ever broadcast remains available. The heartbeat is cancelled and the election timer is re-armed below 300 |
| Election.GekkoLeaderElector.BecomeALeader | src/main/java/com/github/jobop/gekko/core/election/GekkoLeaderElector.java:153-159 | leader is selfId with the term unchanged, and the final role is FOLLOWER. All collectors are disabled and both registries are empty; under the elector's invariants no collector ever broadcast remains available. The election timer is cancelled and the heartbeat is armed at 80 ms |
| ElectionScenarios.FirstElectionTimeout | src/main/java/com/github/jobop/gekko/core/election/GekkoLeaderElector.java:71-78 | a follower at term 0 that times out becomes PRE_CANDIDATE. It has one registered round, broadcast once, for term 0 and with set {self} |
| ElectionScenarios.PreVoteAnswersDropped | src/main/java/com/github/jobop/gekko/core/election/PreVoteCollector.java:54-69 | a majority of agreements for term 0 or term 1 is dropped. The node stays PRE_CANDIDATE at term 0 and no vote is requested |
| ElectionScenarios.HeartbeatSilencesRound | src/main/java/com/github/jobop/gekko/core/election/GekkoLeaderElector.java:144-151 | a heartbeat at a lower term lowers the node's term and disables the round. Late agreements then change nothing |
| ElectionScenarios.LeaderEndsAsFollower | src/main/java/com/github/jobop/gekko/core/election/GekkoLeaderElector.java:153-159 | after BecomeALeader the role is FOLLOWER with the leader set to self. The election timer is disarmed and heartbeats fire and re-arm at 80 ms |
| ElectionScenarios.CancelTwice | src/main/java/com/github/jobop/gekko/core/election/GekkoLeaderElector.java:106-125 | a second cancellation changes neither role, term nor the collector's state, and the registries stay empty |
| ElectionScenarios.PromotionAtLongMax | src/main/java/com/github/jobop/gekko/core/election/PreVoteCollector.java:60-96 | at term Long.MAX_VALUE a lone node's round promotes: the node becomes CANDIDATE, its term wraps to Long.MIN_VALUE, and one vote is requested |

## Left out

- The append-entry request processor (AppendEntryProcessor.java) is left out. It only delegates to log replication and answers over the network, and it has no election logic.
- Concurrency is left out: the synchronized sets, `volatile`, the races around `AtomicBoolean.compareAndSet`, and the response executor. Each handler is one atomic step, and compare-and-set is a test-and-set on a boolean.
- Timer internals are not modelled. The timeout holder classes are not part of this model. A timer is `Absent`, `Armed(delay)` or `Disarmed(delay)`. Creation in `Init` is taken to arm the election timer and to leave the heartbeat timer idle. Elapsed time and the moment of firing are not modelled: the two timer tasks are methods the environment may call. `Init` called twice replaces the holders, and the model does not show the pending firings of the old ones.
- Transport calls (`client.preVote`, `client.reqVote`, `client.sendHeartBeat`) are logs on the elector: the collectors handed over, in order, and a heartbeat count. The messages themselves are not modelled.
- Weak references are not modelled. The registries are sets of collector references that are always live. A collector that can still receive an answer is reachable from the transport.
- The `java.util.Random` seeding and its sequence of values are not modelled. Each draw is an arbitrary value in [0, 300). In the source the generator is seeded with the fixed value 150 (GekkoLeaderElector.java:57), so every elector draws the same sequence of delays. Nodes started together therefore time out in step. The model's independent draws do not capture that.
- VoteCollector.java is not part of this model. A vote collector is only a handle with an `available` flag; its term, its vote counting and its call into `becomeALeader` are not modelled.
- NodeState.java is not part of this model. Its fields (self id, peer set, role, term, leader id) are taken from how the elector and the collector use them. The peer set is fixed.
- Calls made before `init()` are not modelled: the elector's methods require the timers to exist. In the source the holders are created only in `init` (GekkoLeaderElector.java:69 and 82), so an earlier call throws a NullPointerException. Before it throws, `becomeAFollower` sets role, term and leader and runs `cancelAllVoteCollectors` (role FOLLOWER, every collector disabled, both registries cleared); the exception comes at GekkoLeaderElector.java:149. `becomeALeader` likewise sets leader and role and cancels all collectors, then throws at line 157.
- `onException` (logging only), `getExecutor`, the unused `conf` field and the Lombok accessors are left out.
