/** A cluster of Raft nodes with fixed membership, run by the handlers of `RaftSpec`. */
module Cluster {
  // Messages may be lost (never delivered), delayed and reordered; append requests and replies may also be
  // delivered many times. Vote requests and replies are delivered at most once, as a unary call is.
  // A node may crash at any step and restart from its disk. Compaction and snapshots are not part of the runs.
  //
  // `History` is a record of the run used only to state and prove its properties: no handler reads it.

  import opened Quorums
  import opened RaftSpec

  datatype Message =
    | AskVote(ask: VoteRequest)
    | AnswerVote(answer: VoteReply)
    | AskAppend(append: AppendRequest)
    | AnswerAppend(outcome: AppendReply)

  /** A vote cast: for whom, and the voter's log when it was cast. */
  datatype Ballot = Ballot(candidate: NodeId, log: seq<Entry>)

  /** A won election: the winner, the nodes whose votes it counted, its log when it won, and its log now
      or when it stopped leading. */
  datatype Reign = Reign(leader: NodeId, voters: set<NodeId>, start: seq<Entry>, log: seq<Entry>)

  /** All maps but `reigns` are keyed by a term and a node: the log with which the node stood, the first
      ballot it cast, the votes it has counted, and the highest index it has acknowledged. */
  datatype History = History(
    stands: map<(nat, NodeId), seq<Entry>>,
    ballots: map<(nat, NodeId), Ballot>,
    tally: map<(nat, NodeId), set<NodeId>>,
    reigns: map<nat, Reign>,
    acked: map<(nat, NodeId), nat>)

  /** Two repairs of the handlers, with or without which they are run: an append request that does not raise the term
      leaves the vote alone, and a follower's commit index is clamped to what the request covers. */
  datatype Variant = Variant(voteKept: bool, clamped: bool)

  const AS_WRITTEN := Variant(false, false)
  const REPAIRED := Variant(true, true)

  datatype State = State(variant: Variant, ids: set<NodeId>, nodes: map<NodeId, NodeState>,
                         net: set<Message>, history: History)

  datatype Event =
    | Timeout(node: NodeId)
    | DeliverAskVote(ask: VoteRequest)
    | DeliverAnswerVote(answer: VoteReply)
    | ClientPropose(node: NodeId, command: Command)
    | SendAppend(node: NodeId, peer: NodeId)
    | DeliverAskAppend(append: AppendRequest)
    | DeliverAnswerAppend(outcome: AppendReply)
    | ApplyOne(node: NodeId)
    | CrashRestart(node: NodeId, recovered: nat)

  // ---------- Records of the run ----------

  function Tally(h: History, term: nat, node: NodeId): set<NodeId> {
    if (term, node) in h.tally then h.tally[(term, node)] else {}
  }

  function Won(h: History, s: NodeState): History {
    if s.role != Leader then h
    else h.(reigns := h.reigns[s.currentTerm := Reign(s.id, Tally(h, s.currentTerm, s.id), s.log, s.log)],
            acked := h.acked[(s.currentTerm, s.id) := |s.log|])
  }

  function Standing(h: History, s: NodeState): History {
    h.(stands := h.stands[(s.currentTerm, s.id) := s.log],
       ballots := h.ballots[(s.currentTerm, s.id) := Ballot(s.id, s.log)],
       tally := h.tally[(s.currentTerm, s.id) := {s.id}])
  }

  function RecordStand(h: History, s: NodeState): History {
    Won(Standing(h, s), s)
  }

  function RecordBallot(h: History, before: NodeState, ask: VoteRequest, granted: bool): History {
    if granted && (ask.term, ask.to) !in h.ballots
    then h.(ballots := h.ballots[(ask.term, ask.to) := Ballot(ask.candidateId, before.log)])
    else h
  }

  function Counting(h: History, s: NodeState, voter: NodeId): History {
    h.(tally := h.tally[(s.currentTerm, s.id) := Tally(h, s.currentTerm, s.id) + {voter}])
  }

  function RecordCount(h: History, before: NodeState, after: NodeState, answer: VoteReply): History {
    if CountsVote(before, answer) then Won(Counting(h, before, answer.from), after) else h
  }

  function RecordPropose(h: History, after: NodeState): History {
    if after.currentTerm in h.reigns then
      h.(reigns := h.reigns[after.currentTerm := h.reigns[after.currentTerm].(log := after.log)],
         acked := h.acked[(after.currentTerm, after.id) := |after.log|])
    else h
  }

  function Acked(h: History, term: nat, node: NodeId): nat {
    if (term, node) in h.acked then h.acked[(term, node)] else 0
  }

  function RecordAck(h: History, append: AppendRequest, reply: AppendReply): History {
    if reply.success && reply.matchIndex > Acked(h, append.term, append.to)
    then h.(acked := h.acked[(append.term, append.to) := reply.matchIndex])
    else h
  }

  // ---------- Steps ----------

  /** The repair of the vote. */
  function KeepVote(variant: Variant, before: NodeState, after: NodeState): NodeState {
    if variant.voteKept && after.currentTerm == before.currentTerm
    then after.(votedFor := before.votedFor, disk := after.disk.(votedFor := before.votedFor))
    else after
  }

  /** The repair of the clamp: the request as a follower takes it. */
  function Received(variant: Variant, m: AppendRequest): AppendRequest {
    if variant.clamped && m.leaderCommit > m.prevLogIndex + |m.entries|
    then m.(leaderCommit := m.prevLogIndex + |m.entries|)
    else m
  }

  function VoteRequests(s: NodeState): set<Message> {
    set p | p in s.peers :: AskVote(VoteRequestTo(s, p))
  }

  predicate Enabled(c: State, e: Event) {
    match e
    case Timeout(n) => n in c.nodes && c.nodes[n].role != Leader
    case DeliverAskVote(m) => AskVote(m) in c.net && m.to in c.nodes
    case DeliverAnswerVote(m) => AnswerVote(m) in c.net && m.to in c.nodes
    case ClientPropose(n, command) => n in c.nodes && c.nodes[n].role == Leader && !command.ConfChange?
    case SendAppend(n, p) => n in c.nodes && c.nodes[n].role == Leader && p in c.nodes[n].peers
    case DeliverAskAppend(m) => AskAppend(m) in c.net && m.to in c.nodes
    case DeliverAnswerAppend(m) => AnswerAppend(m) in c.net && m.to in c.nodes
    case ApplyOne(n) => n in c.nodes
    case CrashRestart(n, recovered) =>
      n in c.nodes && recovered <= c.nodes[n].appliedIndex
      && Recover(n, c.nodes[n].peers, c.nodes[n].disk, recovered).Some?
  }

  ghost function Next(c: State, e: Event): State
    requires Enabled(c, e)
  {
    match e
    case Timeout(n) =>
      var s := StartElection(c.nodes[n]);
      c.(nodes := c.nodes[n := s], net := c.net + VoteRequests(s), history := RecordStand(c.history, s))
    case DeliverAskVote(m) =>
      var (s, reply) := HandleVoteRequest(c.nodes[m.to], m);
      c.(nodes := c.nodes[m.to := s], net := c.net - {AskVote(m)} + {AnswerVote(reply)},
         history := RecordBallot(c.history, c.nodes[m.to], m, reply.granted))
    case DeliverAnswerVote(m) =>
      var s := HandleVoteReply(c.nodes[m.to], m);
      c.(nodes := c.nodes[m.to := s], net := c.net - {AnswerVote(m)},
         history := RecordCount(c.history, c.nodes[m.to], s, m))
    case ClientPropose(n, command) =>
      var s := PersistBatch(Propose(c.nodes[n], command));
      c.(nodes := c.nodes[n := s], history := RecordPropose(c.history, s))
    case SendAppend(n, p) =>
      c.(net := c.net + {AskAppend(BuildAppend(c.nodes[n], p))})
    case DeliverAskAppend(m) =>
      var (after, reply) := HandleAppend(c.nodes[m.to], Received(c.variant, m));
      var s := KeepVote(c.variant, c.nodes[m.to], after);
      c.(nodes := c.nodes[m.to := s], net := c.net + {AnswerAppend(reply)},
         history := RecordAck(c.history, m, reply))
    case DeliverAnswerAppend(m) =>
      c.(nodes := c.nodes[m.to := HandleAppendReply(c.nodes[m.to], m.from, m)])
    case ApplyOne(n) =>
      c.(nodes := c.nodes[n := ApplyNext(c.nodes[n])])
    case CrashRestart(n, recovered) =>
      c.(nodes := c.nodes[n := Recover(n, c.nodes[n].peers, c.nodes[n].disk, recovered).value])
  }

  /** A vote granted in a term in which the node has voted goes to the same candidate again. */
  predicate NoSecondVote(c: State, ask: VoteRequest) {
    ask.to in c.nodes && GrantsVote(c.nodes[ask.to], ask) && (ask.term, ask.to) in c.history.ballots
    ==> c.history.ballots[(ask.term, ask.to)].candidate == ask.candidateId
  }

  /** What a step must meet for the safety theorems. The handlers as written do not ensure it:
      a granted vote must not contradict one already cast in the term, and a request whose batch is full must not carry
      a commit index beyond the entries it covers. The repairs ensure the one and make the other needless. */
  predicate Guarded(c: State, e: Event) {
    match e
    case DeliverAskVote(m) => c.variant.voteKept || NoSecondVote(c, m)
    case DeliverAskAppend(m) =>
      c.variant.clamped || |m.entries| < MAX_BATCH || m.leaderCommit <= m.prevLogIndex + |m.entries|
    case _ => true
  }

  // ---------- Runs ----------

  const NO_HISTORY := History(map[], map[], map[], map[], map[])

  /** A new data directory; its vote reads as zero, not as `NO_ONE`. */
  const EMPTY_DISK := Disk(0, 0, 0, 0, [])

  function Fresh(id: NodeId, ids: set<NodeId>): NodeState {
    Recover(id, ids - {id}, EMPTY_DISK, 0).value
  }

  predicate Initial(c: State) {
    && NO_ONE !in c.ids
    && c.nodes.Keys == c.ids && (forall n :: n in c.ids ==> c.nodes[n] == Fresh(n, c.ids))
    && c.net == {}
    && c.history == NO_HISTORY
  }

  /** A run: its states, and the events between them. */
  datatype Run = Run(states: seq<State>, events: seq<Event>)

  ghost predicate IsRun(r: Run) {
    && |r.states| == |r.events| + 1
    && Initial(r.states[0])
    && (forall i :: 0 <= i < |r.events| ==>
          Enabled(r.states[i], r.events[i]) && r.states[i + 1] == Next(r.states[i], r.events[i]))
  }

  ghost predicate IsGuardedRun(r: Run) {
    IsRun(r) && forall i :: 0 <= i < |r.events| ==> Guarded(r.states[i], r.events[i])
  }
}
