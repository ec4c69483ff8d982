/** The locked sections of a Raft node as functions from the node's state to its next state. */
module RaftSpec {
  // Each function follows one handler of internal/raft/node.go branch by branch, including the places where
  // the handler is weaker than it is meant to be. Class `Node` implements them; module `Cluster` runs them.
  // Persisting succeeds, and terms and indexes do not wrap.

  import opened Quorums
  import opened Sets

  /** What `votedFor` and `currentLeader` hold when there is nobody to name. */
  const NO_ONE: NodeId := -1

  /** The most entries one append request carries. */
  const MAX_BATCH := 256

  datatype Option<+T> = None | Some(value: T)

  datatype Command = Exec(sql: string) | Noop | ConfChange(adding: bool, node: NodeId)

  datatype Entry = Entry(index: nat, term: nat, command: Command)

  datatype Role = Follower | Candidate | Leader

  /** The contents of state.bin and log.bin. */
  datatype Disk = Disk(currentTerm: nat, votedFor: NodeId, snapshotIndex: nat, snapshotTerm: nat, log: seq<Entry>)

  /** `log[0]` has index `snapshotIndex + 1`; `unsaved` are the proposed entries not yet written to `disk`. */
  datatype NodeState = NodeState(
    id: NodeId,
    peers: set<NodeId>,
    log: seq<Entry>,
    currentTerm: nat,
    votedFor: NodeId,
    commitIndex: nat,
    role: Role,
    currentLeader: NodeId,
    votes: nat,
    nextIndex: map<NodeId, nat>,
    matchIndex: map<NodeId, nat>,
    snapshotIndex: nat,
    snapshotTerm: nat,
    removing: set<NodeId>,
    appliedIndex: nat,
    unsaved: seq<Entry>,
    disk: Disk)

  datatype VoteRequest = VoteRequest(from: NodeId, to: NodeId, term: nat, candidateId: NodeId,
                                     lastLogIndex: nat, lastLogTerm: nat)
  datatype VoteReply = VoteReply(from: NodeId, to: NodeId, term: nat, granted: bool)
  datatype AppendRequest = AppendRequest(from: NodeId, to: NodeId, term: nat, leaderId: NodeId,
                                         prevLogIndex: nat, prevLogTerm: nat,
                                         entries: seq<Entry>, leaderCommit: nat)
  datatype AppendReply = AppendReply(from: NodeId, to: NodeId, term: nat, success: bool, matchIndex: nat)

  // ---------- Reading the log behind its snapshot ----------

  function LastLogIndex(n: NodeState): nat {
    n.snapshotIndex + |n.log|
  }

  function LogTermAt(n: NodeState, index: nat): nat {
    if index == 0 then 0
    else if index <= n.snapshotIndex then n.snapshotTerm
    else if index > LastLogIndex(n) then 0
    else n.log[index - n.snapshotIndex - 1].term
  }

  function LastLogTerm(n: NodeState): nat {
    LogTermAt(n, LastLogIndex(n))
  }

  function EntryAt(n: NodeState, index: nat): Option<Entry> {
    if index <= n.snapshotIndex || index > LastLogIndex(n) then None
    else Some(n.log[index - n.snapshotIndex - 1])
  }

  function Lookup(m: map<NodeId, nat>, p: NodeId): nat {
    if p in m then m[p] else 0
  }

  // ---------- Persisting ----------

  /** state.bin is rewritten when the term, the vote or the snapshot index moved. */
  function PersistState(n: NodeState): NodeState {
    if n.currentTerm == n.disk.currentTerm && n.votedFor == n.disk.votedFor
       && n.snapshotIndex == n.disk.snapshotIndex
    then n
    else n.(disk := Disk(n.currentTerm, n.votedFor, n.snapshotIndex, n.snapshotTerm, n.disk.log))
  }

  function RewriteLog(n: NodeState): NodeState {
    n.(disk := n.disk.(log := n.log))
  }

  function AppendToDisk(n: NodeState, tail: seq<Entry>): NodeState {
    n.(disk := n.disk.(log := n.disk.log + tail))
  }

  /** The entries LoadLog keeps: it drops a leading run of entries inside the snapshot. */
  function BeyondSnapshot(entries: seq<Entry>, snapshotIndex: nat): seq<Entry> {
    if entries == [] || entries[0].index > snapshotIndex then entries
    else BeyondSnapshot(entries[1..], snapshotIndex)
  }

  function LoadLog(disk: Disk): seq<Entry> {
    if disk.snapshotIndex == 0 then disk.log else BeyondSnapshot(disk.log, disk.snapshotIndex)
  }

  /** A node started from its disk and the index its database has applied; it refuses to start when
      the database is ahead of the log. */
  function Recover(id: NodeId, peers: set<NodeId>, disk: Disk, applied: nat): Option<NodeState> {
    var log := LoadLog(disk);
    if applied > disk.snapshotIndex + |log| then None
    else Some(NodeState(id, peers, log, disk.currentTerm, disk.votedFor, applied, Follower, NO_ONE, 0,
                        map[], map[], disk.snapshotIndex, disk.snapshotTerm, {}, applied, [], disk))
  }

  // ---------- Elections ----------

  /** Back to follower. The vote is cleared whether or not the term rises. */
  function StepDown(n: NodeState, newTerm: nat): NodeState {
    PersistState(n.(currentTerm := if newTerm > n.currentTerm then newTerm else n.currentTerm,
                    role := Follower, votedFor := NO_ONE, currentLeader := NO_ONE))
  }

  predicate TakesAllTo(m: map<NodeId, nat>, nodes: set<NodeId>, index: nat) {
    m.Keys == nodes && forall p :: p in nodes ==> m[p] == index
  }

  lemma {:induction false} AllAtExists(nodes: set<NodeId>, index: nat) returns (m: map<NodeId, nat>)
    ensures TakesAllTo(m, nodes, index)
  {
    if nodes == {} {
      m := map[];
    } else {
      var p := Any(nodes);
      m := AllAtExists(nodes - {p}, index);
      m := m[p := index];
    }
  }

  /** The map that takes each of `nodes` to `index`. */
  ghost function AllAt(nodes: set<NodeId>, index: nat): (m: map<NodeId, nat>)
    ensures TakesAllTo(m, nodes, index)
  {
    assert exists m :: TakesAllTo(m, nodes, index) by {
      var m := AllAtExists(nodes, index);
    }
    var m :| TakesAllTo(m, nodes, index);
    m
  }

  ghost function BecomeLeader(n: NodeState): NodeState {
    n.(role := Leader, currentLeader := n.id,
       nextIndex := n.nextIndex + AllAt(n.peers, LastLogIndex(n) + 1),
       matchIndex := n.matchIndex + AllAt(n.peers, 0))
  }

  ghost function WinIfElected(n: NodeState): NodeState {
    if n.votes >= MajoritySize(|n.peers| + 1) then BecomeLeader(n) else n
  }

  function StandForElection(n: NodeState): NodeState {
    PersistState(n.(role := Candidate, currentTerm := n.currentTerm + 1, votedFor := n.id, votes := 1))
  }

  ghost function StartElection(n: NodeState): NodeState {
    WinIfElected(StandForElection(n))
  }

  /** The request that a node which has just stood sends to a peer. */
  function VoteRequestTo(n: NodeState, peer: NodeId): VoteRequest {
    VoteRequest(n.id, peer, n.currentTerm, n.id, LastLogIndex(n), LastLogTerm(n))
  }

  /** Whether a log ending in `(term, index)` is at least as up to date as one ending in `(ownTerm, ownIndex)`. */
  predicate UpToDate(term: nat, index: nat, ownTerm: nat, ownIndex: nat) {
    term > ownTerm || (term == ownTerm && index >= ownIndex)
  }

  predicate GrantsVote(n: NodeState, req: VoteRequest) {
    && req.term >= n.currentTerm
    && UpToDate(req.lastLogTerm, req.lastLogIndex, LastLogTerm(n), LastLogIndex(n))
    && (req.term > n.currentTerm || n.votedFor == NO_ONE || n.votedFor == req.candidateId)
  }

  function HandleVoteRequest(n: NodeState, req: VoteRequest): (NodeState, VoteReply) {
    var m := if req.term > n.currentTerm then StepDown(n, req.term) else n;
    if GrantsVote(n, req) then
      (PersistState(m.(votedFor := req.candidateId, currentLeader := req.candidateId, role := Follower)),
       VoteReply(req.to, req.from, m.currentTerm, true))
    else
      (m, VoteReply(req.to, req.from, m.currentTerm, false))
  }

  /** Whether a reply adds one to the node's votes. */
  predicate CountsVote(n: NodeState, reply: VoteReply) {
    n.role == Candidate && reply.term == n.currentTerm && reply.granted
  }

  ghost function HandleVoteReply(n: NodeState, reply: VoteReply): NodeState {
    if reply.term > n.currentTerm then StepDown(n, reply.term)
    else if CountsVote(n, reply) then WinIfElected(n.(votes := n.votes + 1))
    else n
  }

  // ---------- Replication ----------

  function Propose(n: NodeState, command: Command): NodeState {
    var entry := Entry(LastLogIndex(n) + 1, n.currentTerm, command);
    n.(log := n.log + [entry], unsaved := n.unsaved + [entry])
  }

  /** The batch writer: the proposed entries reach the disk, then the commit index may move. */
  function PersistBatch(n: NodeState): NodeState {
    if n.unsaved == [] then n
    else TryCommit(AppendToDisk(n, n.unsaved).(unsaved := []))
  }

  function BuildAppend(n: NodeState, peer: NodeId): AppendRequest {
    var wanted := Lookup(n.nextIndex, peer);
    var next := if wanted > LastLogIndex(n) + 1 then LastLogIndex(n) + 1 else wanted;
    var prev := if next > 1 then next - 1 else 0;
    var entries :=
      if n.snapshotIndex < next <= LastLogIndex(n) then
        var start := next - n.snapshotIndex - 1;
        n.log[start..if start + MAX_BATCH > |n.log| then |n.log| else start + MAX_BATCH]
      else [];
    AppendRequest(n.id, peer, n.currentTerm, n.id, prev, LogTermAt(n, prev), entries, n.commitIndex)
  }

  /** What the follower's loop over the request's entries leaves: the log, the number of entries it passed
      over because it had them, and whether it cut a conflicting tail. `Clash` is a conflict inside the snapshot. */
  datatype Spliced = Clash | Spliced(log: seq<Entry>, passed: nat, cut: bool)

  function Splice(log: seq<Entry>, snapshotIndex: nat, snapshotTerm: nat, prev: nat,
                  entries: seq<Entry>, i: nat): (r: Spliced)
    requires i <= |entries|
    ensures r.Spliced? ==> i <= r.passed <= |entries|
    decreases |entries| - i
  {
    var index := prev + i + 1;
    if i == |entries| then Spliced(log, i, false)
    else if index <= snapshotIndex then
      if snapshotTerm != entries[i].term then Clash
      else Splice(log, snapshotIndex, snapshotTerm, prev, entries, i + 1)
    else if index <= snapshotIndex + |log| then
      if log[index - snapshotIndex - 1].term != entries[i].term
      then Spliced(log[..index - snapshotIndex - 1] + entries[i..], i, true)
      else Splice(log, snapshotIndex, snapshotTerm, prev, entries, i + 1)
    else Spliced(log + entries[i..], i, false)
  }

  /** The log.bin write that matches a splice. */
  function SaveSplice(n: NodeState, entries: seq<Entry>, s: Spliced): NodeState
    requires s.Spliced? && s.passed <= |entries|
  {
    var m := n.(log := s.log);
    if s.cut then RewriteLog(m)
    else if s.passed < |entries| then AppendToDisk(m, entries[s.passed..])
    else m
  }

  /** The follower's commit index after an accepted request: clamped to its own last index only. */
  function FollowCommit(n: NodeState, leaderCommit: nat): NodeState {
    var clamped := if leaderCommit > LastLogIndex(n) then LastLogIndex(n) else leaderCommit;
    if clamped > n.commitIndex then n.(commitIndex := clamped) else n
  }

  /** Whether the log holds the entry that the request says precedes its own. */
  predicate HoldsPrevious(n: NodeState, req: AppendRequest) {
    req.prevLogIndex == 0
    || (req.prevLogIndex <= LastLogIndex(n) && LogTermAt(n, req.prevLogIndex) == req.prevLogTerm)
  }

  /** A rejected request cuts the log just before the conflicting entry, never inside the snapshot. */
  function CutConflict(n: NodeState, prev: nat): NodeState {
    if n.snapshotIndex < prev <= LastLogIndex(n)
    then RewriteLog(n.(log := n.log[..prev - n.snapshotIndex - 1]))
    else n
  }

  function AcceptAppend(n: NodeState, req: AppendRequest): (NodeState, bool) {
    var s := Splice(n.log, n.snapshotIndex, n.snapshotTerm, req.prevLogIndex, req.entries, 0);
    if s.Clash? then (n, false)
    else (FollowCommit(SaveSplice(n, req.entries, s), req.leaderCommit), true)
  }

  function HandleAppend(n: NodeState, req: AppendRequest): (NodeState, AppendReply) {
    if req.term < n.currentTerm then
      (n, AppendReply(req.to, req.from, n.currentTerm, false, 0))
    else
      var m := StepDown(n, req.term).(currentLeader := req.leaderId);
      if HoldsPrevious(m, req) then
        var (accepted, ok) := AcceptAppend(m, req);
        (accepted, AppendReply(req.to, req.from, m.currentTerm, ok, req.prevLogIndex + |req.entries|))
      else
        (CutConflict(m, req.prevLogIndex), AppendReply(req.to, req.from, m.currentTerm, false, 0))
  }

  /** After a rejection the next index is halved, but not below one. */
  function Halve(next: nat): nat {
    if next > 1 then next / 2 else next
  }

  function HandleAppendReply(n: NodeState, peer: NodeId, reply: AppendReply): NodeState {
    if reply.term > n.currentTerm then StepDown(n, reply.term)
    else if n.role != Leader || reply.term != n.currentTerm then n
    else if reply.success then
      TryCommit(n.(matchIndex := n.matchIndex[peer := reply.matchIndex],
                   nextIndex := n.nextIndex[peer := reply.matchIndex + 1]))
    else if Lookup(n.nextIndex, peer) > 1 then
      n.(nextIndex := n.nextIndex[peer := Halve(n.nextIndex[peer])])
    else n
  }

  // ---------- The commit rule ----------

  /** The peers that the commit loop counts. */
  function Counted(n: NodeState): set<NodeId> {
    n.matchIndex.Keys - n.removing
  }

  /** The counted peers known to hold the entry at `index`. */
  function Holders(n: NodeState, index: nat): set<NodeId> {
    set p | p in Counted(n) && n.matchIndex[p] >= index
  }

  predicate OnMajority(n: NodeState, index: nat) {
    1 + |Holders(n, index)| >= MajoritySize(1 + |Counted(n)|)
  }

  /** The last index reached by walking up from `index` while entries are on a majority. */
  function ReplicatedFrom(n: NodeState, index: nat): (r: nat)
    requires index <= LastLogIndex(n)
    ensures index <= r <= LastLogIndex(n)
    decreases LastLogIndex(n) - index
  {
    if index < LastLogIndex(n) && OnMajority(n, index + 1) then ReplicatedFrom(n, index + 1) else index
  }

  function TryCommit(n: NodeState): NodeState {
    if n.commitIndex >= LastLogIndex(n) then n
    else
      var r := ReplicatedFrom(n, n.commitIndex);
      if r > n.commitIndex && LogTermAt(n, r) == n.currentTerm then n.(commitIndex := r) else n
  }

  // ---------- Applying and compacting ----------

  /** One turn of the apply loop, when a committed entry is in memory and not yet applied. */
  function ApplyNext(n: NodeState): NodeState {
    if n.appliedIndex < n.commitIndex && EntryAt(n, n.appliedIndex + 1).Some?
    then n.(appliedIndex := n.appliedIndex + 1)
    else n
  }

  /** The disk between the two writes of a compaction: the snapshot position has moved, log.bin has not. */
  function MarkSnapshot(n: NodeState, index: nat, term: nat): Disk {
    Disk(n.currentTerm, n.votedFor, index, term, n.disk.log)
  }

  function Compact(n: NodeState, index: nat, term: nat): NodeState
    requires n.snapshotIndex <= index <= LastLogIndex(n)
  {
    RewriteLog(n.(snapshotIndex := index, snapshotTerm := term, log := n.log[index - n.snapshotIndex..],
                  disk := MarkSnapshot(n, index, term)))
  }
}
