/** The Raft node as the source writes it: an object whose locked sections update its fields in place. */
module RaftNode {
  // Each method is proved against the function of `RaftSpec` of the same meaning; what those functions guarantee is
  // proved in `NodeLaws`, `Compaction` and the modules of the cluster.

  import opened Quorums
  import opened RaftSpec
  import opened Sets

  /** `m` is `m0` with each of `nodes` taken to `index`. */
  predicate Reset(m: map<NodeId, nat>, m0: map<NodeId, nat>, nodes: set<NodeId>, index: nat) {
    m.Keys == m0.Keys + nodes && forall p :: p in m ==> m[p] == if p in nodes then index else m0[p]
  }

  lemma ResetIs(m: map<NodeId, nat>, m0: map<NodeId, nat>, nodes: set<NodeId>, index: nat)
    requires Reset(m, m0, nodes, index)
    ensures m == m0 + AllAt(nodes, index)
  {
    var a := m0 + AllAt(nodes, index);
    assert a.Keys == m.Keys;
    assert forall p :: p in m ==> a[p] == m[p];
  }

  lemma ResetMore(m: map<NodeId, nat>, m0: map<NodeId, nat>, nodes: set<NodeId>, p: NodeId, index: nat)
    requires Reset(m, m0, nodes, index)
    ensures Reset(m[p := index], m0, nodes + {p}, index)
  {
  }

  /** The loop over the peers that sets their entries in a map. */
  method SetAll(m0: map<NodeId, nat>, nodes: set<NodeId>, index: nat) returns (m: map<NodeId, nat>)
    ensures m == m0 + AllAt(nodes, index)
  {
    m := m0;
    var rest := nodes;
    while rest != {}
      invariant rest <= nodes && Reset(m, m0, nodes - rest, index)
      decreases |rest|
    {
      var p := Pick(rest);
      ResetMore(m, m0, nodes - rest, p, index);
      assert nodes - (rest - {p}) == nodes - rest + {p};
      m := m[p := index];
      rest := rest - {p};
    }
    assert nodes - rest == nodes;
    ResetIs(m, m0, nodes, index);
  }

  class Node {
    const id: NodeId
    const peers: set<NodeId>
    var log: seq<Entry>
    var currentTerm: nat
    var votedFor: NodeId
    var commitIndex: nat
    var role: Role
    var currentLeader: NodeId
    var votes: nat
    var nextIndex: map<NodeId, nat>
    var matchIndex: map<NodeId, nat>
    var snapshotIndex: nat
    var snapshotTerm: nat
    var removing: set<NodeId>
    var appliedIndex: nat
    var unsaved: seq<Entry>
    var disk: Disk

    function State(): NodeState
      reads this
    {
      NodeState(id, peers, log, currentTerm, votedFor, commitIndex, role, currentLeader, votes, nextIndex,
                matchIndex, snapshotIndex, snapshotTerm, removing, appliedIndex, unsaved, disk)
    }

    /** A node of a new or recovered directory, when `New` does not refuse to start it. */
    constructor (id: NodeId, peers: set<NodeId>, disk: Disk, applied: nat)
      requires Recover(id, peers, disk, applied).Some?
      ensures State() == Recover(id, peers, disk, applied).value
    {
      this.id, this.peers, this.disk := id, peers, disk;
      log := LoadLog(disk);
      currentTerm, votedFor := disk.currentTerm, disk.votedFor;
      snapshotIndex, snapshotTerm := disk.snapshotIndex, disk.snapshotTerm;
      role, currentLeader, votes := Follower, NO_ONE, 0;
      nextIndex, matchIndex, removing, unsaved := map[], map[], {}, [];
      appliedIndex, commitIndex := applied, applied;
    }

    method PersistStateLocked()
      modifies this`disk
      ensures State() == PersistState(old(State()))
    {
      if currentTerm == disk.currentTerm && votedFor == disk.votedFor && snapshotIndex == disk.snapshotIndex {
        return;
      }
      disk := Disk(currentTerm, votedFor, snapshotIndex, snapshotTerm, disk.log);
    }

    method RewriteLogLocked()
      modifies this`disk
      ensures State() == RewriteLog(old(State()))
    {
      disk := disk.(log := log);
    }

    // ---------- Elections ----------

    method StepDownLocked(newTerm: nat)
      modifies this
      ensures State() == StepDown(old(State()), newTerm)
    {
      if newTerm > currentTerm {
        currentTerm := newTerm;
      }
      role := Follower;
      votedFor := NO_ONE;
      currentLeader := NO_ONE;
      PersistStateLocked();
    }

    method BecomeLeaderLocked()
      modifies this
      ensures State() == BecomeLeader(old(State()))
    {
      hide AllAt;
      var next := SetAll(nextIndex, peers, snapshotIndex + |log| + 1);
      var matched := SetAll(matchIndex, peers, 0);
      role := Leader;
      currentLeader := id;
      nextIndex := next;
      matchIndex := matched;
    }

    /** A lone node wins with its own vote; the others with each further vote that makes a majority. */
    method WinIfElectedLocked()
      modifies this
      ensures State() == WinIfElected(old(State()))
    {
      if votes >= MajoritySize(|peers| + 1) {
        BecomeLeaderLocked();
      }
    }

    method StartElectionLocked() returns (term: nat, lastLogIndex: nat, lastLogTerm: nat)
      modifies this
      ensures State() == StartElection(old(State()))
      ensures forall p :: VoteRequestTo(StandForElection(old(State())), p)
                          == VoteRequest(id, p, term, id, lastLogIndex, lastLogTerm)
    {
      role := Candidate;
      currentTerm := currentTerm + 1;
      votedFor := id;
      votes := 1;
      PersistStateLocked();
      term, lastLogIndex, lastLogTerm := currentTerm, LastLogIndex(State()), LastLogTerm(State());
      WinIfElectedLocked();
    }

    method RequestVote(req: VoteRequest) returns (reply: VoteReply)
      modifies this
      ensures (State(), reply) == HandleVoteRequest(old(State()), req)
    {
      var granted := false;
      if req.term >= currentTerm {
        if req.term > currentTerm {
          StepDownLocked(req.term);
        }
        var ownTerm, ownIndex := LastLogTerm(State()), LastLogIndex(State());
        var upToDate := req.lastLogTerm > ownTerm || (req.lastLogTerm == ownTerm && req.lastLogIndex >= ownIndex);
        granted := upToDate && (votedFor == NO_ONE || votedFor == req.candidateId);
      }
      if granted {
        votedFor := req.candidateId;
        currentLeader := req.candidateId;
        role := Follower;
        PersistStateLocked();
      }
      reply := VoteReply(req.to, req.from, currentTerm, granted);
    }

    method ReceiveVote(reply: VoteReply)
      modifies this
      ensures State() == HandleVoteReply(old(State()), reply)
    {
      if reply.term > currentTerm {
        StepDownLocked(reply.term);
        return;
      }
      if role == Candidate && reply.term == currentTerm && reply.granted {
        votes := votes + 1;
        WinIfElectedLocked();
      }
    }

    // ---------- Replication ----------

    method ProposeLocked(command: Command)
      modifies this`log, this`unsaved
      ensures State() == Propose(old(State()), command)
    {
      var entry := Entry(snapshotIndex + |log| + 1, currentTerm, command);
      log := log + [entry];
      unsaved := unsaved + [entry];
    }

    method PersistBatchOnce()
      modifies this
      ensures State() == PersistBatch(old(State()))
    {
      if unsaved == [] {
        return;
      }
      var batch := unsaved;
      unsaved := [];
      disk := disk.(log := disk.log + batch);
      var _ := TryCommitLocked();
    }

    method BuildAppendEntriesRequestLocked(peer: NodeId) returns (req: AppendRequest)
      ensures req == BuildAppend(State(), peer)
    {
      hide LogTermAt;
      var last := snapshotIndex + |log|;
      var next := Lookup(nextIndex, peer);
      if next > last + 1 {
        next := last + 1;
      }
      var prev := 0;
      if next > 1 {
        prev := next - 1;
      }
      var entries := [];
      if next > snapshotIndex && next <= last {
        var start := next - snapshotIndex - 1;
        var end := start + MAX_BATCH;
        if end > |log| {
          end := |log|;
        }
        entries := log[start..end];
      }
      req := AppendRequest(id, peer, currentTerm, id, prev, LogTermAt(State(), prev), entries, commitIndex);
    }

    /** The follower's loop over the entries of a request whose previous entry it holds: cuts a conflicting tail and
        appends what is missing, in memory only. */
    method SpliceEntries(req: AppendRequest) returns (ok: bool, passed: nat, cut: bool)
      modifies this`log
      ensures var s := Splice(old(log), snapshotIndex, snapshotTerm, req.prevLogIndex, req.entries, 0);
              if s.Spliced? then ok && log == s.log && passed == s.passed && cut == s.cut
              else !ok && log == old(log)
      ensures passed <= |req.entries|
    {
      ok, passed, cut := true, 0, false;
      while passed < |req.entries|
        invariant passed <= |req.entries| && log == old(log)
        invariant Splice(old(log), snapshotIndex, snapshotTerm, req.prevLogIndex, req.entries, 0)
                  == Splice(old(log), snapshotIndex, snapshotTerm, req.prevLogIndex, req.entries, passed)
      {
        var index := req.prevLogIndex + passed + 1;
        if index <= snapshotIndex {
          if snapshotTerm != req.entries[passed].term {
            ok := false;
            return;
          }
        } else if index <= snapshotIndex + |log| {
          if log[index - snapshotIndex - 1].term != req.entries[passed].term {
            log := log[..index - snapshotIndex - 1] + req.entries[passed..];
            cut := true;
            return;
          }
        } else {
          log := log + req.entries[passed..];
          return;
        }
        passed := passed + 1;
      }
    }

    method FollowCommitLocked(leaderCommit: nat)
      modifies this`commitIndex
      ensures State() == FollowCommit(old(State()), leaderCommit)
    {
      if leaderCommit > commitIndex {
        var newCommit := leaderCommit;
        if newCommit > snapshotIndex + |log| {
          newCommit := snapshotIndex + |log|;
        }
        if newCommit > commitIndex {
          commitIndex := newCommit;
        }
      }
    }

    /** The part of `AppendEntries` after the previous entry has been found. */
    method AcceptEntries(req: AppendRequest) returns (ok: bool)
      modifies this
      ensures (State(), ok) == AcceptAppend(old(State()), req)
    {
      var passed, cut;
      ok, passed, cut := SpliceEntries(req);
      if ok {
        if cut {
          RewriteLogLocked();
        } else if passed < |req.entries| {
          disk := disk.(log := disk.log + req.entries[passed..]);
        }
        FollowCommitLocked(req.leaderCommit);
      }
    }

    /** Cuts the conflicting entry at `prev` and what follows, unless it lies inside the snapshot. */
    method CutConflictLocked(prev: nat)
      requires prev <= snapshotIndex + |log|
      modifies this`log, this`disk
      ensures State() == CutConflict(old(State()), prev)
    {
      if prev > snapshotIndex {
        log := log[..prev - snapshotIndex - 1];
        RewriteLogLocked();
      }
    }

    method AppendEntries(req: AppendRequest) returns (reply: AppendReply)
      modifies this
      ensures (State(), reply) == HandleAppend(old(State()), req)
    {
      if req.term < currentTerm {
        return AppendReply(req.to, req.from, currentTerm, false, 0);
      }
      StepDownLocked(req.term);
      currentLeader := req.leaderId;
      if req.prevLogIndex > 0 {
        if req.prevLogIndex > snapshotIndex + |log| {
          return AppendReply(req.to, req.from, currentTerm, false, 0);
        }
        if LogTermAt(State(), req.prevLogIndex) != req.prevLogTerm {
          CutConflictLocked(req.prevLogIndex);
          return AppendReply(req.to, req.from, currentTerm, false, 0);
        }
      }
      var ok := AcceptEntries(req);
      reply := AppendReply(req.to, req.from, currentTerm, ok, req.prevLogIndex + |req.entries|);
    }

    method HandleAppendResultLocked(reply: AppendReply, peer: NodeId)
      modifies this
      ensures State() == HandleAppendReply(old(State()), peer, reply)
    {
      if reply.term > currentTerm {
        StepDownLocked(reply.term);
        return;
      }
      if role != Leader || reply.term != currentTerm {
        return;
      }
      if reply.success {
        matchIndex := matchIndex[peer := reply.matchIndex];
        nextIndex := nextIndex[peer := reply.matchIndex + 1];
        var _ := TryCommitLocked();
        return;
      }
      if Lookup(nextIndex, peer) > 1 {
        nextIndex := nextIndex[peer := nextIndex[peer] / 2];
      }
    }

    // ---------- Committing ----------

    /** The number of nodes, this one included, that the commit loop counts, and how many of them hold `index`. */
    method CountHolders(index: nat) returns (effective: nat, count: nat)
      ensures effective == 1 + |Counted(State())| && count == 1 + |Holders(State(), index)|
    {
      effective, count := 1, 1;
      var rest := matchIndex.Keys;
      ghost var counted, holders := {}, {};
      while rest != {}
        invariant rest <= matchIndex.Keys
        invariant counted == (set p | p in Counted(State()) && p !in rest)
        invariant holders == (set p | p in Holders(State(), index) && p !in rest)
        invariant effective == 1 + |counted| && count == 1 + |holders|
        decreases |rest|
      {
        var p := Pick(rest);
        rest := rest - {p};
        if p !in removing {
          effective := effective + 1;
          counted := counted + {p};
          if matchIndex[p] >= index {
            count := count + 1;
            holders := holders + {p};
          }
        }
      }
      assert counted == Counted(State()) && holders == Holders(State(), index);
    }

    /** The commit loop's walk: the last index reached while entries are on a majority. */
    method ReplicatedIndex() returns (replicated: nat)
      requires commitIndex <= snapshotIndex + |log|
      ensures replicated == ReplicatedFrom(State(), commitIndex)
    {
      var last := snapshotIndex + |log|;
      replicated := commitIndex;
      while replicated < last
        invariant commitIndex <= replicated <= last
        invariant ReplicatedFrom(State(), commitIndex) == ReplicatedFrom(State(), replicated)
      {
        var effective, count := CountHolders(replicated + 1);
        if count < MajoritySize(effective) {
          break;
        }
        replicated := replicated + 1;
      }
    }

    method TryCommitLocked() returns (committed: nat)
      modifies this`commitIndex
      ensures State() == TryCommit(old(State()))
      ensures committed == if commitIndex > old(commitIndex) then commitIndex else 0
    {
      committed := 0;
      var last := snapshotIndex + |log|;
      if commitIndex >= last {
        return;
      }
      hide ReplicatedFrom, OnMajority, LogTermAt;
      var replicated := ReplicatedIndex();
      if replicated > commitIndex && LogTermAt(State(), replicated) == currentTerm {
        commitIndex := replicated;
        committed := replicated;
      }
    }

    // ---------- Applying and compacting ----------

    /** One turn of the apply loop; `entry` is what it hands to the database. */
    method ApplyOne() returns (entry: Option<Entry>)
      modifies this`appliedIndex
      ensures State() == ApplyNext(old(State()))
      ensures entry.Some? <==> appliedIndex == old(appliedIndex) + 1
      ensures entry.Some? ==> entry == EntryAt(State(), appliedIndex)
    {
      entry := None;
      if appliedIndex < commitIndex {
        entry := EntryAt(State(), appliedIndex + 1);
        if entry.Some? {
          appliedIndex := appliedIndex + 1;
        }
      }
    }

    method CompactLocked(index: nat, term: nat)
      requires snapshotIndex <= index <= snapshotIndex + |log|
      modifies this
      ensures State() == Compact(old(State()), index, term)
    {
      var drop := index - snapshotIndex;
      disk := Disk(currentTerm, votedFor, index, term, disk.log);
      snapshotIndex := index;
      snapshotTerm := term;
      log := log[drop..];
      RewriteLogLocked();
    }
  }
}
