/** Compaction changes no answer at or beyond the new snapshot, and survives a crash between its writes. */
module Compaction {
  import opened Quorums
  import opened RaftSpec
  import opened NodeLaws

  /** A position that the compacting leader takes: applied, in memory, with the term the log answers for it. */
  predicate CanCompact(n: NodeState, index: nat) {
    n.snapshotIndex <= index <= LastLogIndex(n)
  }

  function Compacted(n: NodeState, index: nat): NodeState
    requires CanCompact(n, index)
  {
    Compact(n, index, LogTermAt(n, index))
  }

  /** All reads of the log from the new snapshot on are as before. */
  lemma CompactionIsInvisible(n: NodeState, index: nat)
    requires CanCompact(n, index)
    ensures var m := Compacted(n, index);
            && LastLogIndex(m) == LastLogIndex(n) && LastLogTerm(m) == LastLogTerm(n)
            && (forall i: nat :: i >= index ==> LogTermAt(m, i) == LogTermAt(n, i))
            && (forall i: nat :: i > index ==> EntryAt(m, i) == EntryAt(n, i))
  {
    var m := Compacted(n, index);
    var drop := index - n.snapshotIndex;
    assert forall k :: 0 <= k < |m.log| ==> m.log[k] == n.log[drop + k];
  }

  /** A compacted node answers vote requests as before, and compacting after the answer gives the same node. */
  lemma CompactThenVote(n: NodeState, index: nat, req: VoteRequest)
    requires CanCompact(n, index)
    ensures var (a, reply) := HandleVoteRequest(n, req);
            CanCompact(a, index) && HandleVoteRequest(Compacted(n, index), req) == (Compacted(a, index), reply)
  {
    CompactionIsInvisible(n, index);
    assert GrantsVote(Compacted(n, index), req) <==> GrantsVote(n, req);
    VoteAndCompact(n, index, req, GrantsVote(n, req));
  }

  /** Apart from whether the vote is granted, compacting and answering commute. */
  lemma VoteAndCompact(n: NodeState, index: nat, req: VoteRequest, granted: bool)
    requires CanCompact(n, index)
    requires granted == GrantsVote(n, req) == GrantsVote(Compacted(n, index), req)
    ensures var (a, reply) := HandleVoteRequest(n, req);
            CanCompact(a, index) && HandleVoteRequest(Compacted(n, index), req) == (Compacted(a, index), reply)
  {
    hide GrantsVote, Compacted, PersistState;
    var m := if req.term > n.currentTerm then StepDown(n, req.term) else n;
    RewriteCommutes(n, index, req.term, NO_ONE, NO_ONE, Follower);
    RewriteCommutes(m, index, m.currentTerm, req.candidateId, req.candidateId, Follower);
    SameTerm(n, index);
    SameTerm(m, index);
  }

  lemma SameTerm(n: NodeState, index: nat)
    requires CanCompact(n, index)
    ensures Compacted(n, index).currentTerm == n.currentTerm
  {}

  /** Taking a term, a vote, a leader and a role. */
  function Taking(n: NodeState, term: nat, vote: NodeId, leader: NodeId, role: Role): NodeState {
    n.(currentTerm := term, role := role, votedFor := vote, currentLeader := leader)
  }

  lemma RewriteCommutes(n: NodeState, index: nat, term: nat, vote: NodeId, leader: NodeId, role: Role)
    requires CanCompact(n, index)
    ensures CanCompact(PersistState(Taking(n, term, vote, leader, role)), index)
    ensures PersistState(Taking(Compacted(n, index), term, vote, leader, role))
            == Compacted(PersistState(Taking(n, term, vote, leader, role)), index)
    ensures PersistState(Taking(n, term, vote, leader, role)).currentTerm == term
  {}

  /** A splice passes over the entries that the log has. */
  lemma {:induction false} SplicePast(log: seq<Entry>, snapshotIndex: nat, snapshotTerm: nat, prev: nat,
                                      entries: seq<Entry>, i: nat, j: nat)
    requires i <= j <= |entries|
    requires forall k :: i <= k < j ==> Has(log, snapshotIndex, snapshotTerm, prev + k + 1, entries[k].term)
    ensures Splice(log, snapshotIndex, snapshotTerm, prev, entries, i)
            == Splice(log, snapshotIndex, snapshotTerm, prev, entries, j)
    decreases j - i
  {
    if i < j {
      assert Has(log, snapshotIndex, snapshotTerm, prev + i + 1, entries[i].term);
      SplicePast(log, snapshotIndex, snapshotTerm, prev, entries, i + 1, j);
    }
  }

  /** What a splice leaves behind the new snapshot does not depend on whether the prefix is still there. */
  lemma {:induction false} SpliceBehind(log: seq<Entry>, snapshotIndex: nat, snapshotTerm: nat, drop: nat, term: nat,
                                        prev: nat, entries: seq<Entry>, i: nat)
    requires i <= |entries| && drop <= |log| && prev + i <= snapshotIndex + |log|
    requires i < |entries| ==> prev + i >= snapshotIndex + drop
    ensures var a := Splice(log, snapshotIndex, snapshotTerm, prev, entries, i);
            var b := Splice(log[drop..], snapshotIndex + drop, term, prev, entries, i);
            && a.Spliced? && |a.log| >= drop && b == Spliced(a.log[drop..], a.passed, a.cut)
    decreases |entries| - i
  {
    var index := prev + i + 1;
    if i < |entries| {
      if index <= snapshotIndex + |log| {
        var k := index - snapshotIndex - 1;
        assert log[drop..][k - drop] == log[k];
        if log[k].term == entries[i].term {
          SpliceBehind(log, snapshotIndex, snapshotTerm, drop, term, prev, entries, i + 1);
        } else {
          assert (log[..k] + entries[i..])[drop..] == log[drop..][..k - drop] + entries[i..];
        }
      } else {
        assert (log + entries[i..])[drop..] == log[drop..] + entries[i..];
      }
    }
  }

  /** The node has the entry of the request at `k`, and it is of the term that the new snapshot answers. */
  predicate KeptBelow(n: NodeState, index: nat, req: AppendRequest, k: nat)
    requires k < |req.entries|
  {
    && Has(n.log, n.snapshotIndex, n.snapshotTerm, req.prevLogIndex + k + 1, req.entries[k].term)
    && req.entries[k].term == LogTermAt(n, index)
  }

  /** The entries of the request at or before `index` are kept. */
  predicate AllKeptBelow(d: NodeState, index: nat, req: AppendRequest) {
    forall k :: 0 <= k < |req.entries| && req.prevLogIndex + k + 1 <= index ==> KeptBelow(d, index, req, k)
  }

  /** A request that does not ask the follower to give up an entry inside its new snapshot, and names none there of
      another term than the snapshot's. */
  predicate Respects(n: NodeState, index: nat, req: AppendRequest) {
    || req.term < n.currentTerm
    || req.prevLogIndex > index
    || (&& HoldsPrevious(n, req) && (req.prevLogIndex > 0 ==> req.prevLogTerm == LogTermAt(n, index))
        && AllKeptBelow(n, index, req))
  }

  /** A compacted follower answers append requests that respect its snapshot as before, and is left as if it had
      compacted afterwards. */
  lemma CompactThenAppend(n: NodeState, index: nat, req: AppendRequest)
    requires CanCompact(n, index) && n.disk.log == n.log && Respects(n, index, req)
    ensures var (a, reply) := HandleAppend(n, req);
            CanCompact(a, index) && HandleAppend(Compacted(n, index), req) == (Compacted(a, index), reply)
  {
    if req.term >= n.currentTerm {
      var d := StepDown(n, req.term).(currentLeader := req.leaderId);
      CompactThenStepDown(n, index, req);
      assert Respects(d, index, req) by {
        assert forall k | 0 <= k < |req.entries| ::
            KeptBelow(d, index, req, k) == KeptBelow(n, index, req, k);
      }
      CompactThenHolds(d, index, req);
      if HoldsPrevious(d, req) {
        hide StepDown, AcceptAppend, Compacted;
        CompactThenAccept(d, index, req);
      } else {
        hide StepDown, CutConflict, Compacted;
        CompactThenCut(d, index, req.prevLogIndex);
      }
    }
  }

  lemma CompactThenStepDown(n: NodeState, index: nat, req: AppendRequest)
    requires CanCompact(n, index)
    ensures var d := StepDown(n, req.term).(currentLeader := req.leaderId);
            && CanCompact(d, index) && d.disk.log == n.disk.log && d.log == n.log
            && d.snapshotIndex == n.snapshotIndex && d.snapshotTerm == n.snapshotTerm
            && StepDown(Compacted(n, index), req.term).(currentLeader := req.leaderId) == Compacted(d, index)
  {}

  lemma CompactThenHolds(d: NodeState, index: nat, req: AppendRequest)
    requires CanCompact(d, index)
    requires req.prevLogIndex > index
             || (HoldsPrevious(d, req) && (req.prevLogIndex > 0 ==> req.prevLogTerm == LogTermAt(d, index)))
    ensures HoldsPrevious(Compacted(d, index), req) <==> HoldsPrevious(d, req)
  {
    CompactionIsInvisible(d, index);
  }

  lemma CompactThenAccept(d: NodeState, index: nat, req: AppendRequest)
    requires CanCompact(d, index) && d.disk.log == d.log
    requires req.prevLogIndex <= LastLogIndex(d) && AllKeptBelow(d, index, req)
    ensures var (a, ok) := AcceptAppend(d, req);
            CanCompact(a, index) && AcceptAppend(Compacted(d, index), req) == (Compacted(a, index), ok)
  {
    var drop := index - d.snapshotIndex;
    var s := Splice(d.log, d.snapshotIndex, d.snapshotTerm, req.prevLogIndex, req.entries, 0);
    var b := Splice(d.log[drop..], index, LogTermAt(d, index), req.prevLogIndex, req.entries, 0);
    SplicesAgree(d, index, req);
    UncutSplice(d, req, s);
    TermKept(d, index, s, req);
    CompactThenSave(d, index, req.entries, s, b);
    CompactThenCommit(SaveSplice(d, req.entries, s), index, req.leaderCommit);
  }

  /** The two splices pass over what lies inside the new snapshot, and go on alike. */
  lemma SplicesAgree(d: NodeState, index: nat, req: AppendRequest)
    requires CanCompact(d, index) && req.prevLogIndex <= LastLogIndex(d) && AllKeptBelow(d, index, req)
    ensures var drop := index - d.snapshotIndex;
            var s := Splice(d.log, d.snapshotIndex, d.snapshotTerm, req.prevLogIndex, req.entries, 0);
            var b := Splice(d.log[drop..], index, LogTermAt(d, index), req.prevLogIndex, req.entries, 0);
            s.Spliced? && |s.log| >= drop && b == Spliced(s.log[drop..], s.passed, s.cut)
  {
    var drop, prev, term := index - d.snapshotIndex, req.prevLogIndex, LogTermAt(d, index);
    var inside := if index <= prev then 0 else if index - prev <= |req.entries| then index - prev else |req.entries|;
    forall k | 0 <= k < inside
      ensures Has(d.log, d.snapshotIndex, d.snapshotTerm, prev + k + 1, req.entries[k].term)
      ensures Has(d.log[drop..], index, term, prev + k + 1, req.entries[k].term)
    {
      assert KeptBelow(d, index, req, k);
    }
    SplicePast(d.log, d.snapshotIndex, d.snapshotTerm, prev, req.entries, 0, inside);
    SplicePast(d.log[drop..], index, term, prev, req.entries, 0, inside);
    SpliceBehind(d.log, d.snapshotIndex, d.snapshotTerm, drop, term, prev, req.entries, inside);
  }

  lemma UncutSplice(d: NodeState, req: AppendRequest, s: Spliced)
    requires req.prevLogIndex <= LastLogIndex(d)
    requires s == Splice(d.log, d.snapshotIndex, d.snapshotTerm, req.prevLogIndex, req.entries, 0) && s.Spliced?
    ensures !s.cut ==> s.log == d.log + req.entries[s.passed..]
  {
    SpliceOutcome(d.log, d.snapshotIndex, d.snapshotTerm, req.prevLogIndex, req.entries, 0);
    assert d.log[..|d.log|] == d.log && d.log + [] == d.log;
  }

  /** A splice that passes over what it names inside the snapshot leaves the entry at `index` alone. */
  lemma TermKept(d: NodeState, index: nat, s: Spliced, req: AppendRequest)
    requires CanCompact(d, index) && req.prevLogIndex <= LastLogIndex(d) && AllKeptBelow(d, index, req)
    requires s == Splice(d.log, d.snapshotIndex, d.snapshotTerm, req.prevLogIndex, req.entries, 0) && s.Spliced?
    ensures CanCompact(SaveSplice(d, req.entries, s), index)
    ensures LogTermAt(SaveSplice(d, req.entries, s), index) == LogTermAt(d, index)
  {
    SpliceOutcome(d.log, d.snapshotIndex, d.snapshotTerm, req.prevLogIndex, req.entries, 0);
    if s.passed < |req.entries| {
      assert !KeptBelow(d, index, req, s.passed);
    }
    if index > d.snapshotIndex {
      var k := index - d.snapshotIndex - 1;
      assert s.log[k] == d.log[k];
    }
  }

  lemma CompactThenSave(d: NodeState, index: nat, entries: seq<Entry>, s: Spliced, b: Spliced)
    requires CanCompact(d, index) && s.Spliced? && s.passed <= |entries| && d.disk.log == d.log
    requires |s.log| >= index - d.snapshotIndex
    requires b == Spliced(s.log[index - d.snapshotIndex..], s.passed, s.cut)
    requires !s.cut ==> s.log == d.log + entries[s.passed..]
    requires CanCompact(SaveSplice(d, entries, s), index)
    requires LogTermAt(SaveSplice(d, entries, s), index) == LogTermAt(d, index)
    ensures SaveSplice(Compacted(d, index), entries, b) == Compacted(SaveSplice(d, entries, s), index)
  {
    var drop := index - d.snapshotIndex;
    if !s.cut {
      assert s.log[drop..] == d.log[drop..] + entries[s.passed..];
      if s.passed == |entries| { assert s.log == d.log; }
    }
  }

  lemma CompactThenCommit(d: NodeState, index: nat, leaderCommit: nat)
    requires CanCompact(d, index)
    ensures CanCompact(FollowCommit(d, leaderCommit), index)
    ensures FollowCommit(Compacted(d, index), leaderCommit) == Compacted(FollowCommit(d, leaderCommit), index)
  {
  }

  lemma CompactThenCut(d: NodeState, index: nat, prev: nat)
    requires CanCompact(d, index) && prev > index
    ensures CanCompact(CutConflict(d, prev), index)
    ensures CutConflict(Compacted(d, index), prev) == Compacted(CutConflict(d, prev), index)
  {
    if prev <= LastLogIndex(d) {
      var drop, k := index - d.snapshotIndex, prev - d.snapshotIndex - 1;
      var cut := d.log[..k];
      assert d.log[drop..][..k - drop] == cut[drop..];
      assert index > d.snapshotIndex ==> cut[drop - 1] == d.log[drop - 1];
      assert LogTermAt(CutConflict(d, prev), index) == LogTermAt(d, index);
    }
  }

  // ---------- Requests that reach below the snapshot ----------

  /** A request cut from a log that the follower matches up to its snapshot is refused exactly if it starts inside
      the snapshot in an older term, or its previous entry, beyond the snapshot, is not held. */
  lemma RefusedBelow(n: NodeState, req: AppendRequest, theirs: seq<Entry>)
    requires CutFrom(req, theirs) && req.term >= n.currentTerm && InTermOrder(theirs) && n.snapshotIndex <= |theirs|
    requires n.snapshotIndex > 0 ==> n.snapshotTerm == theirs[n.snapshotIndex - 1].term
    ensures var first := FirstNamed(req);
            !Accepted(n, req) <==>
            (req.prevLogIndex > n.snapshotIndex && !HoldsPrevious(n, req))
            || (first <= n.snapshotIndex && first <= req.prevLogIndex + |req.entries|
                && theirs[first - 1].term < n.snapshotTerm)
  {
    AcceptedExactly(n, req);
    SnapshotAgreesIs(n, req, theirs);
    var first := FirstNamed(req);
    if first <= n.snapshotIndex && first <= req.prevLogIndex + |req.entries| {
      FirstDecides(n, req, theirs);
    }
  }

  lemma SameBeyond(n: NodeState, index: nat, req: AppendRequest)
    requires CanCompact(n, index) && req.prevLogIndex > index
    ensures HoldsPrevious(Compacted(n, index), req) <==> HoldsPrevious(n, req)
  {
    CompactionIsInvisible(n, index);
  }

  /** Compacting changes whether a follower accepts a request of its leader exactly if the request starts inside the
      new snapshot, in an older term than the new snapshot's, and the old snapshot did not refuse it; then the
      compacted follower refuses what it accepted before. */
  lemma AnswerChangesExactly(n: NodeState, index: nat, req: AppendRequest, theirs: seq<Entry>)
    requires CanCompact(n, index) && CutFrom(req, theirs) && req.term >= n.currentTerm && InTermOrder(theirs)
    requires Matches(n, theirs, index)
    requires n.snapshotIndex > 0 ==> n.snapshotTerm == theirs[n.snapshotIndex - 1].term
    ensures var first := FirstNamed(req);
            Accepted(n, req) != Accepted(Compacted(n, index), req) <==>
            && first <= index && first <= req.prevLogIndex + |req.entries|
            && theirs[first - 1].term < LogTermAt(n, index)
            && (first <= n.snapshotIndex ==> theirs[first - 1].term == n.snapshotTerm)
    ensures Accepted(Compacted(n, index), req) ==> Accepted(n, req)
  {
    var m := Compacted(n, index);
    assert m.currentTerm == n.currentTerm && m.snapshotIndex == index && m.snapshotTerm == LogTermAt(n, index);
    if index > n.snapshotIndex {
      MatchesAt(n, theirs, index, index);
    }
    hide Accepted, InTermOrder, CutFrom;
    RefusedBelow(n, req, theirs);
    RefusedBelow(m, req, theirs);
    if req.prevLogIndex > index {
      SameBeyond(n, index, req);
    }
    hide HandleAppend, Compacted, CanCompact;
    if n.snapshotIndex < req.prevLogIndex <= index {
      MatchesAt(n, theirs, req.prevLogIndex, index);
    }
  }

  // ---------- Crashing in the middle ----------

  /** The entries of a log file are numbered from the snapshot on. */
  predicate Contiguous(entries: seq<Entry>, base: nat) {
    forall k :: 0 <= k < |entries| ==> entries[k].index == base + k + 1
  }

  lemma {:induction false} BeyondContiguous(entries: seq<Entry>, base: nat, index: nat)
    requires Contiguous(entries, base) && base <= index <= base + |entries|
    ensures BeyondSnapshot(entries, index) == entries[index - base..]
    decreases |entries|
  {
    if entries != [] && entries[0].index <= index {
      BeyondContiguous(entries[1..], base + 1, index);
      assert entries[1..][index - base - 1..] == entries[index - base..];
    }
  }

  /** A node that crashes after the snapshot position is written and before the log is rewritten comes back with
      the same log, snapshot, term and vote as one that crashes after both writes, and with a log that answers as
      the node did before it began. */
  lemma CompactionSurvivesCrash(n: NodeState, index: nat, applied: nat)
    requires CanCompact(n, index) && n.disk.log == n.log && Contiguous(n.log, n.snapshotIndex)
    requires applied <= LastLogIndex(n)
    ensures var term := LogTermAt(n, index);
            var between := Recover(n.id, n.peers, MarkSnapshot(n, index, term), applied);
            var after := Recover(n.id, n.peers, Compacted(n, index).disk, applied);
            && between.Some? && after.Some?
            && between.value == after.value.(disk := MarkSnapshot(n, index, term))
            && between.value.log == Compacted(n, index).log && between.value.currentTerm == n.currentTerm
            && between.value.votedFor == n.votedFor && between.value.snapshotIndex == index
  {
    var rest := n.log[index - n.snapshotIndex..];
    BeyondContiguous(n.log, n.snapshotIndex, index);
    BeyondContiguous(rest, index, index);
    if index == 0 { assert rest == n.log; }
  }
}
