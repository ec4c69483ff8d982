/** Where single handlers are weaker than meant, and exactly when. */
module NodeFlaws {
  import opened Quorums
  import opened RaftSpec
  import opened NodeLaws
  import opened Compaction

  /** An append request loses the vote of its term exactly when there is one to lose and the term does not rise. */
  lemma VoteLostExactly(n: NodeState, req: AppendRequest)
    ensures var n' := HandleAppend(n, req).0;
            (n'.currentTerm == n.currentTerm && n'.votedFor != n.votedFor)
            <==> (req.term == n.currentTerm && n.votedFor != NO_ONE)
  {
  }

  // ---------- Committing what is not on disk ----------

  /** A leader whose disk holds all of its log but the entries it has just proposed. */
  predicate Batching(n: NodeState) {
    n.snapshotIndex == 0 && n.disk.snapshotIndex == 0 && n.disk.log + n.unsaved == n.log
  }

  /** What survives when a leader commits and crashes before its batch is written. */
  function CommitThenCrash(n: NodeState): seq<Entry> {
    LoadLog(TryCommit(n).disk)
  }

  /** The commit loop counts the leader's own copy at once: what is committed after it survives a crash exactly if
      no index beyond the disk was committed before, and none is on a majority in the current term. */
  lemma UnsavedCommitExact(n: NodeState)
    requires Batching(n) && TermsAscending(n) && n.commitIndex <= |n.log|
    ensures var c := TryCommit(n).commitIndex;
            && c <= |n.log|
            && (n.log[..c] <= CommitThenCrash(n) <==>
                n.commitIndex <= |n.disk.log| && forall i: nat :: Committable(n, i) ==> i <= |n.disk.log|)
  {
    CommitRuleExact(n);
    var c := TryCommit(n).commitIndex;
    if c <= |n.disk.log| {
      assert n.log[..c] == n.disk.log[..c];
    }
  }

  const SAVED := Entry(1, 1, Noop)

  /** The leader of term 1, and a follower of it, that have committed one entry. */
  const LEADING := NodeState(0, {1, 2}, [SAVED], 1, 0, 1, Leader, 0, 2, map[1 := 2, 2 := 2], map[1 := 1, 2 := 1],
                             0, 0, {}, 1, [], Disk(1, 0, 0, 0, [SAVED]))
  const FOLLOWING := NodeState(1, {0, 2}, [SAVED], 1, 0, 1, Follower, 0, 0, map[], map[], 0, 0, {}, 1, [],
                               Disk(1, 0, 0, 0, [SAVED]))

  /** Of three nodes, the leader proposes and one follower stores the entry and says so: the leader has committed
      an entry that its crash loses. */
  lemma UnsavedCommitLost()
    ensures var proposed := Propose(LEADING, Exec("w"));
            var reply := HandleAppend(FOLLOWING, BuildAppend(proposed, 1)).1;
            var committed := HandleAppendReply(proposed, 1, reply);
            && Batching(proposed) && reply.success
            && committed.commitIndex == 2 && committed.log == [SAVED, Entry(2, 1, Exec("w"))]
            && LoadLog(committed.disk) == [SAVED]
  {
    var proposed := Propose(LEADING, Exec("w"));
    var req := BuildAppend(proposed, 1);
    assert req.entries == [Entry(2, 1, Exec("w"))];
    var reply := HandleAppend(FOLLOWING, req).1;
    var counting := proposed.(matchIndex := proposed.matchIndex[1 := 2], nextIndex := proposed.nextIndex[1 := 3]);
    assert Counted(counting) == {1, 2} && Holders(counting, 2) == {1};
    assert OnMajority(counting, 2);
    assert ReplicatedFrom(counting, 1) == 2;
  }

  // ---------- The clamp to the follower's own log ----------

  /** The log of the leader of `term`. */
  predicate IsLeaderLog(theirs: seq<Entry>, term: nat) {
    && InTermOrder(theirs)
    && (forall k :: 0 <= k < |theirs| ==> theirs[k].index == k + 1 && 1 <= theirs[k].term <= term)
  }

  predicate TermsInOrder(n: NodeState, term: nat) {
    forall i, j :: n.snapshotIndex <= i <= j <= LastLogIndex(n) ==> LogTermAt(n, i) <= LogTermAt(n, j) <= term
  }

  /** An entry of a follower: numbered, of a term, and, if its term is the leader's, in the leader's log. */
  predicate OwnEntry(n: NodeState, k: nat, theirs: seq<Entry>, term: nat)
    requires k < |n.log|
  {
    && n.log[k].index == n.snapshotIndex + k + 1 && n.log[k].term >= 1
    && (n.log[k].term == term ==>
          n.snapshotIndex + k < |theirs| && theirs[n.snapshotIndex + k].term == term)
  }

  /** A node that a request of the leader with the log `theirs` may reach: what it has committed is the leader's,
      and its log has grown under earlier leaders and under this one. */
  predicate FollowerOf(n: NodeState, theirs: seq<Entry>, term: nat) {
    && n.currentTerm <= term && TermsInOrder(n, term)
    && (forall k :: 0 <= k < |n.log| ==> OwnEntry(n, k, theirs, term))
    && Comparable(n, theirs) && Matches(n, theirs, n.commitIndex)
    && (n.snapshotIndex > 0 ==> n.snapshotTerm == theirs[n.snapshotIndex - 1].term)
  }

  /** After the request, all the follower has committed is in the leader's log. */
  predicate CommitsTheirs(n: NodeState, req: AppendRequest, theirs: seq<Entry>) {
    var n' := HandleAppend(n, req).0;
    Matches(n', theirs, n'.commitIndex)
  }

  ghost predicate ClampSafe(req: AppendRequest, theirs: seq<Entry>) {
    forall n: NodeState :: FollowerOf(n, theirs, req.term) ==> CommitsTheirs(n, req, theirs)
  }

  /** The term of the last entry that a request covers, and 1 if it covers none. */
  function CoveredTerm(req: AppendRequest, theirs: seq<Entry>): nat
    requires req.prevLogIndex + |req.entries| <= |theirs|
  {
    var upTo := req.prevLogIndex + |req.entries|;
    if upTo == 0 then 1 else theirs[upTo - 1].term
  }

  /** Every committed entry that the request does not cover is of the last covered term, and no leader came between
      that term and the request's. */
  predicate NoRoomForStale(req: AppendRequest, theirs: seq<Entry>)
    requires req.prevLogIndex + |req.entries| < req.leaderCommit <= |theirs|
  {
    theirs[req.leaderCommit - 1].term == CoveredTerm(req, theirs) && req.term <= CoveredTerm(req, theirs) + 1
  }

  // A request after which every follower has committed the leader's entries only.

  lemma RefusedCommits(n: NodeState, req: AppendRequest, theirs: seq<Entry>)
    requires FollowerOf(n, theirs, req.term) && CutFrom(req, theirs) && !Accepted(n, req)
    ensures CommitsTheirs(n, req, theirs)
  {
    var n' := HandleAppend(n, req).0;
    assert n'.commitIndex == n.commitIndex && n'.snapshotIndex == n.snapshotIndex;
    var c, s, prev := n.commitIndex, n.snapshotIndex, req.prevLogIndex;
    if n'.log != n.log {
      assert n'.log == n.log[..prev - s - 1];
      if prev <= c {
        MatchesAt(n, theirs, prev, c);
        assert false;
      }
      assert n'.log[..c - s] == n.log[..c - s];
    }
  }

  lemma AcceptedCommit(n: NodeState, req: AppendRequest)
    requires Accepted(n, req)
    ensures var n' := HandleAppend(n, req).0;
            n'.commitIndex > n.commitIndex ==> n'.commitIndex <= req.leaderCommit && n'.commitIndex <= LastLogIndex(n')
    ensures HandleAppend(n, req).0.commitIndex >= n.commitIndex
  {
  }

  lemma AcceptedCommits(n: NodeState, req: AppendRequest, theirs: seq<Entry>)
    requires FollowerOf(n, theirs, req.term) && CutFrom(req, theirs) && IsLeaderLog(theirs, req.term)
    requires Accepted(n, req) && req.leaderCommit <= |theirs|
    requires req.leaderCommit <= req.prevLogIndex + |req.entries| || NoRoomForStale(req, theirs)
    ensures CommitsTheirs(n, req, theirs)
  {
    var n', upTo := HandleAppend(n, req).0, req.prevLogIndex + |req.entries|;
    MatchesCommitted(n, req, theirs);
    FollowerSplice(n, req, theirs, n.commitIndex);
    AcceptedCommit(n, req);
    hide HandleAppend, FollowerOf, IsLeaderLog, CutFrom, Comparable, NoRoomForStale;
    if n.commitIndex < n'.commitIndex {
      if n'.commitIndex <= upTo {
        MatchesDown(n', theirs, n'.commitIndex, upTo);
      } else {
        BeyondCovered(n, req, theirs);
      }
    }
  }

  lemma BeyondCovered(n: NodeState, req: AppendRequest, theirs: seq<Entry>)
    requires FollowerOf(n, theirs, req.term) && CutFrom(req, theirs) && IsLeaderLog(theirs, req.term)
    requires Accepted(n, req) && req.prevLogIndex + |req.entries| < req.leaderCommit <= |theirs|
    requires NoRoomForStale(req, theirs)
    requires var n' := HandleAppend(n, req).0;
             && n.commitIndex < n'.commitIndex <= req.leaderCommit && n'.commitIndex <= LastLogIndex(n')
             && n'.commitIndex > req.prevLogIndex + |req.entries|
    ensures CommitsTheirs(n, req, theirs)
  {
    var n' := HandleAppend(n, req).0;
    MatchesCommitted(n, req, theirs);
    hide HandleAppend, FollowerOf, IsLeaderLog, CutFrom, Comparable, NoRoomForStale;
    KeptIfLonger(n, req, theirs, n');
    TailMatches(n, req, theirs, n'.commitIndex);
  }

  /** A log longer than the request covers is the follower's own. */
  lemma KeptIfLonger(n: NodeState, req: AppendRequest, theirs: seq<Entry>, n': NodeState)
    requires Comparable(n, theirs) && CutFrom(req, theirs) && Accepted(n, req) && n.snapshotIndex <= |theirs|
    requires n' == HandleAppend(n, req).0 && LastLogIndex(n') > req.prevLogIndex + |req.entries|
    ensures n'.log == n.log && n'.snapshotIndex == n.snapshotIndex
    ensures n.snapshotIndex <= req.prevLogIndex + |req.entries| ==> Matches(n, theirs, req.prevLogIndex + |req.entries|)
  {
    assert req.prevLogIndex + |req.entries| <= |theirs|;
    hide HandleAppend, Matches, Comparable, CutFrom;
    if n.snapshotIndex <= req.prevLogIndex + |req.entries| {
      HandledLogIs(n, req, theirs);
    } else {
      InsideSnapshot(n, req);
    }
  }

  lemma {:induction false} TailMatches(n: NodeState, req: AppendRequest, theirs: seq<Entry>, i: nat)
    requires FollowerOf(n, theirs, req.term) && CutFrom(req, theirs) && IsLeaderLog(theirs, req.term)
    requires req.prevLogIndex + |req.entries| < req.leaderCommit <= |theirs| && NoRoomForStale(req, theirs)
    requires req.prevLogIndex + |req.entries| <= i <= req.leaderCommit && n.commitIndex <= i <= LastLogIndex(n)
    requires var upTo := req.prevLogIndex + |req.entries|;
             n.snapshotIndex <= upTo ==> Matches(n, theirs, upTo)
    ensures Matches(n, theirs, i)
    decreases i
  {
    hide FollowerOf, IsLeaderLog, NoRoomForStale, CutFrom;
    MatchesCommitted(n, req, theirs);
    if i > n.commitIndex && i > req.prevLogIndex + |req.entries| {
      TailMatches(n, req, theirs, i - 1);
      NextMatches(n, req, theirs, i - 1);
    }
  }

  lemma MatchesCommitted(n: NodeState, req: AppendRequest, theirs: seq<Entry>)
    requires FollowerOf(n, theirs, req.term)
    ensures Matches(n, theirs, n.commitIndex) && Comparable(n, theirs) && n.snapshotIndex <= |theirs|
  {}

  lemma NextMatches(n: NodeState, req: AppendRequest, theirs: seq<Entry>, i: nat)
    requires FollowerOf(n, theirs, req.term) && CutFrom(req, theirs) && IsLeaderLog(theirs, req.term)
    requires req.prevLogIndex + |req.entries| < req.leaderCommit <= |theirs| && NoRoomForStale(req, theirs)
    requires req.prevLogIndex + |req.entries| <= i < req.leaderCommit && n.snapshotIndex <= i < LastLogIndex(n)
    requires Matches(n, theirs, i)
    ensures Matches(n, theirs, i + 1)
  {
    var k, low := i - n.snapshotIndex, CoveredTerm(req, theirs);
    assert OwnEntry(n, k, theirs, req.term);
    assert LogTermAt(n, i) <= LogTermAt(n, i + 1) == n.log[k].term <= req.term;
    assert theirs[i].term == low by { assert low <= theirs[i].term <= theirs[req.leaderCommit - 1].term; }
    if i > 0 {
      assert LogTermAt(n, i) == theirs[i - 1].term >= low by {
        if i > n.snapshotIndex { MatchesAt(n, theirs, i, i); }
      }
    }
    TermMatches(n, theirs, i + 1);
  }

  // A follower that commits an entry of its own.

  /** A follower that holds the leader's log up to `k`, and after it an entry of another, earlier, leader. */
  function StaleFollower(req: AppendRequest, theirs: seq<Entry>, k: nat, term: nat): NodeState
    requires k <= |theirs|
  {
    var log := theirs[..k] + [Entry(k + 1, term, Noop)];
    NodeState(req.to, {req.from}, log, term, NO_ONE, 0, Follower, NO_ONE, 0, map[], map[], 0, 0, {}, 0, [],
              Disk(term, NO_ONE, 0, 0, log))
  }

  lemma {:induction false} PassesAll(log: seq<Entry>, prev: nat, entries: seq<Entry>, i: nat)
    requires i <= |entries| && prev + |entries| <= |log|
    requires log[prev..prev + |entries|] == entries
    ensures Splice(log, 0, 0, prev, entries, i) == Spliced(log, |entries|, false)
    decreases |entries| - i
  {
    if i < |entries| {
      assert log[prev + i] == log[prev..prev + |entries|][i];
      PassesAll(log, prev, entries, i + 1);
    }
  }

  lemma StaleFollows(req: AppendRequest, theirs: seq<Entry>, k: nat, term: nat)
    requires IsLeaderLog(theirs, req.term) && k < |theirs| && 1 <= term < req.term && term != theirs[k].term
    requires k > 0 ==> theirs[k - 1].term <= term
    ensures FollowerOf(StaleFollower(req, theirs, k, term), theirs, req.term)
  {
    var n := StaleFollower(req, theirs, k, term);
    forall i, j | 0 <= i <= j <= LastLogIndex(n) ensures LogTermAt(n, i) <= LogTermAt(n, j) <= req.term {
      if 0 < i && j <= k {
        assert theirs[i - 1].term <= theirs[j - 1].term;
      } else if 0 < i <= k {
        assert theirs[i - 1].term <= theirs[k - 1].term;
      }
    }
    forall i | 0 < i <= LastLogIndex(n) && i <= |theirs| && n.log[i - 1].term == theirs[i - 1].term
      ensures Matches(n, theirs, i)
    {
      assert n.log[..i] == theirs[..i];
    }
  }

  lemma StaleAccepts(req: AppendRequest, theirs: seq<Entry>, k: nat, term: nat)
    requires CutFrom(req, theirs) && req.prevLogIndex + |req.entries| <= k < req.leaderCommit && k < |theirs|
    requires term < req.term
    ensures var n := StaleFollower(req, theirs, k, term); var n' := HandleAppend(n, req).0;
            n'.log == n.log && n'.commitIndex == k + 1 && n'.snapshotIndex == 0
  {
    var n, prev := StaleFollower(req, theirs, k, term), req.prevLogIndex;
    assert n.log[prev..prev + |req.entries|] == req.entries;
    PassesAll(n.log, prev, req.entries, 0);
    assert HoldsPrevious(n, req);
  }

  lemma StaleCommits(req: AppendRequest, theirs: seq<Entry>, k: nat, term: nat)
    requires CutFrom(req, theirs) && req.prevLogIndex + |req.entries| <= k < req.leaderCommit <= |theirs|
    requires term < req.term && term != theirs[k].term
    ensures !CommitsTheirs(StaleFollower(req, theirs, k, term), req, theirs)
  {
    var n' := HandleAppend(StaleFollower(req, theirs, k, term), req).0;
    StaleAccepts(req, theirs, k, term);
    hide HandleAppend;
    if Matches(n', theirs, k + 1) {
      MatchesAt(n', theirs, k + 1, k + 1);
      assert false;
    }
  }

  /** The first entry, from `k` on, of a term above `low`. */
  lemma {:induction false} FirstAbove(theirs: seq<Entry>, low: nat, k: nat, end: nat) returns (r: nat)
    requires InTermOrder(theirs) && k < end <= |theirs| && theirs[end - 1].term > low
    requires k > 0 ==> theirs[k - 1].term <= low
    ensures k <= r < end && theirs[r].term > low && (r > 0 ==> theirs[r - 1].term <= low)
    decreases end - k
  {
    if theirs[k].term > low {
      r := k;
    } else {
      r := FirstAbove(theirs, low, k + 1, end);
    }
  }

  /** The follower's clamp to its own last index is safe, for every follower of the leader, exactly if the request's
      commit index lies within what it covers, or the terms leave no room for a stale entry after that. */
  lemma ClampExact(req: AppendRequest, theirs: seq<Entry>)
    requires IsLeaderLog(theirs, req.term) && CutFrom(req, theirs) && req.leaderCommit <= |theirs|
    ensures ClampSafe(req, theirs)
            <==> req.leaderCommit <= req.prevLogIndex + |req.entries| || NoRoomForStale(req, theirs)
  {
    var upTo := req.prevLogIndex + |req.entries|;
    if req.leaderCommit <= upTo || NoRoomForStale(req, theirs) {
      forall n: NodeState | FollowerOf(n, theirs, req.term) ensures CommitsTheirs(n, req, theirs) {
        if Accepted(n, req) { AcceptedCommits(n, req, theirs); } else { RefusedCommits(n, req, theirs); }
      }
    } else {
      var k, term := StaleRoom(req, theirs);
      StaleFollows(req, theirs, k, term);
      StaleCommits(req, theirs, k, term);
    }
  }

  /** Where an entry of an earlier leader fits between what a request covers and its commit index. */
  lemma StaleRoom(req: AppendRequest, theirs: seq<Entry>) returns (k: nat, term: nat)
    requires IsLeaderLog(theirs, req.term) && CutFrom(req, theirs)
    requires req.prevLogIndex + |req.entries| < req.leaderCommit <= |theirs| && !NoRoomForStale(req, theirs)
    ensures req.prevLogIndex + |req.entries| <= k < req.leaderCommit
    ensures 1 <= term < req.term && term != theirs[k].term && (k > 0 ==> theirs[k - 1].term <= term)
  {
    var upTo, low := req.prevLogIndex + |req.entries|, CoveredTerm(req, theirs);
    var last := theirs[req.leaderCommit - 1];
    assert upTo > 0 ==> theirs[upTo - 1].term <= last.term;
    if last.term > low {
      k := FirstAbove(theirs, low, upTo, req.leaderCommit);
      term := low;
    } else {
      k, term := upTo, low + 1;
      assert theirs[upTo].term <= last.term;
    }
  }

  // ---------- Refusing what is matched ----------

  /** A follower with two entries of different terms that it has applied. */
  const APPLIED := NodeState(1, {0, 2}, [SAVED, Entry(2, 2, Noop)], 2, NO_ONE, 2, Follower, 0, 0, map[], map[],
                             0, 0, {}, 2, [], Disk(2, NO_ONE, 0, 0, [SAVED, Entry(2, 2, Noop)]))

  /** The request that sends a follower the whole log of `APPLIED`. */
  const WHOLE_LOG := AppendRequest(0, 1, 2, 0, 0, 0, APPLIED.log, 2)

  /** The follower accepts its own log again, but not once it has compacted: the snapshot answers its term for the
      first entry too. */
  lemma CompactedRefuses()
    ensures Accepted(APPLIED, WHOLE_LOG) && !Accepted(Compacted(APPLIED, 2), WHOLE_LOG)
    ensures CutFrom(WHOLE_LOG, APPLIED.log) && Matches(Compacted(APPLIED, 2), APPLIED.log, 2)
  {
    AcceptedExactly(APPLIED, WHOLE_LOG);
    AcceptedExactly(Compacted(APPLIED, 2), WHOLE_LOG);
    assert WHOLE_LOG.entries[0].term != 2;
    assert APPLIED.log[..2] == APPLIED.log;
  }
}
