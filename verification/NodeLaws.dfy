/** What single handlers of a node guarantee, for every state they can be called in. */
module NodeLaws {
  import opened Quorums
  import opened RaftSpec

  // ---------- The follower's splice ----------

  /** Whether a log behind a snapshot answers `term` for the entry at `index`. */
  predicate Has(log: seq<Entry>, snapshotIndex: nat, snapshotTerm: nat, index: nat, term: nat) {
    if index <= snapshotIndex then snapshotTerm == term
    else index <= snapshotIndex + |log| && log[index - snapshotIndex - 1].term == term
  }

  /** A splice passes over the entries the log has, stops at the first it lacks, and from there on the log is
      the request's: it cuts a tail only where an entry conflicts. */
  lemma {:induction false} SpliceOutcome(log: seq<Entry>, snapshotIndex: nat, snapshotTerm: nat, prev: nat,
                                         entries: seq<Entry>, i: nat)
    requires i <= |entries| && prev + i <= snapshotIndex + |log|
    ensures
      match Splice(log, snapshotIndex, snapshotTerm, prev, entries, i)
      case Clash =>
        exists j :: i <= j < |entries| && prev + j + 1 <= snapshotIndex && entries[j].term != snapshotTerm
      case Spliced(log', passed, cut) =>
        && (forall j :: i <= j < passed ==> Has(log, snapshotIndex, snapshotTerm, prev + j + 1, entries[j].term))
        && (passed == |entries| ==> log' == log && !cut)
        && (passed < |entries| ==>
              && prev + passed >= snapshotIndex
              && !Has(log, snapshotIndex, snapshotTerm, prev + passed + 1, entries[passed].term)
              && cut == (prev + passed < snapshotIndex + |log|)
              && prev + passed <= snapshotIndex + |log|
              && log' == log[..prev + passed - snapshotIndex] + entries[passed..])
    decreases |entries| - i
  {
    var index := prev + i + 1;
    if i < |entries| && Has(log, snapshotIndex, snapshotTerm, index, entries[i].term) {
      SpliceOutcome(log, snapshotIndex, snapshotTerm, prev, entries, i + 1);
    } else if i < |entries| && index == snapshotIndex + |log| + 1 && index > snapshotIndex {
      assert log[..|log|] == log;
    }
  }

  // ---------- The commit rule ----------

  /** Being on a majority is inherited by earlier indexes. */
  lemma OnMajorityDown(n: NodeState, i: nat, j: nat)
    requires i <= j && OnMajority(n, j)
    ensures OnMajority(n, i)
  {
    SubsetSize(Holders(n, j), Holders(n, i));
  }

  predicate StopsAt(n: NodeState, r: nat) {
    forall j :: r < j <= LastLogIndex(n) ==> !OnMajority(n, j)
  }

  lemma StopsHere(n: NodeState, r: nat)
    requires r < LastLogIndex(n) ==> !OnMajority(n, r + 1)
    ensures StopsAt(n, r)
  {
    forall j | r < j <= LastLogIndex(n) ensures !OnMajority(n, j) {
      if OnMajority(n, j) { OnMajorityDown(n, r + 1, j); }
    }
  }

  /** The walk of the commit loop stops at the last index on a majority. */
  lemma {:induction false} ReplicatedIsLast(n: NodeState, index: nat)
    requires index <= LastLogIndex(n)
    ensures ReplicatedFrom(n, index) > index ==> OnMajority(n, ReplicatedFrom(n, index))
    ensures StopsAt(n, ReplicatedFrom(n, index))
    decreases LastLogIndex(n) - index
  {
    if index < LastLogIndex(n) && OnMajority(n, index + 1) {
      ReplicatedIsLast(n, index + 1);
    } else {
      StopsHere(n, index);
    }
  }

  predicate TermsAscending(n: NodeState) {
    forall i, j :: n.snapshotIndex < i <= j <= LastLogIndex(n) ==> LogTermAt(n, i) <= LogTermAt(n, j) <= n.currentTerm
  }

  /** An index that Figure 2 of the Raft paper lets a leader commit: beyond the commit index, on a majority,
      and of the current term. */
  predicate Committable(n: NodeState, index: nat) {
    n.commitIndex < index <= LastLogIndex(n) && OnMajority(n, index) && LogTermAt(n, index) == n.currentTerm
  }

  /** The commit loop, which looks at the term of one index only, finds the largest committable index if there
      is any, and otherwise leaves the commit index alone. */
  lemma CommitRuleExact(n: NodeState)
    requires TermsAscending(n) && n.commitIndex >= n.snapshotIndex
    ensures var c := TryCommit(n).commitIndex;
            && TryCommit(n) == n.(commitIndex := c)
            && (c == n.commitIndex || Committable(n, c))
            && (forall i: nat :: Committable(n, i) ==> i <= c)
  {
    if n.commitIndex < LastLogIndex(n) {
      var r := ReplicatedFrom(n, n.commitIndex);
      ReplicatedIsLast(n, n.commitIndex);
      forall i | Committable(n, i) ensures i <= r && LogTermAt(n, r) == n.currentTerm {
        assert LogTermAt(n, i) <= LogTermAt(n, r) <= n.currentTerm;
      }
    }
  }

  // ---------- The follower's log and its leader's ----------

  /** The log behind its snapshot is the leader's up to an index. */
  predicate Matches(n: NodeState, theirs: seq<Entry>, upTo: nat) {
    && n.snapshotIndex <= upTo <= LastLogIndex(n) && upTo <= |theirs|
    && n.log[..upTo - n.snapshotIndex] == theirs[n.snapshotIndex..upTo]
  }

  /** Log matching between a follower and a leader: a common term at an index means a common log up to it. */
  predicate Comparable(n: NodeState, theirs: seq<Entry>) {
    forall i :: n.snapshotIndex < i <= LastLogIndex(n) && i <= |theirs|
                && n.log[i - n.snapshotIndex - 1].term == theirs[i - 1].term
                ==> Matches(n, theirs, i)
  }

  /** A request cut from the leader's log. */
  predicate CutFrom(req: AppendRequest, theirs: seq<Entry>) {
    && req.prevLogIndex + |req.entries| <= |theirs|
    && req.entries == theirs[req.prevLogIndex..req.prevLogIndex + |req.entries|]
    && (req.prevLogIndex > 0 ==> req.prevLogTerm == theirs[req.prevLogIndex - 1].term)
  }

  predicate Accepted(n: NodeState, req: AppendRequest) {
    HandleAppend(n, req).1.success
  }

  lemma MatchesDown(n: NodeState, theirs: seq<Entry>, i: nat, j: nat)
    requires Matches(n, theirs, j) && n.snapshotIndex <= i <= j
    ensures Matches(n, theirs, i)
  {
    var s := n.snapshotIndex;
    assert n.log[..i - s] == n.log[..j - s][..i - s];
    assert theirs[s..i] == theirs[s..j][..i - s];
  }

  lemma MatchesAt(n: NodeState, theirs: seq<Entry>, i: nat, j: nat)
    requires Matches(n, theirs, j) && n.snapshotIndex < i <= j
    ensures n.log[i - n.snapshotIndex - 1] == theirs[i - 1]
  {
    var s := n.snapshotIndex;
    assert n.log[..j - s][i - s - 1] == theirs[s..j][i - s - 1];
  }

  lemma TermMatches(n: NodeState, theirs: seq<Entry>, i: nat)
    requires Comparable(n, theirs) && n.snapshotIndex < i <= LastLogIndex(n) && i <= |theirs|
    requires n.log[i - n.snapshotIndex - 1].term == theirs[i - 1].term
    ensures Matches(n, theirs, i)
  {
  }

  lemma PreviousMatches(n: NodeState, req: AppendRequest, theirs: seq<Entry>)
    requires Comparable(n, theirs) && CutFrom(req, theirs) && HoldsPrevious(n, req)
    requires req.prevLogIndex >= n.snapshotIndex
    ensures Matches(n, theirs, req.prevLogIndex)
  {
    if req.prevLogIndex > n.snapshotIndex {
      TermMatches(n, theirs, req.prevLogIndex);
    }
  }

  /** Where the splice of an acceptable request stops, the follower agrees with the leader. */
  lemma PassedMatch(n: NodeState, req: AppendRequest, theirs: seq<Entry>, r: Spliced)
    requires Comparable(n, theirs) && CutFrom(req, theirs) && HoldsPrevious(n, req) && n.snapshotIndex <= |theirs|
    requires r == Splice(n.log, n.snapshotIndex, n.snapshotTerm, req.prevLogIndex, req.entries, 0)
    requires r.Spliced? && req.prevLogIndex + r.passed >= n.snapshotIndex
    ensures Matches(n, theirs, req.prevLogIndex + r.passed)
  {
    SpliceOutcome(n.log, n.snapshotIndex, n.snapshotTerm, req.prevLogIndex, req.entries, 0);
    if req.prevLogIndex + r.passed > n.snapshotIndex {
      if r.passed > 0 {
        HeldMatches(n, req, theirs, r.passed - 1);
      } else {
        PreviousMatches(n, req, theirs);
      }
    }
  }

  /** An entry of the request, beyond the snapshot, that the follower has. */
  lemma HeldMatches(n: NodeState, req: AppendRequest, theirs: seq<Entry>, j: nat)
    requires Comparable(n, theirs) && CutFrom(req, theirs)
    requires j < |req.entries| && n.snapshotIndex < req.prevLogIndex + j + 1
    requires Has(n.log, n.snapshotIndex, n.snapshotTerm, req.prevLogIndex + j + 1, req.entries[j].term)
    ensures Matches(n, theirs, req.prevLogIndex + j + 1)
  {
    assert req.entries[j] == theirs[req.prevLogIndex + j];
    TermMatches(n, theirs, req.prevLogIndex + j + 1);
  }

  /** The log an acceptable request leaves: the follower's own if it matched all the request covers, and
      otherwise the leader's log up to there. */
  function SplicedLog(n: NodeState, req: AppendRequest, theirs: seq<Entry>): seq<Entry>
    requires n.snapshotIndex <= req.prevLogIndex + |req.entries| <= |theirs|
  {
    var upTo := req.prevLogIndex + |req.entries|;
    if Matches(n, theirs, upTo) then n.log else theirs[n.snapshotIndex..upTo]
  }

  /** A splice that reaches the snapshot does not stop within it. */
  lemma SpliceIs(n: NodeState, req: AppendRequest, theirs: seq<Entry>, r: Spliced)
    requires Comparable(n, theirs) && CutFrom(req, theirs) && HoldsPrevious(n, req)
    requires n.snapshotIndex <= req.prevLogIndex + |req.entries| && n.snapshotIndex <= |theirs|
    requires r == Splice(n.log, n.snapshotIndex, n.snapshotTerm, req.prevLogIndex, req.entries, 0) && r.Spliced?
    ensures r.log == SplicedLog(n, req, theirs)
  {
    SpliceOutcome(n.log, n.snapshotIndex, n.snapshotTerm, req.prevLogIndex, req.entries, 0);
    PassedMatch(n, req, theirs, r);
    SplicedAfter(n, req, theirs, r);
  }

  lemma SplicedAfter(n: NodeState, req: AppendRequest, theirs: seq<Entry>, r: Spliced)
    requires CutFrom(req, theirs) && req.prevLogIndex <= LastLogIndex(n)
    requires r == Splice(n.log, n.snapshotIndex, n.snapshotTerm, req.prevLogIndex, req.entries, 0)
    requires r.Spliced? && Matches(n, theirs, req.prevLogIndex + r.passed)
    ensures r.log == SplicedLog(n, req, theirs)
  {
    SpliceOutcome(n.log, n.snapshotIndex, n.snapshotTerm, req.prevLogIndex, req.entries, 0);
    hide Splice, Has;
    if r.passed < |req.entries| {
      StoppedSplice(n, req, theirs, r.passed);
    }
  }

  /** Short of the end, the splice stops because the next entry does not match. */
  lemma StoppedSplice(n: NodeState, req: AppendRequest, theirs: seq<Entry>, passed: nat)
    requires CutFrom(req, theirs) && passed < |req.entries|
    requires Matches(n, theirs, req.prevLogIndex + passed)
    requires !Has(n.log, n.snapshotIndex, n.snapshotTerm, req.prevLogIndex + passed + 1, req.entries[passed].term)
    ensures n.log[..req.prevLogIndex + passed - n.snapshotIndex] + req.entries[passed..]
            == SplicedLog(n, req, theirs)
  {
    var s, met, upTo := n.snapshotIndex, req.prevLogIndex + passed, req.prevLogIndex + |req.entries|;
    if Matches(n, theirs, upTo) {
      MatchesAt(n, theirs, met + 1, upTo);
    }
    assert theirs[s..upTo] == theirs[s..met] + req.entries[passed..];
  }

  /** An accepted request leaves its splice. */
  lemma AcceptedLogIs(n: NodeState, req: AppendRequest)
    requires Accepted(n, req)
    ensures var r := Splice(n.log, n.snapshotIndex, n.snapshotTerm, req.prevLogIndex, req.entries, 0);
            var n' := HandleAppend(n, req).0;
            && HoldsPrevious(n, req) && r.Spliced? && n'.log == r.log
            && n'.snapshotIndex == n.snapshotIndex && n'.snapshotTerm == n.snapshotTerm
            && n'.currentTerm == req.term
  {
  }

  lemma HandledLogIs(n: NodeState, req: AppendRequest, theirs: seq<Entry>)
    requires Comparable(n, theirs) && CutFrom(req, theirs) && Accepted(n, req)
    requires n.snapshotIndex <= req.prevLogIndex + |req.entries| && n.snapshotIndex <= |theirs|
    ensures var n' := HandleAppend(n, req).0;
            n'.log == SplicedLog(n, req, theirs) && n'.snapshotIndex == n.snapshotIndex
  {
    AcceptedLogIs(n, req);
    SpliceIs(n, req, theirs, Splice(n.log, n.snapshotIndex, n.snapshotTerm, req.prevLogIndex, req.entries, 0));
  }

  /** A log replaced by the leader's, up to an index, keeps the agreement there was. */
  lemma ReplacedKeeps(n: NodeState, m: NodeState, theirs: seq<Entry>, upTo: nat, i: nat)
    requires n.snapshotIndex <= upTo <= |theirs| && m.snapshotIndex == n.snapshotIndex
    requires m.log == theirs[n.snapshotIndex..upTo]
    ensures Matches(m, theirs, upTo)
    ensures Matches(n, theirs, i) && i <= upTo ==> Matches(m, theirs, i)
  {
    var s := n.snapshotIndex;
    assert m.log[..upTo - s] == m.log;
    if s <= i <= upTo {
      assert theirs[s..upTo][..i - s] == theirs[s..i];
    }
  }

  lemma KeptBySplice(n: NodeState, m: NodeState, theirs: seq<Entry>, upTo: nat, i: nat)
    requires n.snapshotIndex <= upTo <= |theirs| && m.snapshotIndex == n.snapshotIndex
    requires m.log == if Matches(n, theirs, upTo) then n.log else theirs[n.snapshotIndex..upTo]
    ensures Matches(m, theirs, upTo) && (Matches(n, theirs, i) ==> Matches(m, theirs, i))
  {
    if !Matches(n, theirs, upTo) {
      if i > upTo && Matches(n, theirs, i) {
        MatchesDown(n, theirs, upTo, i);
      }
      ReplacedKeeps(n, m, theirs, upTo, i);
    }
  }

  /** A successful request makes the follower agree with the leader on all it covers, wherever it starts, and loses
      none of the agreement there was, even beyond what the request covers. One that ends inside the snapshot
      changes nothing. */
  lemma FollowerSplice(n: NodeState, req: AppendRequest, theirs: seq<Entry>, i: nat)
    requires Comparable(n, theirs) && CutFrom(req, theirs) && Accepted(n, req) && n.snapshotIndex <= |theirs|
    ensures var n' := HandleAppend(n, req).0;
            var upTo := req.prevLogIndex + |req.entries|;
            && (n.snapshotIndex <= upTo ==> Matches(n', theirs, upTo))
            && (upTo <= n.snapshotIndex ==> n'.log == n.log)
            && (Matches(n, theirs, i) ==> Matches(n', theirs, i))
  {
    var upTo := req.prevLogIndex + |req.entries|;
    if n.snapshotIndex <= upTo {
      HandledLogIs(n, req, theirs);
      KeptBySplice(n, HandleAppend(n, req).0, theirs, upTo, i);
    }
    if upTo <= n.snapshotIndex {
      InsideSnapshot(n, req);
    }
  }

  lemma InsideSnapshot(n: NodeState, req: AppendRequest)
    requires req.prevLogIndex + |req.entries| <= n.snapshotIndex
    ensures HandleAppend(n, req).0.log == n.log && HandleAppend(n, req).0.snapshotIndex == n.snapshotIndex
  {
    SpliceOutcome(n.log, n.snapshotIndex, n.snapshotTerm, req.prevLogIndex, req.entries, 0);
  }

  // ---------- What a follower accepts ----------

  /** No entry of the request at or before the snapshot has another term than the snapshot. */
  predicate Undisputed(n: NodeState, req: AppendRequest) {
    forall j :: 0 <= j < |req.entries| && req.prevLogIndex + j + 1 <= n.snapshotIndex
                ==> req.entries[j].term == n.snapshotTerm
  }

  /** A request is accepted exactly if its term is not old, the entry before it is held, and no entry inside the
      snapshot is disputed. */
  lemma AcceptedExactly(n: NodeState, req: AppendRequest)
    ensures Accepted(n, req) <==> req.term >= n.currentTerm && HoldsPrevious(n, req) && Undisputed(n, req)
  {
    if HoldsPrevious(n, req) {
      SpliceOutcome(n.log, n.snapshotIndex, n.snapshotTerm, req.prevLogIndex, req.entries, 0);
    }
  }

  /** Whether the leader's term is the snapshot's at every index, down to the previous one, that the request names
      at or before the snapshot. */
  predicate SnapshotAgrees(n: NodeState, req: AppendRequest, theirs: seq<Entry>)
    requires CutFrom(req, theirs)
  {
    forall k :: 0 < k <= n.snapshotIndex && req.prevLogIndex <= k <= req.prevLogIndex + |req.entries|
                ==> OfTerm(theirs, k, n.snapshotTerm)
  }

  predicate OfTerm(log: seq<Entry>, index: nat, term: nat)
    requires 0 < index <= |log|
  {
    log[index - 1].term == term
  }

  /** A splice of entries that are all matched leaves the log as it is, if it ends. */
  lemma MatchedSplice(n: NodeState, req: AppendRequest, theirs: seq<Entry>)
    requires CutFrom(req, theirs) && req.prevLogIndex <= LastLogIndex(n)
    requires n.snapshotIndex <= req.prevLogIndex + |req.entries|
    requires Matches(n, theirs, req.prevLogIndex + |req.entries|)
    ensures var r := Splice(n.log, n.snapshotIndex, n.snapshotTerm, req.prevLogIndex, req.entries, 0);
            r.Spliced? ==> r.log == n.log
  {
    forall j | 0 <= j < |req.entries| && req.prevLogIndex + j >= n.snapshotIndex
      ensures Has(n.log, n.snapshotIndex, n.snapshotTerm, req.prevLogIndex + j + 1, req.entries[j].term)
    {
      MatchesAt(n, theirs, req.prevLogIndex + j + 1, req.prevLogIndex + |req.entries|);
    }
    SpliceOutcome(n.log, n.snapshotIndex, n.snapshotTerm, req.prevLogIndex, req.entries, 0);
  }

  /** The entry before a request of matched entries is held, unless it lies inside the snapshot. */
  lemma MatchedPrevious(n: NodeState, req: AppendRequest, theirs: seq<Entry>, i: nat)
    requires CutFrom(req, theirs) && req.prevLogIndex + |req.entries| <= i && Matches(n, theirs, i)
    ensures HoldsPrevious(n, req)
            <==> (0 < req.prevLogIndex <= n.snapshotIndex ==> theirs[req.prevLogIndex - 1].term == n.snapshotTerm)
  {
    if req.prevLogIndex > n.snapshotIndex {
      MatchesAt(n, theirs, req.prevLogIndex, i);
    }
  }

  lemma SnapshotAgreesIs(n: NodeState, req: AppendRequest, theirs: seq<Entry>)
    requires CutFrom(req, theirs)
    ensures SnapshotAgrees(n, req, theirs)
            <==> (0 < req.prevLogIndex <= n.snapshotIndex ==> theirs[req.prevLogIndex - 1].term == n.snapshotTerm)
                 && Undisputed(n, req)
  {
    var prev := req.prevLogIndex;
    if SnapshotAgrees(n, req, theirs) {
      if 0 < prev <= n.snapshotIndex {
        assert OfTerm(theirs, prev, n.snapshotTerm);
      }
      forall j | 0 <= j < |req.entries| && prev + j + 1 <= n.snapshotIndex
        ensures req.entries[j].term == n.snapshotTerm
      {
        assert OfTerm(theirs, prev + j + 1, n.snapshotTerm);
      }
    }
    if (0 < prev <= n.snapshotIndex ==> theirs[prev - 1].term == n.snapshotTerm) && Undisputed(n, req) {
      forall k | 0 < k <= n.snapshotIndex && prev <= k <= prev + |req.entries|
        ensures OfTerm(theirs, k, n.snapshotTerm)
      {
        if k > prev {
          assert req.entries[k - prev - 1] == theirs[k - 1];
        }
      }
    }
  }

  /** A request that covers only what the follower already matches, such as a delayed or repeated one of the same
      leader, leaves the log as it is, with whatever follows, wherever the request starts. It is accepted, for all it
      covers, exactly if every entry it names inside the snapshot is of the snapshot's term. */
  lemma OldRequestKeepsLog(n: NodeState, req: AppendRequest, theirs: seq<Entry>, i: nat)
    requires CutFrom(req, theirs) && req.prevLogIndex + |req.entries| <= i && Matches(n, theirs, i)
    ensures HandleAppend(n, req).0.log == n.log
    ensures Accepted(n, req) <==> req.term >= n.currentTerm && SnapshotAgrees(n, req, theirs)
    ensures Accepted(n, req) ==> HandleAppend(n, req).1.matchIndex == req.prevLogIndex + |req.entries|
  {
    AcceptedExactly(n, req);
    MatchedPrevious(n, req, theirs, i);
    SnapshotAgreesIs(n, req, theirs);
    if req.prevLogIndex + |req.entries| <= n.snapshotIndex {
      InsideSnapshot(n, req);
    } else {
      MatchesDown(n, theirs, req.prevLogIndex + |req.entries|, i);
      MatchedSplice(n, req, theirs);
    }
    OldLog(n, req);
  }

  /** The log after a request whose splice leaves it alone, and which cuts nothing. */
  lemma OldLog(n: NodeState, req: AppendRequest)
    requires req.prevLogIndex + |req.entries| > n.snapshotIndex && HoldsPrevious(n, req) ==>
               var r := Splice(n.log, n.snapshotIndex, n.snapshotTerm, req.prevLogIndex, req.entries, 0);
               r.Spliced? ==> r.log == n.log
    requires req.prevLogIndex + |req.entries| <= n.snapshotIndex ==> HandleAppend(n, req).0.log == n.log
    requires req.prevLogIndex > n.snapshotIndex ==> HoldsPrevious(n, req)
    ensures HandleAppend(n, req).0.log == n.log
    ensures Accepted(n, req) ==> HandleAppend(n, req).1.matchIndex == req.prevLogIndex + |req.entries|
  {
  }

  /** The first index that a request names. */
  function FirstNamed(req: AppendRequest): nat {
    if req.prevLogIndex == 0 then 1 else req.prevLogIndex
  }

  /** With a leader whose terms ascend and a snapshot of one of its entries, the first index that the request names
      decides. */
  lemma FirstDecides(n: NodeState, req: AppendRequest, theirs: seq<Entry>)
    requires CutFrom(req, theirs) && InTermOrder(theirs)
    requires 0 < n.snapshotIndex <= |theirs| && n.snapshotTerm == theirs[n.snapshotIndex - 1].term
    ensures var first := FirstNamed(req);
            !SnapshotAgrees(n, req, theirs) <==>
            first <= n.snapshotIndex && first <= req.prevLogIndex + |req.entries|
            && theirs[first - 1].term < n.snapshotTerm
  {
    var first := FirstNamed(req);
    if first <= n.snapshotIndex && first <= req.prevLogIndex + |req.entries| {
      if theirs[first - 1].term < n.snapshotTerm {
        assert !OfTerm(theirs, first, n.snapshotTerm);
      }
      assert theirs[first - 1].term <= theirs[n.snapshotIndex - 1].term;
    }
  }

  /** A request of matched entries is refused exactly if it starts inside the snapshot in an older term. */
  lemma RefusedExactly(n: NodeState, req: AppendRequest, theirs: seq<Entry>, i: nat)
    requires CutFrom(req, theirs) && req.prevLogIndex + |req.entries| <= i && Matches(n, theirs, i)
    requires req.term >= n.currentTerm && InTermOrder(theirs)
    requires 0 < n.snapshotIndex <= |theirs| && n.snapshotTerm == theirs[n.snapshotIndex - 1].term
    ensures var first := FirstNamed(req);
            !Accepted(n, req) <==>
            first <= n.snapshotIndex && first <= req.prevLogIndex + |req.entries|
            && theirs[first - 1].term < n.snapshotTerm
  {
    hide HandleAppend, HoldsPrevious, Matches;
    OldRequestKeepsLog(n, req, theirs, i);
    FirstDecides(n, req, theirs);
  }

  predicate InTermOrder(log: seq<Entry>) {
    forall i, j :: 0 <= i <= j < |log| ==> log[i].term <= log[j].term
  }
}
