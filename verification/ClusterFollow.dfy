/**
 Following a leader: what an append request does to the log it reaches. The splice leaves a log that agrees, up to each
 of its entries, with the log of the term of that entry, and keeps what the follower had acknowledged to any leader
 before, unless a later winner has overruled it.
 */
module ClusterFollow {
  import opened Quorums
  import opened RaftSpec
  import opened NodeLaws
  import opened Cluster
  import opened ClusterInvariant
  import opened ClusterGrowth
  import opened ClusterHistory
  import opened ClusterCompleteness
  import opened ClusterSteps

  /** A log after a request of a term whose log is `theirs`: well formed, and still agreeing with `theirs`
      wherever it did. */
  ghost predicate Adopts(ids: set<NodeId>, h: History, mine: seq<Entry>, theirs: seq<Entry>, after: seq<Entry>,
                         term: nat) {
    && Rooted(h, after) && TermsWithin(after, term) && Indexed(after)
    && (forall i: nat :: Agree(mine, theirs, i) ==> Agree(after, theirs, i))
  }

  lemma RootedPrefix(h: History, log: seq<Entry>, i: nat)
    requires Rooted(h, log) && i <= |log|
    ensures Rooted(h, log[..i])
  {
    forall k | 0 <= k < i ensures RootedAt(h, log[..i], k) {
      assert RootedAt(h, log, k);
      assert log[..i][..k + 1] == log[..k + 1];
    }
  }

  lemma PrefixAgrees(log: seq<Entry>, i: nat)
    requires i <= |log|
    ensures Agree(log[..i], log, i)
  {
  }

  /** Entries of one term at one index mean agreement up to there, also in a row. */
  lemma AgreeThrough(ids: set<NodeId>, h: History, a: seq<Entry>, b: seq<Entry>, from: nat, to: nat)
    requires HistoryOk(ids, h) && Rooted(h, a) && Rooted(h, b)
    requires Agree(a, b, from) && from <= to <= |a| && to <= |b|
    requires from < to ==> a[to - 1].term == b[to - 1].term
    ensures Agree(a, b, to)
  {
    if from < to { LogsMatch(ids, h, a, b, to - 1); }
  }

  /** The entries that a splice passes over are agreed on. */
  lemma PassedAgree(ids: set<NodeId>, h: History, mine: seq<Entry>, theirs: seq<Entry>, prev: nat,
                    entries: seq<Entry>)
    requires HistoryOk(ids, h) && Rooted(h, mine) && Rooted(h, theirs)
    requires Agree(mine, theirs, prev) && prev + |entries| <= |theirs|
    requires entries == theirs[prev..prev + |entries|]
    ensures var r := Splice(mine, 0, 0, prev, entries, 0);
            r.Spliced? && Agree(mine, theirs, prev + r.passed)
  {
    SpliceOutcome(mine, 0, 0, prev, entries, 0);
    var r := Splice(mine, 0, 0, prev, entries, 0);
    if r.passed > 0 {
      var j := r.passed - 1;
      assert Has(mine, 0, 0, prev + j + 1, entries[j].term);
    }
    AgreeThrough(ids, h, mine, theirs, prev, prev + r.passed);
  }

  /** The splice of a request cut from `theirs` leaves either the log itself, which then holds all that the
      request covers, or exactly what the request covers, and then the log did not have it. */
  lemma SpliceFollows(ids: set<NodeId>, h: History, mine: seq<Entry>, theirs: seq<Entry>, prev: nat,
                      entries: seq<Entry>)
    requires HistoryOk(ids, h) && Rooted(h, mine) && Rooted(h, theirs)
    requires Agree(mine, theirs, prev) && prev + |entries| <= |theirs|
    requires entries == theirs[prev..prev + |entries|]
    ensures var r := Splice(mine, 0, 0, prev, entries, 0); var upTo := prev + |entries|;
            && r.Spliced?
            && ((r.log == mine && Agree(mine, theirs, upTo))
                || (r.log == theirs[..upTo] && r.passed < |entries| && !Agree(mine, theirs, prev + r.passed + 1)))
  {
    PassedAgree(ids, h, mine, theirs, prev, entries);
    SpliceOutcome(mine, 0, 0, prev, entries, 0);
    var r := Splice(mine, 0, 0, prev, entries, 0);
    var met := prev + r.passed;
    if r.passed < |entries| {
      assert theirs[..prev + |entries|] == theirs[..met] + entries[r.passed..];
      TermsDiffer(mine, theirs, met);
    }
  }

  lemma TermsDiffer(a: seq<Entry>, b: seq<Entry>, k: nat)
    ensures k < |b| && !(k < |a| && a[k].term == b[k].term) ==> !Agree(a, b, k + 1)
  {
    if Agree(a, b, k + 1) {
      AgreeAt(a, b, k + 1, k);
    }
  }

  lemma SpliceAdopts(ids: set<NodeId>, h: History, mine: seq<Entry>, theirs: seq<Entry>, prev: nat,
                     entries: seq<Entry>, term: nat)
    requires HistoryOk(ids, h) && Rooted(h, mine) && TermsWithin(mine, term) && Indexed(mine)
    requires Rooted(h, theirs) && TermsWithin(theirs, term) && Indexed(theirs)
    requires Agree(mine, theirs, prev) && prev + |entries| <= |theirs|
    requires entries == theirs[prev..prev + |entries|]
    ensures var r := Splice(mine, 0, 0, prev, entries, 0);
            && r.Spliced? && Adopts(ids, h, mine, theirs, r.log, term)
            && Agree(r.log, theirs, prev + |entries|)
  {
    SpliceFollows(ids, h, mine, theirs, prev, entries);
    var r := Splice(mine, 0, 0, prev, entries, 0);
    var upTo := prev + |entries|;
    if r.log == theirs[..upTo] {
      RootedPrefix(h, theirs, upTo);
      PrefixAgrees(theirs, upTo);
      forall i: nat | Agree(mine, theirs, i) ensures Agree(r.log, theirs, i) {
        if i > prev + r.passed { AgreeDown(mine, theirs, prev + r.passed + 1, i); }
        AgreeDown(r.log, theirs, i, upTo);
      }
    }
  }

  /** Cutting a log before an entry that conflicts with `theirs` loses no agreement. */
  lemma CutAdopts(ids: set<NodeId>, h: History, mine: seq<Entry>, theirs: seq<Entry>, prev: nat, term: nat)
    requires Rooted(h, mine) && TermsWithin(mine, term) && Indexed(mine)
    requires 1 <= prev <= |mine| && mine[prev - 1].term != TermAt(theirs, prev)
    ensures Adopts(ids, h, mine, theirs, mine[..prev - 1], term)
  {
    RootedPrefix(h, mine, prev - 1);
    PrefixAgrees(mine, prev - 1);
    forall i: nat | Agree(mine, theirs, i) ensures Agree(mine[..prev - 1], theirs, i) {
      AgreeBelow(mine, theirs, i, prev - 1);
      assert mine[..prev - 1][..i] == mine[..i];
    }
  }

  /** A node that follows a term keeps the faith: what it acknowledged is in its log, or was overruled. */
  lemma AdoptOk(ids: set<NodeId>, h: History, s: NodeState, s': NodeState, term: nat)
    requires HistoryOk(ids, h) && Dated(h, s) && LogOk(ids, h, s) && term in h.reigns && s.currentTerm <= term
    requires s'.id == s.id && s'.currentTerm == term && s'.commitIndex == s.commitIndex
    requires Adopts(ids, h, s.log, h.reigns[term].log, s'.log, term)
    ensures LogOk(ids, h, s')
  {
    var theirs := h.reigns[term].log;
    forall t: nat, i: nat | t <= term && (t, s.id) in h.acked && i <= h.acked[(t, s.id)]
      ensures Kept(h, s'.log, t, i, term)
    {
      AdoptKeeps(ids, h, s, s', term, t, i);
    }
    CommittedIsKept(ids, h, s.log, s.commitIndex, s.currentTerm, term);
    AgreeFlip(s'.log, theirs, s.commitIndex);
    AgreeTransitive(s.log, theirs, s'.log, s.commitIndex);
    CommitOkOnPrefix(ids, h, s.log, s'.log, s.commitIndex, s.currentTerm);
    SameExtends(h, s.id);
    CommitOkGrows(ids, h, h, s'.log, s.commitIndex, s.currentTerm, term);
  }

  lemma AdoptKeeps(ids: set<NodeId>, h: History, s: NodeState, s': NodeState, term: nat, t: nat, i: nat)
    requires HistoryOk(ids, h) && Dated(h, s) && LogOk(ids, h, s) && term in h.reigns && s.currentTerm <= term
    requires Adopts(ids, h, s.log, h.reigns[term].log, s'.log, term)
    requires t <= term && (t, s.id) in h.acked && i <= h.acked[(t, s.id)]
    ensures Kept(h, s'.log, t, i, term)
  {
    var theirs := h.reigns[term].log;
    var start := h.reigns[term].start;
    assert AckOk(ids, h, t, s.id);
    assert ReignOk(ids, h, term);
    assert Kept(h, s.log, t, i, s.currentTerm);
    if !Agree(s.log, h.reigns[t].log, i) {
      var u: nat :| Overrules(h, u, t, i) && u <= s.currentTerm;
      assert u <= term;
    } else if t == term {
      assert Agree(s'.log, theirs, i);
    } else if Overrules(h, term, t, i) {
      assert Overruled(h, t, i, term);
    } else {
      AgreeDown(start, theirs, i, |start|);
      AgreeFlip(start, theirs, i);
      AgreeTransitive(theirs, start, h.reigns[t].log, i);
      AgreeFlip(theirs, h.reigns[t].log, i);
      AgreeTransitive(s.log, h.reigns[t].log, theirs, i);
      AgreeTransitive(s'.log, theirs, h.reigns[t].log, i);
    }
  }

  /** Acknowledging what the log holds of the term's log. */
  lemma AckedLogOk(ids: set<NodeId>, h: History, s: NodeState, m: AppendRequest, reply: AppendReply)
    requires HistoryOk(ids, h) && LogOk(ids, h, s) && s.id == m.to && s.currentTerm == m.term
    requires AskAppendOk(ids, h, m)
    requires reply.success ==> reply.matchIndex == m.prevLogIndex + |m.entries|
                               && Agree(s.log, h.reigns[m.term].log, reply.matchIndex)
    ensures LogOk(ids, RecordAck(h, m, reply), s)
  {
    var h' := RecordAck(h, m, reply);
    AckExtends(h, m, reply);
    RootedGrows(h, h', s.log);
    CommitOkGrows(ids, h, h', s.log, s.commitIndex, s.currentTerm, s.currentTerm);
    forall t: nat, i: nat | t <= s.currentTerm && (t, s.id) in h'.acked && i <= h'.acked[(t, s.id)]
      ensures Kept(h', s.log, t, i, s.currentTerm)
    {
      AckedIsKept(ids, h, s, m, reply, t, i);
    }
  }

  lemma AckedIsKept(ids: set<NodeId>, h: History, s: NodeState, m: AppendRequest, reply: AppendReply, t: nat, i: nat)
    requires HistoryOk(ids, h) && LogOk(ids, h, s) && s.id == m.to && s.currentTerm == m.term && m.term in h.reigns
    requires reply.success ==> Agree(s.log, h.reigns[m.term].log, reply.matchIndex)
    requires var h' := RecordAck(h, m, reply);
             Grows(h, h') && t <= s.currentTerm && (t, s.id) in h'.acked && i <= h'.acked[(t, s.id)]
    ensures Kept(RecordAck(h, m, reply), s.log, t, i, s.currentTerm)
  {
    var h' := RecordAck(h, m, reply);
    if reply.success && t == m.term && i <= reply.matchIndex {
      AgreeDown(s.log, h.reigns[t].log, i, reply.matchIndex);
    } else {
      assert AckOk(ids, h, t, s.id);
      assert Kept(h, s.log, t, i, s.currentTerm);
      KeptGrows(h, h', s.log, t, i, s.currentTerm, s.currentTerm);
    }
  }

  /** Committing as far as the leader has, within what the request covers. */
  lemma FollowCommitOk(ids: set<NodeId>, h: History, s: NodeState, m: AppendRequest)
    requires HistoryOk(ids, h) && LogOk(ids, h, s) && s.currentTerm == m.term && s.snapshotIndex == 0
    requires AskAppendOk(ids, h, m) && m.leaderCommit <= m.prevLogIndex + |m.entries|
    requires Agree(s.log, h.reigns[m.term].log, m.prevLogIndex + |m.entries|)
    ensures LogOk(ids, h, FollowCommit(s, m.leaderCommit))
  {
    var theirs := h.reigns[m.term].log;
    AgreeDown(s.log, theirs, m.leaderCommit, m.prevLogIndex + |m.entries|);
    AgreeFlip(s.log, theirs, m.leaderCommit);
    CommitOkOnPrefix(ids, h, theirs, s.log, m.leaderCommit, m.term);
  }

  // ---------- The append handler ----------

  /** A node that has met a request of its term or a later one, with the log that the request left. */
  function Following(s: NodeState, m: AppendRequest, log: seq<Entry>): NodeState {
    var d := StepDown(s, m.term).(currentLeader := m.leaderId);
    d.(log := log, disk := d.disk.(log := log))
  }

  predicate CurrentEnough(s: NodeState, m: AppendRequest) {
    m.term >= s.currentTerm
  }

  /** The log that a request leaves. */
  function LogAfter(s: NodeState, m: AppendRequest): seq<Entry> {
    if HoldsPrevious(s, m) then
      var r := Splice(s.log, 0, 0, m.prevLogIndex, m.entries, 0);
      if r.Spliced? then r.log else s.log
    else if 1 <= m.prevLogIndex <= |s.log| then s.log[..m.prevLogIndex - 1]
    else s.log
  }

  lemma SaveSpliceIsDurable(d: NodeState, prev: nat, entries: seq<Entry>)
    requires d.snapshotIndex == 0 && d.snapshotTerm == 0 && d.disk.log == d.log && prev <= |d.log|
    ensures var r := Splice(d.log, 0, 0, prev, entries, 0);
            r.Spliced? ==> SaveSplice(d, entries, r) == d.(log := r.log, disk := d.disk.(log := r.log))
  {
    SpliceOutcome(d.log, 0, 0, prev, entries, 0);
    assert d.log[..|d.log|] == d.log;
  }

  /** The handler, spelled out for nodes whose memory and disk agree and which have no snapshot. */
  lemma HandleAppendIs(ids: set<NodeId>, s: NodeState, m: AppendRequest)
    requires AtRest(ids, s) && CurrentEnough(s, m)
    requires HoldsPrevious(s, m) ==> Splice(s.log, 0, 0, m.prevLogIndex, m.entries, 0).Spliced?
    ensures var (s', reply) := HandleAppend(s, m); var f := Following(s, m, LogAfter(s, m));
            if HoldsPrevious(s, m) then
              s' == FollowCommit(f, m.leaderCommit)
              && reply == AppendReply(m.to, m.from, m.term, true, m.prevLogIndex + |m.entries|)
            else
              s' == f && reply == AppendReply(m.to, m.from, m.term, false, 0)
  {
    var d := StepDown(s, m.term).(currentLeader := m.leaderId);
    if HoldsPrevious(s, m) {
      SaveSpliceIsDurable(d, m.prevLogIndex, m.entries);
    }
  }

  lemma HoldsPreviousAgrees(ids: set<NodeId>, h: History, s: NodeState, m: AppendRequest)
    requires HistoryOk(ids, h) && Rooted(h, s.log) && s.snapshotIndex == 0 && AskAppendOk(ids, h, m)
    requires HoldsPrevious(s, m)
    ensures Agree(s.log, h.reigns[m.term].log, m.prevLogIndex)
  {
    if m.prevLogIndex > 0 {
      ReignTerms(ids, h, m.term);
      LogsMatch(ids, h, s.log, h.reigns[m.term].log, m.prevLogIndex - 1);
    }
  }

  lemma LogAfterAdopts(ids: set<NodeId>, h: History, s: NodeState, m: AppendRequest)
    requires HistoryOk(ids, h) && AtRest(ids, s) && LogOk(ids, h, s) && AskAppendOk(ids, h, m) && CurrentEnough(s, m)
    ensures Adopts(ids, h, s.log, h.reigns[m.term].log, LogAfter(s, m), m.term)
    ensures HoldsPrevious(s, m) ==>
              && Splice(s.log, 0, 0, m.prevLogIndex, m.entries, 0).Spliced?
              && Agree(LogAfter(s, m), h.reigns[m.term].log, m.prevLogIndex + |m.entries|)
  {
    var theirs := h.reigns[m.term].log;
    ReignTerms(ids, h, m.term);
    assert ReignOk(ids, h, m.term);
    if HoldsPrevious(s, m) {
      HoldsPreviousAgrees(ids, h, s, m);
      SpliceAdopts(ids, h, s.log, theirs, m.prevLogIndex, m.entries, m.term);
    } else if 1 <= m.prevLogIndex <= |s.log| {
      CutAdopts(ids, h, s.log, theirs, m.prevLogIndex, m.term);
    }
  }

  lemma FollowedAdopts(ids: set<NodeId>, h: History, s: NodeState, m: AppendRequest, f: NodeState)
    requires HistoryOk(ids, h) && Dated(h, s) && LogOk(ids, h, s) && CurrentEnough(s, m) && AskAppendOk(ids, h, m)
    requires f == Following(s, m, LogAfter(s, m))
    requires Adopts(ids, h, s.log, h.reigns[m.term].log, LogAfter(s, m), m.term)
    ensures LogOk(ids, h, f) && f.id == s.id && f.currentTerm == m.term && f.log == LogAfter(s, m)
    ensures f.snapshotIndex == s.snapshotIndex
  {
    hide HistoryOk, LogOk, Dated, Adopts, LogAfter;
    AdoptOk(ids, h, s, f, m.term);
  }

  lemma FollowedLogOk(ids: set<NodeId>, h: History, s: NodeState, m: AppendRequest)
    requires HistoryOk(ids, h) && AtRest(ids, s) && Dated(h, s) && LogOk(ids, h, s)
    requires AskAppendOk(ids, h, m) && CurrentEnough(s, m) && m.to == s.id
    requires m.leaderCommit <= m.prevLogIndex + |m.entries|
    ensures var (s', reply) := HandleAppend(s, m); LogOk(ids, RecordAck(h, m, reply), s')
  {
    hide HistoryOk, LogOk, Dated, AskAppendOk, Adopts, Agree, HandleAppend, LogAfter, Splice, HoldsPrevious,
      CurrentEnough, Following;
    var (s', reply) := HandleAppend(s, m);
    var f := Following(s, m, LogAfter(s, m));
    LogAfterAdopts(ids, h, s, m);
    HandleAppendIs(ids, s, m);
    FollowedAdopts(ids, h, s, m, f);
    if HoldsPrevious(s, m) {
      FollowCommitOk(ids, h, f, m);
    }
    AckedLogOk(ids, h, s', m, reply);
  }

  /** The state that a request leaves, beside the log. */
  lemma FollowedRest(variant: Variant, ids: set<NodeId>, s: NodeState, m: AppendRequest)
    requires AtRest(ids, s) && CurrentEnough(s, m)
    requires HoldsPrevious(s, m) ==> Splice(s.log, 0, 0, m.prevLogIndex, m.entries, 0).Spliced?
    ensures var (s', reply) := HandleAppend(s, m); var k := KeepVote(variant, s, s');
            && AtRest(ids, k) && k.id == s.id && k.role == Follower && k.currentTerm == m.term
            && k.log == s'.log && k.commitIndex == s'.commitIndex && s'.currentTerm == m.term && s'.id == s.id
            && (variant.voteKept && m.term == s.currentTerm ==> k.votedFor == s.votedFor)
            && (reply.success ==> HoldsPrevious(s, m))
  {
    HandleAppendIs(ids, s, m);
  }

  lemma FollowedNodeOk(variant: Variant, ids: set<NodeId>, h: History, s: NodeState, m: AppendRequest)
    requires AtRest(ids, s) && Dated(h, s) && (variant.voteKept ==> VoteRemembered(h, s))
    requires CurrentEnough(s, m) && m.to == s.id
    requires HoldsPrevious(s, m) ==> Splice(s.log, 0, 0, m.prevLogIndex, m.entries, 0).Spliced?
    requires var (s', reply) := HandleAppend(s, m); LogOk(ids, RecordAck(h, m, reply), s')
    ensures var (s', reply) := HandleAppend(s, m);
            NodeOk(variant, ids, RecordAck(h, m, reply), KeepVote(variant, s, s'))
  {
    FollowedRest(variant, ids, s, m);
    var (s', reply) := HandleAppend(s, m);
    var k := KeepVote(variant, s, s');
    FollowerOk(variant, ids, h, RecordAck(h, m, reply), s, k);
    KeptVoteLogOk(ids, RecordAck(h, m, reply), s', k);
  }

  lemma FollowerOk(variant: Variant, ids: set<NodeId>, h: History, h': History, s: NodeState, k: NodeState)
    requires Dated(h, s) && (variant.voteKept ==> VoteRemembered(h, s))
    requires k.id == s.id && s.currentTerm <= k.currentTerm
    requires variant.voteKept && k.currentTerm == s.currentTerm ==> k.votedFor == s.votedFor
    requires h'.ballots == h.ballots && h'.stands == h.stands && h'.tally == h.tally
    requires forall term :: (term, s.id) in h'.acked ==> (term, s.id) in h.acked || term == k.currentTerm
    ensures Dated(h', k) && (variant.voteKept ==> VoteRemembered(h', k))
  {
  }

  lemma KeptVoteLogOk(ids: set<NodeId>, h: History, a: NodeState, b: NodeState)
    requires LogOk(ids, h, a) && b.id == a.id && b.log == a.log
    requires b.currentTerm == a.currentTerm && b.commitIndex == a.commitIndex
    ensures LogOk(ids, h, b)
  {
  }

  lemma AskAppendOkNode(variant: Variant, ids: set<NodeId>, h: History, s: NodeState, m: AppendRequest)
    requires HistoryOk(ids, h) && NodeOk(variant, ids, h, s) && AskAppendOk(ids, h, m) && m.to == s.id
    requires m.leaderCommit <= m.prevLogIndex + |m.entries|
    ensures var (s', reply) := HandleAppend(s, m); var h' := RecordAck(h, m, reply);
            && HistoryOk(ids, h') && Extends(h, h', s.id)
            && NodeOk(variant, ids, h', KeepVote(variant, s, s'))
            && AnswerAppendOk(ids, h', reply)
  {
    var (s', reply) := HandleAppend(s, m);
    if CurrentEnough(s, m) {
      LogAfterAdopts(ids, h, s, m);
      HandleAppendIs(ids, s, m);
      AckRecordOk(ids, h, s, m, reply);
      FollowedLogOk(ids, h, s, m);
      FollowedNodeOk(variant, ids, h, s, m);
      AnsweredOk(ids, h, m, reply);
    } else {
      SameExtends(h, s.id);
    }
  }

  lemma AnsweredOk(ids: set<NodeId>, h: History, m: AppendRequest, reply: AppendReply)
    requires AskAppendOk(ids, h, m) && reply.from == m.to && reply.to == m.from && reply.term == m.term
    ensures AnswerAppendOk(ids, RecordAck(h, m, reply), reply)
  {
  }

  // ---------- Replies, applying and restarting ----------

  lemma AnswerAppendOkNode(variant: Variant, ids: set<NodeId>, h: History, s: NodeState, m: AppendReply)
    requires HistoryOk(ids, h) && NodeOk(variant, ids, h, s) && AnswerAppendOk(ids, h, m) && m.to == s.id
    ensures NodeOk(variant, ids, h, HandleAppendReply(s, m.from, m)) && HandleAppendReply(s, m.from, m).id == s.id
  {
    if m.term > s.currentTerm {
      StepDownOk(variant, ids, h, s, m.term);
    } else if s.role == Leader && m.term == s.currentTerm && m.success {
      SuccessOk(variant, ids, h, s, m);
      TryCommitOk(variant, ids, h, Matched(s, m));
    } else if s.role == Leader && m.term == s.currentTerm {
      RejectionOk(ids, h, s, m);
    }
  }

  function Matched(s: NodeState, m: AppendReply): NodeState {
    s.(matchIndex := s.matchIndex[m.from := m.matchIndex], nextIndex := s.nextIndex[m.from := m.matchIndex + 1])
  }

  lemma SuccessOk(variant: Variant, ids: set<NodeId>, h: History, s: NodeState, m: AppendReply)
    requires NodeOk(variant, ids, h, s) && AnswerAppendOk(ids, h, m)
    requires s.role == Leader && m.term == s.currentTerm && m.success
    ensures NodeOk(variant, ids, h, Matched(s, m))
  {
    var n := Matched(s, m);
    assert m.from in s.peers;
    assert n.matchIndex.Keys == s.peers;
    assert LeaderOk(ids, h, n);
    assert LogOk(ids, h, n);
  }

  lemma RejectionOk(ids: set<NodeId>, h: History, s: NodeState, m: AppendReply)
    requires LeaderOk(ids, h, s) && LogOk(ids, h, s) && AtRest(ids, s)
    requires s.role == Leader && m.term == s.currentTerm && !m.success
    ensures LeaderOk(ids, h, HandleAppendReply(s, m.from, m)) && LogOk(ids, h, HandleAppendReply(s, m.from, m))
    ensures AtRest(ids, HandleAppendReply(s, m.from, m))
  {
  }

  lemma ApplyOkNode(variant: Variant, ids: set<NodeId>, h: History, s: NodeState)
    requires NodeOk(variant, ids, h, s)
    ensures NodeOk(variant, ids, h, ApplyNext(s)) && ApplyNext(s).id == s.id
  {
  }

  /** A restart is never refused, and brings back the term, the vote and the log. */
  lemma RestartOk(variant: Variant, ids: set<NodeId>, h: History, s: NodeState, recovered: nat)
    requires NodeOk(variant, ids, h, s) && recovered <= s.appliedIndex
    ensures Recover(s.id, s.peers, s.disk, recovered).Some?
    ensures var n := Recover(s.id, s.peers, s.disk, recovered).value;
            && n.currentTerm == s.currentTerm && n.votedFor == s.votedFor && n.log == s.log
            && NodeOk(variant, ids, h, n)
  {
    var n := Recover(s.id, s.peers, s.disk, recovered).value;
    CommitOkDown(ids, h, s.log, recovered, s.commitIndex, s.currentTerm);
    assert LogOk(ids, h, n);
  }
}
