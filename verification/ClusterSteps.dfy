/**
 Each handler keeps the acting node well, whatever the history. A handler is taken apart as the source does it, into
 stepping down, standing, granting, counting, winning, proposing, committing and sending; each part keeps what the
 invariant says of one node, given that the history records the part.
 */
module ClusterSteps {
  import opened Quorums
  import opened RaftSpec
  import opened NodeLaws
  import opened Cluster
  import opened ClusterInvariant
  import opened ClusterGrowth
  import opened ClusterHistory
  import opened ClusterCompleteness

  // ---------- Terms and logs ----------

  lemma LastTermIs(s: NodeState)
    requires s.snapshotIndex == 0
    ensures LastLogTerm(s) == TermAt(s.log, |s.log|)
  {
  }

  /** A log stays well when its node moves to a later term. */
  lemma LaterTermOk(ids: set<NodeId>, h: History, s: NodeState, s': NodeState)
    requires HistoryOk(ids, h) && Dated(h, s) && LogOk(ids, h, s)
    requires s'.id == s.id && s'.log == s.log && s'.commitIndex == s.commitIndex && s.currentTerm <= s'.currentTerm
    ensures LogOk(ids, h, s')
  {
    forall t: nat, i: nat | t <= s'.currentTerm && (t, s.id) in h.acked && i <= h.acked[(t, s.id)]
      ensures Kept(h, s'.log, t, i, s'.currentTerm)
    {
      assert AckOk(ids, h, t, s.id);
      assert Kept(h, s.log, t, i, s.currentTerm);
      SameExtends(h, s.id);
      KeptGrows(h, h, s.log, t, i, s.currentTerm, s'.currentTerm);
    }
    SameExtends(h, s.id);
    CommitOkGrows(ids, h, h, s.log, s.commitIndex, s.currentTerm, s'.currentTerm);
  }

  lemma StepDownOk(variant: Variant, ids: set<NodeId>, h: History, s: NodeState, term: nat)
    requires HistoryOk(ids, h) && NodeOk(variant, ids, h, s) && term > s.currentTerm
    ensures NodeOk(variant, ids, h, StepDown(s, term)) && StepDown(s, term).id == s.id
  {
    LaterTermOk(ids, h, s, StepDown(s, term));
  }

  // ---------- Winning ----------

  lemma WinOk(variant: Variant, ids: set<NodeId>, h: History, s: NodeState)
    requires HistoryOk(ids, h) && NodeOk(variant, ids, h, s) && s.role == Candidate
    requires s.votes >= MajoritySize(|s.peers| + 1)
    ensures var s' := BecomeLeader(s); var h' := Won(h, s');
            HistoryOk(ids, h') && Extends(h, h', s.id) && NodeOk(variant, ids, h', s')
  {
    var s' := BecomeLeader(s);
    TallyIsMajority(ids, h, s);
    TermIsOpen(ids, h, s);
    WonOk(ids, h, s');
    WinnerLogOk(ids, h, s');
    WinnerNodeOk(variant, ids, h, s);
  }

  lemma TermIsOpen(ids: set<NodeId>, h: History, s: NodeState)
    requires HistoryOk(ids, h) && CandidateOk(ids, h, s)
    requires IsMajority(ids, Tally(h, s.currentTerm, s.id)) && TallyHonest(h, s.currentTerm, s.id)
    ensures s.currentTerm !in h.reigns
  {
    if s.currentTerm in h.reigns {
      OneWinner(ids, h, s.currentTerm, s.id);
    }
  }

  lemma WinnerNodeOk(variant: Variant, ids: set<NodeId>, h: History, s: NodeState)
    requires AtRest(ids, s) && Dated(h, s) && (variant.voteKept ==> VoteRemembered(h, s))
    requires LogOk(ids, Won(h, BecomeLeader(s)), BecomeLeader(s))
    ensures NodeOk(variant, ids, Won(h, BecomeLeader(s)), BecomeLeader(s))
  {
    var s' := BecomeLeader(s);
    assert s'.matchIndex.Keys == s.peers;
    forall p | p in s.peers ensures Lookup(s'.nextIndex, p) >= 1 && s'.matchIndex[p] == 0 {}
  }

  lemma TallyIsMajority(ids: set<NodeId>, h: History, s: NodeState)
    requires HistoryOk(ids, h) && AtRest(ids, s) && CandidateOk(ids, h, s)
    requires s.votes >= MajoritySize(|s.peers| + 1)
    ensures IsMajority(ids, Tally(h, s.currentTerm, s.id)) && TallyHonest(h, s.currentTerm, s.id)
  {
    var q := Tally(h, s.currentTerm, s.id);
    forall v | v in q ensures v in ids {
      assert BallotOk(ids, h, s.currentTerm, v);
    }
    SubsetSize({s.id}, ids);
  }

  lemma WinnerLogOk(ids: set<NodeId>, h: History, s: NodeState)
    requires HistoryOk(ids, h) && s.role == Leader && s.currentTerm !in h.reigns
    requires Dated(h, s) && LogOk(ids, h, s) && Extends(h, Won(h, s), s.id)
    ensures LogOk(ids, Won(h, s), s)
  {
    var h' := Won(h, s);
    RootedGrows(h, h', s.log);
    CommitOkGrows(ids, h, h', s.log, s.commitIndex, s.currentTerm, s.currentTerm);
    forall t: nat, i: nat | t <= s.currentTerm && (t, s.id) in h'.acked && i <= h'.acked[(t, s.id)]
      ensures Kept(h', s.log, t, i, s.currentTerm)
    {
      if t == s.currentTerm {
        AgreeDown(s.log, s.log, i, |s.log|);
      } else {
        assert AckOk(ids, h, t, s.id);
        assert Kept(h, s.log, t, i, s.currentTerm);
        KeptGrows(h, h', s.log, t, i, s.currentTerm, s.currentTerm);
      }
    }
  }

  lemma WinIfElectedOk(variant: Variant, ids: set<NodeId>, h: History, s: NodeState)
    requires HistoryOk(ids, h) && NodeOk(variant, ids, h, s) && s.role == Candidate
    ensures var s' := WinIfElected(s); var h' := Won(h, s');
            HistoryOk(ids, h') && Extends(h, h', s.id) && NodeOk(variant, ids, h', s')
  {
    hide HistoryOk, NodeOk, Extends, BecomeLeader;
    if s.votes >= MajoritySize(|s.peers| + 1) {
      WinOk(variant, ids, h, s);
    } else {
      SameExtends(h, s.id);
    }
  }

  lemma ExtendsTwice(a: History, b: History, c: History, actor: NodeId)
    requires Extends(a, b, actor) && Extends(b, c, actor)
    ensures Extends(a, c, actor)
  {
    GrowsTransitive(a, b, c);
  }

  // ---------- Elections ----------

  lemma StandOkNode(variant: Variant, ids: set<NodeId>, h: History, s: NodeState)
    requires HistoryOk(ids, h) && NodeOk(variant, ids, h, s)
    ensures var m := StandForElection(s); var h' := Standing(h, m);
            HistoryOk(ids, h') && Extends(h, h', s.id) && NodeOk(variant, ids, h', m)
  {
    var m := StandForElection(s);
    var h' := Standing(h, m);
    StandingOk(ids, h, s, m);
    LaterTermOk(ids, h, s, m);
    LogOkGrows(ids, h, h', m);
    assert m.currentTerm in h.reigns ==> ReignOk(ids, h, m.currentTerm);
    CandidateNodeOk(variant, ids, h, s);
  }

  lemma CandidateNodeOk(variant: Variant, ids: set<NodeId>, h: History, s: NodeState)
    requires AtRest(ids, s) && Dated(h, s) && LogOk(ids, Standing(h, StandForElection(s)), StandForElection(s))
    requires s.currentTerm + 1 in h.reigns ==> (s.currentTerm + 1, h.reigns[s.currentTerm + 1].leader) in h.stands
    ensures NodeOk(variant, ids, Standing(h, StandForElection(s)), StandForElection(s))
  {
    var m := StandForElection(s);
    var h' := Standing(h, m);
    assert Dated(h', m);
    assert TallyOk(h', m);
  }

  lemma TimeoutOk(variant: Variant, ids: set<NodeId>, h: History, s: NodeState)
    requires HistoryOk(ids, h) && NodeOk(variant, ids, h, s)
    ensures var s' := StartElection(s); var h' := RecordStand(h, s');
            HistoryOk(ids, h') && Extends(h, h', s.id) && NodeOk(variant, ids, h', s')
  {
    var m := StandForElection(s);
    StandOkNode(variant, ids, h, s);
    WinIfElectedOk(variant, ids, Standing(h, m), m);
    ExtendsTwice(h, Standing(h, m), Won(Standing(h, m), WinIfElected(m)), s.id);
  }

  lemma AnswerVoteOkNode(variant: Variant, ids: set<NodeId>, h: History, s: NodeState, m: VoteReply)
    requires HistoryOk(ids, h) && NodeOk(variant, ids, h, s) && AnswerVoteOk(ids, h, m) && m.to == s.id
    requires m.granted ==> m.from !in Tally(h, m.term, m.to)
    ensures var s' := HandleVoteReply(s, m); var h' := RecordCount(h, s, s', m);
            HistoryOk(ids, h') && Extends(h, h', s.id) && NodeOk(variant, ids, h', s')
  {
    if m.term > s.currentTerm {
      StepDownOk(variant, ids, h, s, m.term);
      SameExtends(h, s.id);
    } else if CountsVote(s, m) {
      var counted := s.(votes := s.votes + 1);
      var h1 := Counting(h, s, m.from);
      CountingOk(ids, h, s, m.from);
      LogOkGrows(ids, h, h1, counted);
      CountedNodeOk(variant, ids, h, s, m);
      WinIfElectedOk(variant, ids, h1, counted);
      ExtendsTwice(h, h1, Won(h1, WinIfElected(counted)), s.id);
    } else {
      SameExtends(h, s.id);
    }
  }

  lemma CountedNodeOk(variant: Variant, ids: set<NodeId>, h: History, s: NodeState, m: VoteReply)
    requires NodeOk(variant, ids, h, s) && AnswerVoteOk(ids, h, m) && m.to == s.id && CountsVote(s, m)
    requires m.from !in Tally(h, m.term, m.to)
    requires LogOk(ids, Counting(h, s, m.from), s.(votes := s.votes + 1))
    ensures NodeOk(variant, ids, Counting(h, s, m.from), s.(votes := s.votes + 1))
  {
    var h1 := Counting(h, s, m.from);
    assert Dated(h1, s);
    assert TallyOk(h1, s.(votes := s.votes + 1));
  }

  lemma GrantOk(variant: Variant, ids: set<NodeId>, h: History, s: NodeState, m: VoteRequest)
    requires NO_ONE !in ids
    requires HistoryOk(ids, h) && NodeOk(variant, ids, h, s) && AskVoteOk(ids, h, m) && m.to == s.id
    requires GrantsVote(s, m)
    requires variant.voteKept || (m.term, m.to) !in h.ballots
             || h.ballots[(m.term, m.to)].candidate == m.candidateId
    ensures var s' := HandleVoteRequest(s, m).0; var h' := RecordBallot(h, s, m, true);
            HistoryOk(ids, h') && Extends(h, h', s.id) && NodeOk(variant, ids, h', s')
    ensures HandleVoteRequest(s, m).1 == VoteReply(m.to, m.from, m.term, true)
    ensures AnswerVoteOk(ids, RecordBallot(h, s, m, true), HandleVoteRequest(s, m).1)
  {
    LastTermIs(s);
    CastOk(ids, h, s, m);
    GrantedLogOk(ids, h, s, m);
    BallotStands(variant, ids, h, s, m);
    GrantedNodeOk(variant, ids, h, s, m);
  }

  lemma GrantedLogOk(ids: set<NodeId>, h: History, s: NodeState, m: VoteRequest)
    requires HistoryOk(ids, h) && Dated(h, s) && LogOk(ids, h, s) && m.to == s.id && GrantsVote(s, m)
    ensures LogOk(ids, RecordBallot(h, s, m, true), HandleVoteRequest(s, m).0)
  {
    var s' := HandleVoteRequest(s, m).0;
    CastExtends(h, s, m);
    LaterTermOk(ids, h, s, s');
    LogOkGrows(ids, h, RecordBallot(h, s, m, true), s');
  }

  /** A granted vote is the one recorded for the term. */
  lemma BallotStands(variant: Variant, ids: set<NodeId>, h: History, s: NodeState, m: VoteRequest)
    requires NO_ONE !in ids && HistoryOk(ids, h) && Dated(h, s) && m.to == s.id && GrantsVote(s, m)
    requires variant.voteKept ==> VoteRemembered(h, s)
    requires variant.voteKept || (m.term, m.to) !in h.ballots
             || h.ballots[(m.term, m.to)].candidate == m.candidateId
    ensures RecordBallot(h, s, m, true).ballots[(m.term, m.to)].candidate == m.candidateId
  {
    if (m.term, m.to) in h.ballots {
      assert BallotOk(ids, h, m.term, m.to);
      assert StandOk(ids, h, m.term, h.ballots[(m.term, m.to)].candidate);
    }
  }

  lemma GrantedIs(s: NodeState, m: VoteRequest)
    requires GrantsVote(s, m)
    ensures var (n, reply) := HandleVoteRequest(s, m);
            && n.id == s.id && n.peers == s.peers && n.removing == s.removing && n.log == s.log
            && n.snapshotIndex == s.snapshotIndex && n.snapshotTerm == s.snapshotTerm && n.unsaved == s.unsaved
            && n.commitIndex == s.commitIndex && n.appliedIndex == s.appliedIndex && n.matchIndex == s.matchIndex
            && n.currentTerm == m.term && n.votedFor == m.candidateId && n.role == Follower
            && reply == VoteReply(m.to, m.from, m.term, true)
  {}

  lemma GrantedAtRest(ids: set<NodeId>, s: NodeState, m: VoteRequest)
    requires AtRest(ids, s) && GrantsVote(s, m)
    ensures AtRest(ids, HandleVoteRequest(s, m).0)
  {
    GrantedIs(s, m);
  }

  lemma GrantedDated(ids: set<NodeId>, h: History, s: NodeState, m: VoteRequest, n: NodeState)
    requires Dated(h, s) && m.to == s.id && n.id == s.id && n.currentTerm == m.term && m.term >= s.currentTerm
    ensures Dated(RecordBallot(h, s, m, true), n)
  {}

  lemma GrantedNodeOk(variant: Variant, ids: set<NodeId>, h: History, s: NodeState, m: VoteRequest)
    requires AtRest(ids, s) && Dated(h, s) && m.to == s.id && GrantsVote(s, m) && AskVoteOk(ids, h, m)
    requires LogOk(ids, RecordBallot(h, s, m, true), HandleVoteRequest(s, m).0)
    requires RecordBallot(h, s, m, true).ballots[(m.term, m.to)].candidate == m.candidateId
    ensures NodeOk(variant, ids, RecordBallot(h, s, m, true), HandleVoteRequest(s, m).0)
    ensures HandleVoteRequest(s, m).1 == VoteReply(m.to, m.from, m.term, true)
  {
    GrantedIs(s, m);
    GrantedAtRest(ids, s, m);
    GrantedDated(ids, h, s, m, HandleVoteRequest(s, m).0);
    hide AtRest, Dated, LogOk, HandleVoteRequest, AskVoteOk;
  }

  lemma AskVoteOkNode(variant: Variant, ids: set<NodeId>, h: History, s: NodeState, m: VoteRequest)
    requires NO_ONE !in ids
    requires HistoryOk(ids, h) && NodeOk(variant, ids, h, s) && AskVoteOk(ids, h, m) && m.to == s.id
    requires variant.voteKept || !GrantsVote(s, m) || (m.term, m.to) !in h.ballots
             || h.ballots[(m.term, m.to)].candidate == m.candidateId
    ensures var (s', reply) := HandleVoteRequest(s, m); var h' := RecordBallot(h, s, m, reply.granted);
            && HistoryOk(ids, h') && Extends(h, h', s.id) && NodeOk(variant, ids, h', s')
            && AnswerVoteOk(ids, h', reply)
            && (reply.granted ==> reply == VoteReply(m.to, m.from, m.term, true))
  {
    if GrantsVote(s, m) {
      GrantOk(variant, ids, h, s, m);
    } else {
      SameExtends(h, s.id);
      if m.term > s.currentTerm { StepDownOk(variant, ids, h, s, m.term); }
    }
  }

  // ---------- Committing ----------

  lemma TryCommitOk(variant: Variant, ids: set<NodeId>, h: History, s: NodeState)
    requires HistoryOk(ids, h) && NodeOk(variant, ids, h, s) && s.role == Leader
    ensures NodeOk(variant, ids, h, TryCommit(s))
  {
    var c := TryCommit(s).commitIndex;
    CommitIs(ids, s);
    hide TryCommit, HistoryOk, Dated, LogOk, CandidateOk, OnMajority;
    if c > s.commitIndex {
      CommitIsOk(ids, h, s, c);
      CommittedNodeOk(variant, ids, h, s, c);
    }
  }

  /** How the commit index moves, if it does. */
  lemma CommitIs(ids: set<NodeId>, s: NodeState)
    requires AtRest(ids, s)
    ensures var c := TryCommit(s).commitIndex;
            && TryCommit(s) == s.(commitIndex := c)
            && (c != s.commitIndex ==> s.commitIndex < c <= |s.log| && OnMajority(s, c) && s.log[c - 1].term == s.currentTerm)
  {
    if s.commitIndex < LastLogIndex(s) {
      ReplicatedIsLast(s, s.commitIndex);
    }
  }

  lemma CommitIsOk(ids: set<NodeId>, h: History, s: NodeState, c: nat)
    requires HistoryOk(ids, h) && AtRest(ids, s) && LeaderOk(ids, h, s)
    requires 1 <= c <= |s.log| && OnMajority(s, c) && s.log[c - 1].term == s.currentTerm
    ensures CommitOk(ids, h, s.log, c, s.currentTerm)
  {
    HoldersAreAckers(ids, h, s, c);
    hide HistoryOk, AtRest, OnMajority, Ackers, IsMajority;
    assert CommitsAs(ids, h, s.log, c, s.currentTerm, c, s.currentTerm);
  }

  lemma CommittedNodeOk(variant: Variant, ids: set<NodeId>, h: History, s: NodeState, c: nat)
    requires NodeOk(variant, ids, h, s) && s.role == Leader && c >= s.commitIndex
    requires CommitOk(ids, h, s.log, c, s.currentTerm)
    ensures NodeOk(variant, ids, h, s.(commitIndex := c))
  {
    hide Rooted, TermsWithin, Indexed, Faithful, CommitOk, Tally;
  }

  lemma LeaderAcked(ids: set<NodeId>, h: History, s: NodeState)
    requires HistoryOk(ids, h) && LeaderOk(ids, h, s)
    ensures Acked(h, s.currentTerm, s.id) == |s.log|
  {
    assert ReignOk(ids, h, s.currentTerm);
  }

  lemma HoldersWithin(ids: set<NodeId>, h: History, s: NodeState, index: nat)
    requires AtRest(ids, s) && LeaderOk(ids, h, s) && Acked(h, s.currentTerm, s.id) == |s.log|
    requires 1 <= index <= |s.log|
    ensures Holders(s, index) + {s.id} <= Ackers(ids, h, s.currentTerm, index)
    ensures s.id !in Holders(s, index) && Counted(s) == s.peers
  {
    hide Agree;
    assert Counted(s) == s.peers;
  }

  lemma HoldersAreAckers(ids: set<NodeId>, h: History, s: NodeState, index: nat)
    requires HistoryOk(ids, h) && AtRest(ids, s) && LeaderOk(ids, h, s)
    requires 1 <= index <= |s.log| && OnMajority(s, index)
    ensures IsMajority(ids, Ackers(ids, h, s.currentTerm, index))
  {
    var holders := Holders(s, index);
    var ackers := Ackers(ids, h, s.currentTerm, index);
    LeaderAcked(ids, h, s);
    HoldersWithin(ids, h, s, index);
    hide HistoryOk, LeaderOk, Ackers, Holders, Counted;
    SubsetSize(holders + {s.id}, ackers);
    SubsetSize({s.id}, ids);
  }

  // ---------- Proposing and sending ----------

  lemma ProposedLogOk(ids: set<NodeId>, h: History, s: NodeState, p: NodeState)
    requires HistoryOk(ids, h) && Dated(h, s) && LogOk(ids, h, s) && LeaderOk(ids, h, s) && OneMore(s, p)
    requires p.commitIndex == s.commitIndex
    ensures LogOk(ids, RecordPropose(h, p), p)
  {
    var h' := RecordPropose(h, p);
    ProposeOk(ids, h, s, p);
    ReignTerms(ids, h', p.currentTerm);
    forall t: nat, i: nat | t <= p.currentTerm && (t, p.id) in h'.acked && i <= h'.acked[(t, p.id)]
      ensures Kept(h', p.log, t, i, p.currentTerm)
    {
      if t == p.currentTerm {
        AgreeDown(p.log, p.log, i, |p.log|);
      } else {
        assert AckOk(ids, h, t, s.id);
        assert Kept(h, s.log, t, i, s.currentTerm);
        KeptGrows(h, h', s.log, t, i, s.currentTerm, s.currentTerm);
        if Agree(s.log, h'.reigns[t].log, i) {
          AgreeFlip(s.log, h'.reigns[t].log, i);
          AgreeTransitive(h'.reigns[t].log, s.log, p.log, i);
          AgreeFlip(h'.reigns[t].log, p.log, i);
        }
      }
    }
    CommitOkGrows(ids, h, h', s.log, s.commitIndex, s.currentTerm, s.currentTerm);
    AgreeDown(s.log, p.log, s.commitIndex, |s.log|);
    CommitOkOnPrefix(ids, h', s.log, p.log, s.commitIndex, s.currentTerm);
  }

  /** The leader's state once its proposal is in memory and on disk. */
  function Proposed(s: NodeState, command: Command): NodeState {
    var entry := Entry(LastLogIndex(s) + 1, s.currentTerm, command);
    s.(log := s.log + [entry], disk := s.disk.(log := s.disk.log + [entry]))
  }

  lemma ProposeIsDurable(s: NodeState, command: Command)
    requires s.unsaved == []
    ensures PersistBatch(Propose(s, command)) == TryCommit(Proposed(s, command))
  {
    var entry := Entry(LastLogIndex(s) + 1, s.currentTerm, command);
    assert s.unsaved + [entry] == [entry];
  }

  lemma ProposedNodeOk(variant: Variant, ids: set<NodeId>, h: History, s: NodeState, p: NodeState)
    requires NodeOk(variant, ids, h, s) && s.role == Leader && AtRest(ids, p)
    requires p == s.(log := p.log, disk := p.disk)
    requires LogOk(ids, RecordPropose(h, p), p) && |p.log| >= Acked(h, s.currentTerm, s.id)
    ensures NodeOk(variant, ids, RecordPropose(h, p), p)
  {
    var h' := RecordPropose(h, p);
    forall q | q in p.matchIndex ensures p.matchIndex[q] <= Acked(h', p.currentTerm, q) {
      assert s.matchIndex[q] <= Acked(h, s.currentTerm, q);
    }
  }

  lemma ClientProposeOk(variant: Variant, ids: set<NodeId>, h: History, s: NodeState, command: Command)
    requires HistoryOk(ids, h) && NodeOk(variant, ids, h, s) && s.role == Leader
    ensures var s' := PersistBatch(Propose(s, command)); var h' := RecordPropose(h, s');
            HistoryOk(ids, h') && Extends(h, h', s.id) && NodeOk(variant, ids, h', s')
  {
    var p := Proposed(s, command);
    ProposeIsDurable(s, command);
    assert p.log[..|s.log|] == s.log == s.log[..|s.log|];
    assert ReignOk(ids, h, s.currentTerm);
    ProposeOk(ids, h, s, p);
    ProposedLogOk(ids, h, s, p);
    ProposedNodeOk(variant, ids, h, s, p);
    TryCommitOk(variant, ids, RecordPropose(h, p), p);
  }

  lemma SendAppendOk(variant: Variant, ids: set<NodeId>, h: History, s: NodeState, peer: NodeId)
    requires HistoryOk(ids, h) && NodeOk(variant, ids, h, s) && s.role == Leader && peer in s.peers
    ensures AskAppendOk(ids, h, BuildAppend(s, peer))
  {
    BuildAppendIs(s, peer);
  }

  /** A request is cut from the log after its previous index, and one with room left in its batch runs to the
      end of the log. */
  lemma BuildAppendIs(s: NodeState, peer: NodeId)
    requires s.snapshotIndex == 0 && Lookup(s.nextIndex, peer) >= 1
    ensures var m := BuildAppend(s, peer);
            && m.prevLogIndex + |m.entries| <= |s.log|
            && m.entries == s.log[m.prevLogIndex..m.prevLogIndex + |m.entries|]
            && m.prevLogTerm == TermAt(s.log, m.prevLogIndex)
            && (|m.entries| < MAX_BATCH ==> m.prevLogIndex + |m.entries| == |s.log|)
            && m.term == s.currentTerm && m.from == s.id && m.to == peer && m.leaderCommit == s.commitIndex
  {
  }
}
