/**
 Each record of a step keeps the history well formed: standing for election, casting a ballot, counting one, winning,
 proposing as leader and acknowledging a prefix. Each lemma speaks of one kind of record and of the node that makes it.
 */
module ClusterHistory {
  import opened Quorums
  import opened RaftSpec
  import opened Cluster
  import opened ClusterInvariant
  import opened ClusterGrowth

  ghost predicate Extends(h: History, h': History, actor: NodeId) {
    Grows(h, h') && OnlyBy(h, h', actor)
  }

  // ---------- What a record must meet, part by part ----------

  ghost predicate NewBallotsOk(ids: set<NodeId>, h: History, h': History) {
    forall term, node :: (term, node) in h'.ballots && (term, node) !in h.ballots ==> BallotOk(ids, h', term, node)
  }

  ghost predicate NewStandsOk(ids: set<NodeId>, h: History, h': History) {
    forall term, node :: (term, node) in h'.stands && (term, node) !in h.stands ==> StandOk(ids, h', term, node)
  }

  ghost predicate NewReignsOk(ids: set<NodeId>, h: History, h': History) {
    forall term :: term in h'.reigns && !(term in h.reigns && h'.reigns[term] == h.reigns[term])
                   ==> ReignOk(ids, h', term)
  }

  predicate SameAck(h: History, h': History, term: nat, node: NodeId) {
    (term, node) in h'.acked ==> (term, node) in h.acked && h'.acked[(term, node)] == h.acked[(term, node)]
  }

  /** New acknowledgements are in range, come from nodes that have not voted in a later term, and the winner of
      a term acknowledges only by growing its own log. */
  ghost predicate NewAcksOk(ids: set<NodeId>, h: History, h': History) {
    forall term, node :: (term, node) in h'.acked && !SameAck(h, h', term, node) ==>
      && AckOk(ids, h', term, node)
      && (forall later :: (later, node) in h.ballots ==> later <= term)
      && (term in h.reigns && h'.reigns[term] == h.reigns[term] ==> h.reigns[term].leader != node)
  }

  lemma StandOkGrows(ids: set<NodeId>, h: History, h': History, term: nat, node: NodeId)
    requires Grows(h, h') && HistoryOk(ids, h) && (term, node) in h.stands
    ensures StandOk(ids, h', term, node)
  {
    assert StandOk(ids, h, term, node);
    RootedGrows(h, h', h.stands[(term, node)]);
  }

  lemma BallotOkGrows(ids: set<NodeId>, h: History, h': History, term: nat, voter: NodeId)
    requires Grows(h, h') && HistoryOk(ids, h) && (term, voter) in h.ballots
    requires forall t: nat :: t < term ==> SameAck(h, h', t, voter)
    ensures BallotOk(ids, h', term, voter)
  {
    assert BallotOk(ids, h, term, voter);
    var b := h.ballots[(term, voter)];
    RootedGrows(h, h', b.log);
    if term !in h.reigns || voter in h.reigns[term].voters {
      forall t | t <= term - 1 && (t, voter) in h'.acked
        ensures (t, voter) in h.acked && h'.acked[(t, voter)] == h.acked[(t, voter)]
      {
        assert SameAck(h, h', t, voter);
      }
      FaithfulGrows(ids, h, h', voter, b.log, term - 1);
    } else {
      assert ReignGrows(h.reigns[term], h'.reigns[term]);
    }
  }

  lemma HistoryOkGrows(ids: set<NodeId>, h: History, h': History)
    requires HistoryOk(ids, h) && Grows(h, h')
    requires NewBallotsOk(ids, h, h') && NewStandsOk(ids, h, h') && NewReignsOk(ids, h, h') && NewAcksOk(ids, h, h')
    ensures HistoryOk(ids, h')
  {
    forall term, node | (term, node) in h'.ballots ensures BallotOk(ids, h', term, node) {
      if (term, node) in h.ballots {
        BallotOkGrows(ids, h, h', term, node);
      }
    }
    forall term, node | (term, node) in h'.stands ensures StandOk(ids, h', term, node) {
      if (term, node) in h.stands {
        StandOkGrows(ids, h, h', term, node);
      }
    }
    forall term | term in h'.reigns ensures ReignOk(ids, h', term) {
      if term in h.reigns && h'.reigns[term] == h.reigns[term] {
        assert ReignOk(ids, h, term);
        var leader := h.reigns[term].leader;
        assert SameAck(h, h', term, leader);
      }
    }
    forall term, node | (term, node) in h'.acked ensures AckOk(ids, h', term, node) {
      if SameAck(h, h', term, node) {
        assert AckOk(ids, h, term, node);
        assert ReignGrows(h.reigns[term], h'.reigns[term]);
      }
    }
  }

  // ---------- Standing and voting ----------

  /** A ballot cast now, by a node that has acknowledged nothing dated later, records a faithful log. */
  lemma NewBallotOk(ids: set<NodeId>, h: History, h': History, s: NodeState, term: nat, candidate: NodeId)
    requires HistoryOk(ids, h) && Dated(h, s) && LogOk(ids, h', s) && s.id in ids
    requires h'.acked == h.acked && h'.reigns == h.reigns
    requires s.currentTerm <= term && term >= 1
    requires (term, s.id) !in h.ballots
    requires (term, s.id) in h'.ballots && h'.ballots[(term, s.id)] == Ballot(candidate, s.log)
    requires (term, candidate) in h'.stands && LogUpToDate(h'.stands[(term, candidate)], s.log)
    ensures BallotOk(ids, h', term, s.id)
  {
    if term in h.reigns {
      assert ReignOk(ids, h, term);
    } else {
      var limit := term - 1;
      forall t: nat, i: nat | t <= limit && (t, s.id) in h'.acked && i <= h'.acked[(t, s.id)]
        ensures Kept(h', s.log, t, i, limit)
      {
        assert AckOk(ids, h, t, s.id);
        assert Kept(h', s.log, t, i, s.currentTerm);
        if !Agree(s.log, h'.reigns[t].log, i) {
          var u: nat :| Overrules(h', u, t, i) && u <= s.currentTerm;
          assert u != term;
        }
      }
    }
  }

  lemma StandingExtends(h: History, s: NodeState)
    requires (s.currentTerm, s.id) !in h.stands && (s.currentTerm, s.id) !in h.ballots
    ensures Extends(h, Standing(h, s), s.id)
  {
    var h' := Standing(h, s);
    forall term | term in h.reigns ensures ReignGrows(h.reigns[term], h'.reigns[term]) {}
  }

  lemma StandingOk(ids: set<NodeId>, h: History, before: NodeState, s: NodeState)
    requires HistoryOk(ids, h) && Dated(h, before) && LogOk(ids, h, before) && before.id in ids
    requires s.id == before.id && s.log == before.log && s.currentTerm == before.currentTerm + 1
    ensures HistoryOk(ids, Standing(h, s)) && Extends(h, Standing(h, s), s.id)
  {
    var h' := Standing(h, s);
    StandingExtends(h, s);
    LogOkGrows(ids, h, h', before);
    NewBallotOk(ids, h, h', before, s.currentTerm, s.id);
    HistoryOkGrows(ids, h, h');
  }

  lemma ReignsStay(h: History)
    ensures forall term :: term in h.reigns ==> ReignGrows(h.reigns[term], h.reigns[term])
  {}

  lemma CastExtends(h: History, s: NodeState, ask: VoteRequest)
    requires ask.to == s.id
    ensures Extends(h, RecordBallot(h, s, ask, true), s.id)
  {
    var h' := RecordBallot(h, s, ask, true);
    hide Agree;
    ReignsStay(h);
  }

  lemma CastOk(ids: set<NodeId>, h: History, s: NodeState, ask: VoteRequest)
    requires HistoryOk(ids, h) && Dated(h, s) && LogOk(ids, h, s) && s.id in ids && ask.to == s.id
    requires AskVoteOk(ids, h, ask) && ask.term >= s.currentTerm
    requires LogUpToDate(h.stands[(ask.term, ask.from)], s.log)
    ensures HistoryOk(ids, RecordBallot(h, s, ask, true)) && Extends(h, RecordBallot(h, s, ask, true), s.id)
  {
    var h' := RecordBallot(h, s, ask, true);
    CastExtends(h, s, ask);
    if (ask.term, ask.to) !in h.ballots {
      LogOkGrows(ids, h, h', s);
      assert StandOk(ids, h, ask.term, ask.from);
      NewBallotOk(ids, h, h', s, ask.term, ask.candidateId);
    }
    HistoryOkGrows(ids, h, h');
  }

  lemma SameExtends(h: History, actor: NodeId)
    ensures Extends(h, h, actor)
  {
    forall term | term in h.reigns ensures ReignGrows(h.reigns[term], h.reigns[term]) {}
  }

  // ---------- Counting and winning ----------

  lemma CountingOk(ids: set<NodeId>, h: History, s: NodeState, voter: NodeId)
    requires HistoryOk(ids, h)
    ensures HistoryOk(ids, Counting(h, s, voter)) && Extends(h, Counting(h, s, voter), s.id)
  {
    var h' := Counting(h, s, voter);
    forall term | term in h.reigns ensures ReignGrows(h.reigns[term], h'.reigns[term]) {}
    HistoryOkGrows(ids, h, h');
  }

  /** Whether all the votes counted for a node in a term were cast for it. */
  ghost predicate TallyHonest(h: History, term: nat, node: NodeId) {
    forall v :: v in Tally(h, term, node) ==> (term, v) in h.ballots && h.ballots[(term, v)].candidate == node
  }

  /** Two winners of one term share a voter, so they are one node. */
  lemma OneWinner(ids: set<NodeId>, h: History, term: nat, node: NodeId)
    requires HistoryOk(ids, h) && term in h.reigns
    requires IsMajority(ids, Tally(h, term, node)) && TallyHonest(h, term, node)
    ensures h.reigns[term].leader == node
  {
    assert ReignOk(ids, h, term);
    var v := MajoritiesMeet(ids, h.reigns[term].voters, Tally(h, term, node));
  }

  lemma WonExtends(ids: set<NodeId>, h: History, s: NodeState)
    requires HistoryOk(ids, h) && s.currentTerm !in h.reigns
    ensures Extends(h, Won(h, s), s.id)
  {
    var h' := Won(h, s);
    assert (s.currentTerm, s.id) in h.acked ==> AckOk(ids, h, s.currentTerm, s.id);
    forall term | term in h.reigns ensures term in h'.reigns && ReignGrows(h.reigns[term], h'.reigns[term]) {}
  }

  lemma WonOk(ids: set<NodeId>, h: History, s: NodeState)
    requires HistoryOk(ids, h) && Dated(h, s) && s.id in ids && s.role == Leader
    requires (s.currentTerm, s.id) in h.stands && h.stands[(s.currentTerm, s.id)] == s.log
    requires s.currentTerm !in h.reigns
    requires IsMajority(ids, Tally(h, s.currentTerm, s.id)) && TallyHonest(h, s.currentTerm, s.id)
    ensures HistoryOk(ids, Won(h, s)) && Extends(h, Won(h, s), s.id)
  {
    var h' := Won(h, s);
    WonExtends(ids, h, s);
    assert StandOk(ids, h, s.currentTerm, s.id);
    assert NewReignsOk(ids, h, h');
    HistoryOkGrows(ids, h, h');
  }

  // ---------- Proposing and acknowledging ----------

  ghost predicate OneMore(before: NodeState, s: NodeState) {
    && s.id == before.id && s.currentTerm == before.currentTerm
    && |s.log| == |before.log| + 1 && Agree(before.log, s.log, |before.log|)
    && s.log[|before.log|].term == s.currentTerm && s.log[|before.log|].index == |s.log|
  }

  lemma ProposeExtends(ids: set<NodeId>, h: History, before: NodeState, s: NodeState)
    requires HistoryOk(ids, h) && LeaderOk(ids, h, before) && OneMore(before, s)
    ensures Extends(h, RecordPropose(h, s), s.id)
  {
    var h' := RecordPropose(h, s);
    assert ReignOk(ids, h, s.currentTerm);
    forall term | term in h.reigns ensures term in h'.reigns && ReignGrows(h.reigns[term], h'.reigns[term]) {}
  }

  lemma ProposeReignOk(ids: set<NodeId>, h: History, before: NodeState, s: NodeState)
    requires HistoryOk(ids, h) && LeaderOk(ids, h, before) && OneMore(before, s)
    ensures ReignOk(ids, RecordPropose(h, s), s.currentTerm)
  {
    assert ReignOk(ids, h, s.currentTerm);
    var r := h.reigns[s.currentTerm];
    AgreeTransitive(r.start, r.log, s.log, |r.start|);
    forall k | 0 <= k < |s.log|
      ensures s.log[k].index == k + 1 && (k >= |r.start| ==> s.log[k].term == s.currentTerm)
    {
      if k < |before.log| { assert s.log[..|before.log|][k] == before.log[..|before.log|][k] == r.log[k]; }
    }
  }

  lemma ProposeOk(ids: set<NodeId>, h: History, before: NodeState, s: NodeState)
    requires HistoryOk(ids, h) && Dated(h, before) && LeaderOk(ids, h, before) && OneMore(before, s)
    ensures HistoryOk(ids, RecordPropose(h, s)) && Extends(h, RecordPropose(h, s), s.id)
  {
    var h' := RecordPropose(h, s);
    ProposeExtends(ids, h, before, s);
    ProposeReignOk(ids, h, before, s);
    assert ReignOk(ids, h, s.currentTerm);
    assert NewAcksOk(ids, h, h');
    HistoryOkGrows(ids, h, h');
  }

  lemma AckExtends(h: History, m: AppendRequest, reply: AppendReply)
    ensures Extends(h, RecordAck(h, m, reply), m.to)
  {
    var h' := RecordAck(h, m, reply);
    forall term | term in h.reigns ensures term in h'.reigns && ReignGrows(h.reigns[term], h'.reigns[term]) {}
  }

  lemma AckRecordOk(ids: set<NodeId>, h: History, s: NodeState, m: AppendRequest, reply: AppendReply)
    requires HistoryOk(ids, h) && Dated(h, s) && s.id == m.to && s.id in ids
    requires AskAppendOk(ids, h, m) && s.currentTerm <= m.term
    requires reply.success ==> reply.matchIndex == m.prevLogIndex + |m.entries|
    ensures HistoryOk(ids, RecordAck(h, m, reply)) && Extends(h, RecordAck(h, m, reply), s.id)
  {
    var h' := RecordAck(h, m, reply);
    AckExtends(h, m, reply);
    forall term, node | (term, node) in h'.acked && !SameAck(h, h', term, node)
      ensures AckOk(ids, h', term, node) && (forall later :: (later, node) in h.ballots ==> later <= term)
      ensures h.reigns[term].leader != node
    {
      assert term == m.term && node == m.to;
    }
    HistoryOkGrows(ids, h, h');
  }
}
