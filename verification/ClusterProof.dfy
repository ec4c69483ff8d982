/**
 Every guarded step keeps the invariant and extends the history. For each kind of step, `ClusterSteps` or
 `ClusterFollow` gives the acting node, `ClusterHistory` the record, and `ClusterGrowth` everything that did not act;
 the step is put together from these, and the messages it sends are shown to say what the history says.
 */
module ClusterProof {
  import opened Quorums
  import opened RaftSpec
  import opened Cluster
  import opened ClusterInvariant
  import opened ClusterGrowth
  import opened ClusterHistory
  import opened ClusterCompleteness
  import opened ClusterSteps
  import opened ClusterFollow

  lemma InitialInv(c: State)
    requires Initial(c)
    ensures Inv(c)
  {
    forall n | n in c.nodes ensures c.nodes[n].id == n && NodeOk(c.variant, c.ids, c.history, c.nodes[n]) {
      FreshOk(c.variant, c.ids, n);
    }
  }

  lemma FreshOk(variant: Variant, ids: set<NodeId>, n: NodeId)
    requires n in ids
    ensures Fresh(n, ids).id == n && NodeOk(variant, ids, NO_HISTORY, Fresh(n, ids))
  {
    assert LogOk(ids, NO_HISTORY, Fresh(n, ids));
  }

  /** A step of one node keeps the invariant if the node, the new messages and the votes are well. */
  lemma Assemble(c: State, c': State, actor: NodeId, s: NodeState)
    requires Inv(c) && actor in c.ids && s.id == actor
    requires c'.variant == c.variant && c'.ids == c.ids && c'.nodes == c.nodes[actor := s]
    requires Extends(c.history, c'.history, actor) && HistoryOk(c.ids, c'.history)
    requires NodeOk(c.variant, c.ids, c'.history, s)
    requires forall m :: m in c'.net ==> m in c.net || MessageOk(c.ids, c'.history, m)
    requires VotesOnce(c'.history, c'.net)
    ensures Inv(c') && Grows(c.history, c'.history)
  {
    hide NodeOk, MessageOk, HistoryOk, VotesOnce;
    forall n | n in c'.nodes ensures c'.nodes[n].id == n && NodeOk(c'.variant, c'.ids, c'.history, c'.nodes[n]) {
      if n != actor {
        BystanderOk(c.variant, c.ids, c.history, c'.history, actor, c.nodes[n]);
      }
    }
    forall m | m in c'.net ensures MessageOk(c'.ids, c'.history, m) {
      if m in c.net { MessageOkGrows(c.ids, c.history, c'.history, m); }
    }
  }

  // ---------- Votes are in one place ----------

  lemma VotesOnceSame(h: History, h': History, net: set<Message>, net': set<Message>)
    requires VotesOnce(h, net) && h'.tally == h.tally
    requires forall m :: AskVote(m) in net' ==> AskVote(m) in net
    requires forall m :: AnswerVote(m) in net' && m.granted ==> AnswerVote(m) in net
    ensures VotesOnce(h', net')
  {
  }

  /** A term in which a node has not stood has no traffic of its votes. */
  lemma NoTraffic(c: State, term: nat, node: NodeId)
    requires Inv(c) && (term, node) !in c.history.stands
    ensures forall m :: AskVote(m) in c.net ==> !(m.term == term && m.from == node)
    ensures forall m :: AnswerVote(m) in c.net && m.granted ==> !(m.term == term && m.to == node)
  {
    forall m | AskVote(m) in c.net ensures !(m.term == term && m.from == node) {
      assert MessageOk(c.ids, c.history, AskVote(m));
    }
    forall m | AnswerVote(m) in c.net && m.granted ensures !(m.term == term && m.to == node) {
      assert MessageOk(c.ids, c.history, AnswerVote(m));
      assert BallotOk(c.ids, c.history, m.term, m.from);
    }
  }

  lemma StandVotesOnce(c: State, h': History, s: NodeState)
    requires Inv(c) && (s.currentTerm, s.id) !in c.history.stands && s.id !in s.peers
    requires h'.tally == c.history.tally[(s.currentTerm, s.id) := {s.id}]
    ensures VotesOnce(h', c.net + VoteRequests(s))
  {
    NoTraffic(c, s.currentTerm, s.id);
    var net' := c.net + VoteRequests(s);
    forall m | AskVote(m) in net'
      ensures AnswerVote(VoteReply(m.to, m.from, m.term, true)) !in net' && m.to !in Tally(h', m.term, m.from)
    {
      if AskVote(m) !in c.net {
        var p :| p in s.peers && AskVote(m) == AskVote(VoteRequestTo(s, p));
        var back := VoteReply(m.to, m.from, m.term, true);
        assert back.term == s.currentTerm && back.to == s.id && back.granted;
      }
    }
    forall m | AnswerVote(m) in net' && m.granted ensures m.from !in Tally(h', m.term, m.to) {
      assert AnswerVote(m) in c.net;
    }
  }

  lemma CastVotesOnce(c: State, h': History, ask: VoteRequest, reply: VoteReply)
    requires Inv(c) && AskVote(ask) in c.net && h'.tally == c.history.tally
    requires reply.granted ==> reply == VoteReply(ask.to, ask.from, ask.term, true)
    ensures VotesOnce(h', c.net - {AskVote(ask)} + {AnswerVote(reply)})
  {
    var net' := c.net - {AskVote(ask)} + {AnswerVote(reply)};
    assert MessageOk(c.ids, c.history, AskVote(ask));
    forall m | AskVote(m) in net'
      ensures AnswerVote(VoteReply(m.to, m.from, m.term, true)) !in net' && m.to !in Tally(h', m.term, m.from)
    {
      assert AskVote(m) in c.net;
      assert MessageOk(c.ids, c.history, AskVote(m));
      assert m != ask;
    }
  }

  lemma CountVotesOnce(c: State, h': History, answer: VoteReply)
    requires Inv(c) && AnswerVote(answer) in c.net && answer.granted
    requires h'.tally == c.history.tally[(answer.term, answer.to) :=
                                           Tally(c.history, answer.term, answer.to) + {answer.from}]
    ensures VotesOnce(h', c.net - {AnswerVote(answer)})
  {
    var net' := c.net - {AnswerVote(answer)};
    forall m | AskVote(m) in net'
      ensures AnswerVote(VoteReply(m.to, m.from, m.term, true)) !in net' && m.to !in Tally(h', m.term, m.from)
    {
      assert AnswerVote(VoteReply(m.to, m.from, m.term, true)) !in c.net;
      assert answer == VoteReply(answer.from, answer.to, answer.term, true);
    }
    forall m | AnswerVote(m) in net' && m.granted ensures m.from !in Tally(h', m.term, m.to) {
      assert m != answer;
    }
  }

  // ---------- The steps ----------

  lemma TimeoutStep(c: State, n: NodeId)
    requires Inv(c) && Enabled(c, Timeout(n))
    ensures Inv(Next(c, Timeout(n))) && Grows(c.history, Next(c, Timeout(n)).history)
  {
    var s := StartElection(c.nodes[n]);
    var c' := Next(c, Timeout(n));
    TimeoutOk(c.variant, c.ids, c.history, c.nodes[n]);
    StandVotesOnce(c, c'.history, s);
    forall m | m in c'.net ensures m in c.net || MessageOk(c.ids, c'.history, m) {
      if m !in c.net {
        var p :| p in s.peers && m == AskVote(VoteRequestTo(s, p));
        StandRequestOk(c.ids, c.history, c.nodes[n], p);
      }
    }
    Assemble(c, c', n, s);
  }

  lemma StandRequestOk(ids: set<NodeId>, h: History, s: NodeState, p: NodeId)
    requires AtRest(ids, s) && p in s.peers
    ensures var s' := StartElection(s); AskVoteOk(ids, RecordStand(h, s'), VoteRequestTo(s', p))
  {
    LastTermIs(StartElection(s));
  }

  /** The parts of a step of one node that answers with at most one message. */
  ghost predicate GoodPart(c: State, h': History, s: NodeState, actor: NodeId) {
    && actor in c.ids && s.id == actor
    && Extends(c.history, h', actor) && HistoryOk(c.ids, h') && NodeOk(c.variant, c.ids, h', s)
  }

  lemma AssembleQuiet(c: State, c': State, h': History, s: NodeState, actor: NodeId)
    requires Inv(c) && GoodPart(c, h', s, actor)
    requires c'.variant == c.variant && c'.ids == c.ids && c'.nodes == c.nodes[actor := s] && c'.history == h'
    requires c'.net <= c.net
    requires VotesOnce(h', c'.net)
    ensures Inv(c') && Grows(c.history, c'.history)
  {
    Assemble(c, c', actor, s);
  }

  lemma AssembleSending(c: State, c': State, h': History, s: NodeState, actor: NodeId, m: Message)
    requires Inv(c) && GoodPart(c, h', s, actor)
    requires c'.variant == c.variant && c'.ids == c.ids && c'.nodes == c.nodes[actor := s] && c'.history == h'
    requires forall x :: x in c'.net ==> x in c.net || x == m
    requires MessageOk(c.ids, h', m) && VotesOnce(h', c'.net)
    ensures Inv(c') && Grows(c.history, c'.history)
  {
    Assemble(c, c', actor, s);
  }

  /** A node by itself, in a well-formed history. */
  ghost predicate Well(c: State, n: NodeId) {
    && NO_ONE !in c.ids && n in c.ids && n in c.nodes && c.nodes[n].id == n
    && HistoryOk(c.ids, c.history) && NodeOk(c.variant, c.ids, c.history, c.nodes[n])
  }

  lemma AskVotePart(c: State, ask: VoteRequest)
    requires Well(c, ask.to) && AskVoteOk(c.ids, c.history, ask) && (c.variant.voteKept || NoSecondVote(c, ask))
    ensures var (s, reply) := HandleVoteRequest(c.nodes[ask.to], ask);
            var h' := RecordBallot(c.history, c.nodes[ask.to], ask, reply.granted);
            && GoodPart(c, h', s, ask.to) && AnswerVoteOk(c.ids, h', reply)
            && (reply.granted ==> reply == VoteReply(ask.to, ask.from, ask.term, true))
  {
    var n := c.nodes[ask.to];
    AskVoteOkNode(c.variant, c.ids, c.history, n, ask);
    VoteHandlerKeepsId(n, ask);
  }

  lemma VoteHandlerKeepsId(s: NodeState, ask: VoteRequest)
    ensures HandleVoteRequest(s, ask).0.id == s.id
  {
  }

  lemma AskVoteFacts(c: State, ask: VoteRequest)
    requires Inv(c) && Enabled(c, DeliverAskVote(ask)) && (c.variant.voteKept || NoSecondVote(c, ask))
    ensures var (s, reply) := HandleVoteRequest(c.nodes[ask.to], ask);
            var h' := RecordBallot(c.history, c.nodes[ask.to], ask, reply.granted);
            && GoodPart(c, h', s, ask.to) && AnswerVoteOk(c.ids, h', reply)
  {
    assert MessageOk(c.ids, c.history, AskVote(ask));
    AskVotePart(c, ask);
  }

  lemma AskVotesOnce(c: State, ask: VoteRequest)
    requires Inv(c) && AskVote(ask) in c.net && ask.to in c.nodes
    ensures var reply := HandleVoteRequest(c.nodes[ask.to], ask).1;
            VotesOnce(RecordBallot(c.history, c.nodes[ask.to], ask, reply.granted),
                      c.net - {AskVote(ask)} + {AnswerVote(reply)})
  {
    var reply := HandleVoteRequest(c.nodes[ask.to], ask).1;
    CastVotesOnce(c, RecordBallot(c.history, c.nodes[ask.to], ask, reply.granted), ask, reply);
  }

  lemma AskVoteNext(c: State, ask: VoteRequest)
    requires Enabled(c, DeliverAskVote(ask))
    ensures var (s, reply) := HandleVoteRequest(c.nodes[ask.to], ask);
            var c' := Next(c, DeliverAskVote(ask));
            && c'.variant == c.variant && c'.ids == c.ids && c'.nodes == c.nodes[ask.to := s]
            && c'.history == RecordBallot(c.history, c.nodes[ask.to], ask, reply.granted)
            && c'.net == c.net - {AskVote(ask)} + {AnswerVote(reply)}
            && (forall x :: x in c'.net ==> x in c.net || x == AnswerVote(reply))
    ensures AskVote(ask) in c.net
  {
    hide HandleVoteRequest;
  }

  lemma AskVoteGood(c: State, ask: VoteRequest)
    requires Inv(c) && Enabled(c, DeliverAskVote(ask)) && Guarded(c, DeliverAskVote(ask))
    ensures var (s, reply) := HandleVoteRequest(c.nodes[ask.to], ask);
            var h' := RecordBallot(c.history, c.nodes[ask.to], ask, reply.granted);
            && GoodPart(c, h', s, ask.to) && MessageOk(c.ids, h', AnswerVote(reply))
  {
    AskVoteFacts(c, ask);
    hide *;
    var (s, reply) := HandleVoteRequest(c.nodes[ask.to], ask);
    VoteAnswerIsOk(c.ids, RecordBallot(c.history, c.nodes[ask.to], ask, reply.granted), reply);
  }

  lemma AskVoteMessages(c: State, ask: VoteRequest)
    requires Inv(c) && Enabled(c, DeliverAskVote(ask))
    ensures VotesOnce(Next(c, DeliverAskVote(ask)).history, Next(c, DeliverAskVote(ask)).net)
  {
    assert ask.to in c.nodes;
    hide *;
    AskVoteNext(c, ask);
    AskVotesOnce(c, ask);
  }

  lemma AskVoteStep(c: State, ask: VoteRequest)
    requires Inv(c) && Enabled(c, DeliverAskVote(ask)) && Guarded(c, DeliverAskVote(ask))
    ensures Inv(Next(c, DeliverAskVote(ask))) && Grows(c.history, Next(c, DeliverAskVote(ask)).history)
  {
    assert ask.to in c.nodes;
    hide *;
    AskVoteGood(c, ask);
    AskVoteMessages(c, ask);
    AskVoteNext(c, ask);
    var (s, reply) := HandleVoteRequest(c.nodes[ask.to], ask);
    var h' := RecordBallot(c.history, c.nodes[ask.to], ask, reply.granted);
    AssembleSending(c, Next(c, DeliverAskVote(ask)), h', s, ask.to, AnswerVote(reply));
  }

  lemma VoteAnswerIsOk(ids: set<NodeId>, h: History, reply: VoteReply)
    requires AnswerVoteOk(ids, h, reply)
    ensures MessageOk(ids, h, AnswerVote(reply))
  {}

  lemma AnswerVotePart(c: State, answer: VoteReply)
    requires Well(c, answer.to) && AnswerVoteOk(c.ids, c.history, answer)
    requires answer.granted ==> answer.from !in Tally(c.history, answer.term, answer.to)
    ensures var s := HandleVoteReply(c.nodes[answer.to], answer);
            GoodPart(c, RecordCount(c.history, c.nodes[answer.to], s, answer), s, answer.to)
  {
    AnswerVoteOkNode(c.variant, c.ids, c.history, c.nodes[answer.to], answer);
  }

  lemma AnswerVotesOnce(c: State, answer: VoteReply)
    requires Inv(c) && AnswerVote(answer) in c.net && answer.to in c.nodes
    ensures var before := c.nodes[answer.to];
            VotesOnce(RecordCount(c.history, before, HandleVoteReply(before, answer), answer),
                      c.net - {AnswerVote(answer)})
  {
    var before := c.nodes[answer.to];
    var h' := RecordCount(c.history, before, HandleVoteReply(before, answer), answer);
    if CountsVote(before, answer) {
      CountVotesOnce(c, h', answer);
    } else {
      VotesOnceSame(c.history, h', c.net, c.net - {AnswerVote(answer)});
    }
  }

  lemma AnswerVoteStep(c: State, answer: VoteReply)
    requires Inv(c) && Enabled(c, DeliverAnswerVote(answer))
    ensures Inv(Next(c, DeliverAnswerVote(answer))) && Grows(c.history, Next(c, DeliverAnswerVote(answer)).history)
  {
    assert MessageOk(c.ids, c.history, AnswerVote(answer));
    AnswerVotePart(c, answer);
    AnswerVotesOnce(c, answer);
    var s := HandleVoteReply(c.nodes[answer.to], answer);
    var h' := RecordCount(c.history, c.nodes[answer.to], s, answer);
    AssembleQuiet(c, Next(c, DeliverAnswerVote(answer)), h', s, answer.to);
  }

  lemma ProposeStep(c: State, n: NodeId, command: Command)
    requires Inv(c) && Enabled(c, ClientPropose(n, command))
    ensures Inv(Next(c, ClientPropose(n, command)))
    ensures Grows(c.history, Next(c, ClientPropose(n, command)).history)
  {
    var c' := Next(c, ClientPropose(n, command));
    ClientProposeOk(c.variant, c.ids, c.history, c.nodes[n], command);
    VotesOnceSame(c.history, c'.history, c.net, c'.net);
    Assemble(c, c', n, c'.nodes[n]);
  }

  /** Append traffic does not touch votes. */
  lemma AppendTraffic(h: History, h': History, net: set<Message>, m: Message)
    requires VotesOnce(h, net) && h'.tally == h.tally && (m.AskAppend? || m.AnswerAppend?)
    ensures VotesOnce(h', net + {m})
  {
  }

  lemma AskAppendFacts(c: State, m: AppendRequest)
    requires Inv(c) && Enabled(c, DeliverAskAppend(m))
    ensures Well(c, m.to) && AskAppendOk(c.ids, c.history, m)
  {
    hide NodeOk, HistoryOk, VotesOnce, AskAppendOk;
    assert MessageOk(c.ids, c.history, AskAppend(m));
  }

  lemma AskAppendPart(c: State, m: AppendRequest)
    requires Well(c, m.to) && AskAppendOk(c.ids, c.history, m) && Guarded(c, DeliverAskAppend(m))
    ensures var (after, reply) := HandleAppend(c.nodes[m.to], Received(c.variant, m));
            var h' := RecordAck(c.history, m, reply);
            && GoodPart(c, h', KeepVote(c.variant, c.nodes[m.to], after), m.to)
            && AnswerAppendOk(c.ids, h', reply)
  {
    var taken := Received(c.variant, m);
    ReceivedOk(c.variant, c.ids, c.history, m);
    hide HandleAppend, AskAppendOk, NodeOk, HistoryOk, Extends, AnswerAppendOk, Received;
    AskAppendOkNode(c.variant, c.ids, c.history, c.nodes[m.to], taken);
    HandlerKeepsId(c.nodes[m.to], taken);
  }

  /** A request is taken with a commit index within what it covers. */
  lemma ReceivedOk(variant: Variant, ids: set<NodeId>, h: History, m: AppendRequest)
    requires AskAppendOk(ids, h, m)
    requires variant.clamped || |m.entries| < MAX_BATCH || m.leaderCommit <= m.prevLogIndex + |m.entries|
    ensures var taken := Received(variant, m);
            && AskAppendOk(ids, h, taken) && taken.leaderCommit <= taken.prevLogIndex + |taken.entries|
            && taken.term == m.term && taken.to == m.to
  {
    CommitOkDown(ids, h, h.reigns[m.term].log, Received(variant, m).leaderCommit, m.leaderCommit, m.term);
  }

  lemma HandlerKeepsId(s: NodeState, m: AppendRequest)
    ensures HandleAppend(s, m).0.id == s.id
  {
  }

  lemma AppendVotesOnce(c: State, h': History, reply: AppendReply)
    requires Inv(c) && h'.tally == c.history.tally
    ensures VotesOnce(h', c.net + {AnswerAppend(reply)})
  {
    hide NodeOk, MessageOk, HistoryOk;
    AppendTraffic(c.history, h', c.net, AnswerAppend(reply));
  }

  lemma AppendNext(c: State, m: AppendRequest)
    requires Enabled(c, DeliverAskAppend(m))
    ensures var (after, reply) := HandleAppend(c.nodes[m.to], Received(c.variant, m));
            var c' := Next(c, DeliverAskAppend(m));
            && c'.variant == c.variant && c'.ids == c.ids && c'.history == RecordAck(c.history, m, reply)
            && c'.nodes == c.nodes[m.to := KeepVote(c.variant, c.nodes[m.to], after)]
            && c'.net == c.net + {AnswerAppend(reply)} && c'.history.tally == c.history.tally
  {
    hide HandleAppend, Received, KeepVote;
  }

  lemma AppendMessages(c: State, m: AppendRequest)
    requires Inv(c) && Enabled(c, DeliverAskAppend(m))
    ensures var reply := HandleAppend(c.nodes[m.to], Received(c.variant, m)).1;
            var h' := RecordAck(c.history, m, reply);
            VotesOnce(h', c.net + {AnswerAppend(reply)})
  {
    var reply := HandleAppend(c.nodes[m.to], Received(c.variant, m)).1;
    hide HandleAppend, Received, Inv;
    AppendVotesOnce(c, RecordAck(c.history, m, reply), reply);
  }

  lemma AppendGood(c: State, m: AppendRequest)
    requires Inv(c) && Enabled(c, DeliverAskAppend(m)) && Guarded(c, DeliverAskAppend(m))
    ensures var (after, reply) := HandleAppend(c.nodes[m.to], Received(c.variant, m));
            var h' := RecordAck(c.history, m, reply);
            && GoodPart(c, h', KeepVote(c.variant, c.nodes[m.to], after), m.to)
            && MessageOk(c.ids, h', AnswerAppend(reply))
  {
    assert m.to in c.nodes;
    hide *;
    AskAppendFacts(c, m);
    AskAppendPart(c, m);
    var reply := HandleAppend(c.nodes[m.to], Received(c.variant, m)).1;
    AnswerIsOk(c.ids, RecordAck(c.history, m, reply), reply);
  }

  lemma AskAppendStep(c: State, m: AppendRequest)
    requires Inv(c) && Enabled(c, DeliverAskAppend(m)) && Guarded(c, DeliverAskAppend(m))
    ensures Inv(Next(c, DeliverAskAppend(m))) && Grows(c.history, Next(c, DeliverAskAppend(m)).history)
  {
    assert m.to in c.nodes;
    hide *;
    AppendGood(c, m);
    AppendMessages(c, m);
    AppendNext(c, m);
    var (after, reply) := HandleAppend(c.nodes[m.to], Received(c.variant, m));
    AssembleSending(c, Next(c, DeliverAskAppend(m)), RecordAck(c.history, m, reply),
                    KeepVote(c.variant, c.nodes[m.to], after), m.to, AnswerAppend(reply));
  }

  lemma AnswerIsOk(ids: set<NodeId>, h: History, reply: AppendReply)
    requires AnswerAppendOk(ids, h, reply)
    ensures MessageOk(ids, h, AnswerAppend(reply))
  {}

  lemma AnswerAppendStep(c: State, m: AppendReply)
    requires Inv(c) && Enabled(c, DeliverAnswerAppend(m))
    ensures Inv(Next(c, DeliverAnswerAppend(m))) && Grows(c.history, Next(c, DeliverAnswerAppend(m)).history)
  {
    var c' := Next(c, DeliverAnswerAppend(m));
    assert MessageOk(c.ids, c.history, AnswerAppend(m));
    AnswerAppendOkNode(c.variant, c.ids, c.history, c.nodes[m.to], m);
    SameExtends(c.history, m.to);
    Assemble(c, c', m.to, c'.nodes[m.to]);
  }

  lemma SendFacts(c: State, n: NodeId, p: NodeId)
    requires Inv(c) && Enabled(c, SendAppend(n, p))
    ensures GoodPart(c, c.history, c.nodes[n], n)
    ensures AskAppendOk(c.ids, c.history, BuildAppend(c.nodes[n], p))
  {
    SameExtends(c.history, n);
    SendAppendOk(c.variant, c.ids, c.history, c.nodes[n], p);
  }

  lemma SameNode(nodes: map<NodeId, NodeState>, n: NodeId)
    requires n in nodes
    ensures nodes[n := nodes[n]] == nodes
  {
  }

  lemma SendStep(c: State, n: NodeId, p: NodeId)
    requires Inv(c) && Enabled(c, SendAppend(n, p))
    ensures Inv(Next(c, SendAppend(n, p))) && Grows(c.history, Next(c, SendAppend(n, p)).history)
  {
    SendFacts(c, n, p);
    SameNode(c.nodes, n);
    var m := AskAppend(BuildAppend(c.nodes[n], p));
    AppendTraffic(c.history, c.history, c.net, m);
    AssembleSending(c, Next(c, SendAppend(n, p)), c.history, c.nodes[n], n, m);
  }

  lemma ApplyStep(c: State, n: NodeId)
    requires Inv(c) && Enabled(c, ApplyOne(n))
    ensures Inv(Next(c, ApplyOne(n))) && Grows(c.history, Next(c, ApplyOne(n)).history)
  {
    SameExtends(c.history, n);
    ApplyOkNode(c.variant, c.ids, c.history, c.nodes[n]);
    AssembleQuiet(c, Next(c, ApplyOne(n)), c.history, ApplyNext(c.nodes[n]), n);
  }

  lemma RestartStep(c: State, n: NodeId, recovered: nat)
    requires Inv(c) && Enabled(c, CrashRestart(n, recovered))
    ensures Inv(Next(c, CrashRestart(n, recovered)))
    ensures Grows(c.history, Next(c, CrashRestart(n, recovered)).history)
  {
    SameExtends(c.history, n);
    RestartOk(c.variant, c.ids, c.history, c.nodes[n], recovered);
    var s := Recover(n, c.nodes[n].peers, c.nodes[n].disk, recovered).value;
    AssembleQuiet(c, Next(c, CrashRestart(n, recovered)), c.history, s, n);
  }

  lemma StepKeepsInv(c: State, e: Event)
    requires Inv(c) && Enabled(c, e) && Guarded(c, e)
    ensures Inv(Next(c, e)) && Grows(c.history, Next(c, e).history)
  {
    match e
    case Timeout(n) => TimeoutStep(c, n);
    case DeliverAskVote(ask) => AskVoteStep(c, ask);
    case DeliverAnswerVote(answer) => AnswerVoteStep(c, answer);
    case ClientPropose(n, command) => ProposeStep(c, n, command);
    case DeliverAskAppend(m) => AskAppendStep(c, m);
    case DeliverAnswerAppend(m) => AnswerAppendStep(c, m);
    case SendAppend(n, p) => SendStep(c, n, p);
    case ApplyOne(n) => ApplyStep(c, n);
    case CrashRestart(n, recovered) => RestartStep(c, n, recovered);
  }
}
