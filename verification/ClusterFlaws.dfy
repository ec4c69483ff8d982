/** Why the guards of `Cluster` are needed: a run as written in which two nodes lead one term. */
module ClusterFlaws {
  // No node crashes and no message is lost in it, and each leader commits a different entry at the same index.
  //
  // `AppendEntries` calls `stepDownLocked` also when the term does not rise, which clears the vote of a follower at
  // each heartbeat; a delayed vote request of the same term is then granted a second time.

  import opened Quorums
  import opened RaftSpec
  import opened Cluster

  const THREE: set<NodeId> := {0, 1, 2}

  function Last(r: Run): State
    requires r.states != []
  {
    r.states[|r.states| - 1]
  }

  lemma Extend(r: Run, e: Event) returns (r': Run)
    requires IsRun(r) && Enabled(Last(r), e)
    ensures IsRun(r') && Last(r') == Next(Last(r), e)
    ensures r'.events == r.events + [e] && r'.states == r.states + [Last(r')]
  {
    r' := Run(r.states + [Next(Last(r), e)], r.events + [e]);
    forall i | 0 <= i < |r'.events|
      ensures Enabled(r'.states[i], r'.events[i]) && r'.states[i + 1] == Next(r'.states[i], r'.events[i])
    {
      if i < |r.events| {
        assert r'.states[i] == r.states[i] && r'.states[i + 1] == r.states[i + 1] && r'.events[i] == r.events[i];
      }
    }
  }

  // ---------- The nodes along the run ----------

  function Peers(id: NodeId): set<NodeId> { THREE - {id} }

  function Node(id: NodeId, log: seq<Entry>, term: nat, voted: NodeId, role: Role, leader: NodeId,
                votes: nat, commit: nat, next: map<NodeId, nat>, matched: map<NodeId, nat>): NodeState {
    NodeState(id, Peers(id), log, term, voted, commit, role, leader, votes, next, matched, 0, 0, {}, 0, [],
              Disk(term, voted, 0, 0, log))
  }

  function Standing1(id: NodeId): NodeState {
    Node(id, [], 1, id, Candidate, NO_ONE, 1, 0, map[], map[])
  }

  function Leading(id: NodeId, log: seq<Entry>, commit: nat, next: map<NodeId, nat>, matched: map<NodeId, nat>)
    : NodeState
  {
    Node(id, log, 1, id, Leader, id, 2, commit, next, matched)
  }

  function Voter(voted: NodeId, leader: NodeId, log: seq<Entry>): NodeState {
    Node(2, log, 1, voted, Follower, leader, 0, 0, map[], map[])
  }

  ghost function AllTo(id: NodeId, n: nat): map<NodeId, nat> {
    AllAt(Peers(id), n)
  }

  function Ask(id: NodeId): VoteRequest { VoteRequest(id, 2, 1, id, 0, 0) }

  function Grant(id: NodeId): VoteReply { VoteReply(2, id, 1, true) }

  function Send(id: NodeId, entries: seq<Entry>): AppendRequest {
    AppendRequest(id, 2, 1, id, 0, 0, entries, 0)
  }

  function Ack(id: NodeId, index: nat): AppendReply { AppendReply(2, id, 1, true, index) }

  predicate Start(c: State) {
    Initial(c) && c.variant == AS_WRITTEN && c.ids == THREE
  }

  ghost function Leads(id: NodeId): NodeState { Leading(id, [], 0, AllTo(id, 1), AllTo(id, 0)) }

  /** The states of the three nodes: one of 0 and 1, the other of them, and node 2. */
  predicate Nodes(r: Run, s: NodeState, other: NodeState, voter: NodeState) {
    && r.states != [] && (s.id == 0 || s.id == 1) && other.id == 1 - s.id
    && Last(r).nodes.Keys == THREE && Last(r).variant == AS_WRITTEN
    && Last(r).nodes[s.id] == s && Last(r).nodes[other.id] == other && Last(r).nodes[2] == voter
  }

  // ---------- Single steps on these nodes ----------

  lemma StandIs(id: NodeId)
    requires id in THREE
    ensures StartElection(Fresh(id, THREE)) == Standing1(id)
  {
    assert |Peers(id) + {id}| == |Peers(id)| + 1;
    assert Peers(id) + {id} == THREE;
  }

  lemma ThreeNodes(id: NodeId)
    requires id in THREE
    ensures |Peers(id)| == 2
  {
    assert |Peers(id) + {id}| == |Peers(id)| + 1;
    assert Peers(id) + {id} == THREE;
  }

  lemma EmptyPlus(m: map<NodeId, nat>)
    ensures map[] + m == m
  {
  }

  lemma WinIs(id: NodeId)
    requires id in THREE
    ensures HandleVoteReply(Standing1(id), Grant(id)) == Leads(id)
  {
    ThreeNodes(id);
    EmptyPlus(AllTo(id, 1));
    EmptyPlus(AllTo(id, 0));
    var n := Standing1(id).(votes := 2);
    assert HandleVoteReply(Standing1(id), Grant(id)) == WinIfElected(n);
    assert WinIfElected(n) == BecomeLeader(n);
  }

  lemma FreshIs(c: State, n: NodeId)
    requires Start(c) && n in THREE
    ensures n in c.nodes && c.nodes[n] == Fresh(n, THREE)
  {
  }

  lemma Stand(r: Run, id: NodeId, other: NodeState) returns (r': Run)
    requires IsRun(r) && (id == 0 || id == 1) && Nodes(r, Fresh(id, THREE), other, Fresh(2, THREE))
    ensures IsRun(r') && r'.states[0] == r.states[0] && Nodes(r', Standing1(id), other, Fresh(2, THREE))
    ensures forall m :: m in Last(r).net ==> m in Last(r').net
    ensures AskVote(Ask(id)) in Last(r').net
  {
    StandIs(id);
    assert AskVote(VoteRequestTo(Standing1(id), 2)) in VoteRequests(Standing1(id));
    r' := Extend(r, Timeout(id));
  }

  lemma StandTwice(c: State) returns (r: Run)
    requires Start(c)
    ensures IsRun(r) && r.states[0] == c
    ensures Nodes(r, Standing1(0), Standing1(1), Fresh(2, THREE))
    ensures AskVote(Ask(0)) in Last(r).net && AskVote(Ask(1)) in Last(r).net
  {
    r := Run([c], []);
    FreshIs(c, 0);
    FreshIs(c, 1);
    FreshIs(c, 2);
    r := Stand(r, 0, Fresh(1, THREE));
    r := Stand(r, 1, Standing1(0));
  }

  /** Node 2 votes for a candidate. */
  lemma Vote(r: Run, id: NodeId, other: NodeState, voter: NodeState) returns (r': Run)
    requires IsRun(r) && (id == 0 || id == 1) && Nodes(r, Standing1(id), other, voter)
    requires AskVote(Ask(id)) in Last(r).net
    requires HandleVoteRequest(voter, Ask(id)) == (Voter(id, id, []), Grant(id))
    ensures IsRun(r') && r'.states[0] == r.states[0] && Nodes(r', Standing1(id), other, Voter(id, id, []))
    ensures AnswerVote(Grant(id)) in Last(r').net
    ensures forall m :: m in Last(r).net && m != AskVote(Ask(id)) ==> m in Last(r').net
  {
    r' := Extend(r, DeliverAskVote(Ask(id)));
  }

  /** The candidate counts the vote and wins. */
  lemma Win(r: Run, id: NodeId, other: NodeState, voter: NodeState) returns (r': Run)
    requires IsRun(r) && (id == 0 || id == 1) && Nodes(r, Standing1(id), other, voter)
    requires AnswerVote(Grant(id)) in Last(r).net
    ensures IsRun(r') && r'.states[0] == r.states[0] && Nodes(r', Leads(id), other, voter)
    ensures forall m :: m in Last(r).net && m != AnswerVote(Grant(id)) ==> m in Last(r').net
  {
    var c := Last(r);
    WinNext(c, id);
    r' := Extend(r, DeliverAnswerVote(Grant(id)));
    assert Last(r') == Next(c, DeliverAnswerVote(Grant(id)));
  }

  lemma WinNext(c: State, id: NodeId)
    requires id in THREE && c.nodes.Keys == THREE && c.nodes[id] == Standing1(id)
    requires AnswerVote(Grant(id)) in c.net
    ensures Enabled(c, DeliverAnswerVote(Grant(id)))
    ensures var d := Next(c, DeliverAnswerVote(Grant(id)));
            && d.variant == c.variant && d.nodes.Keys == THREE && d.nodes[id] == Leads(id)
            && (forall n :: n in THREE && n != id ==> d.nodes[n] == c.nodes[n])
            && (forall m :: m in c.net && m != AnswerVote(Grant(id)) ==> m in d.net)
  {
    WinIs(id);
  }

  lemma SendOn(r: Run, s: NodeState, other: NodeState, voter: NodeState) returns (r': Run)
    requires IsRun(r) && Nodes(r, s, other, voter)
    requires s.role == Leader && s.peers == Peers(s.id) && BuildAppend(s, 2) == Send(s.id, s.log)
    ensures IsRun(r') && r'.states[0] == r.states[0] && Nodes(r', s, other, voter)
    ensures forall m :: m in Last(r).net ==> m in Last(r').net
    ensures AskAppend(Send(s.id, s.log)) in Last(r').net
  {
    r' := Extend(r, SendAppend(s.id, 2));
  }

  lemma Take(r: Run, s: NodeState, other: NodeState, voter: NodeState, after: NodeState) returns (r': Run)
    requires IsRun(r) && Nodes(r, s, other, voter)
    requires AskAppend(Send(s.id, s.log)) in Last(r).net
    requires HandleAppend(voter, Send(s.id, s.log)) == (after, Ack(s.id, |s.log|))
    ensures IsRun(r') && r'.states[0] == r.states[0] && Nodes(r', s, other, after)
    ensures forall m :: m in Last(r).net ==> m in Last(r').net
    ensures AnswerAppend(Ack(s.id, |s.log|)) in Last(r').net
  {
    r' := Extend(r, DeliverAskAppend(Send(s.id, s.log)));
  }

  function First(command: Command): seq<Entry> { [Entry(1, 1, command)] }

  ghost function Proposed(id: NodeId, command: Command): NodeState {
    Leading(id, First(command), 0, AllTo(id, 1), AllTo(id, 0))
  }

  ghost function Commits(id: NodeId, command: Command): NodeState {
    Leading(id, First(command), 1, AllTo(id, 1)[2 := 2], AllTo(id, 0)[2 := 1])
  }

  lemma ProposeIs(id: NodeId, command: Command)
    requires id == 0 || id == 1
    ensures PersistBatch(Propose(Leads(id), command)) == Proposed(id, command)
  {
    var p := AppendToDisk(Propose(Leads(id), command), First(command)).(unsaved := []);
    assert [] + First(command) == First(command);
    assert p == Proposed(id, command);
    assert p.matchIndex == AllTo(id, 0);
    assert forall q :: q in AllTo(id, 0) ==> AllTo(id, 0)[q] == 0;
    assert forall q :: q !in Holders(p, 1);
    assert Counted(p) == Peers(id);
    assert |Peers(id) + {id}| == |Peers(id)| + 1;
    assert Peers(id) + {id} == THREE;
    assert !OnMajority(p, 1);
  }

  lemma CommitHolders(id: NodeId, p: NodeState)
    requires (id == 0 || id == 1) && p.matchIndex == AllTo(id, 0)[2 := 1] && p.removing == {}
    ensures OnMajority(p, 1)
  {
    assert 2 in Peers(id);
    assert p.matchIndex.Keys == Peers(id);
    assert Counted(p) == Peers(id);
    assert forall q :: q in AllTo(id, 0) ==> AllTo(id, 0)[q] == 0;
    assert Holders(p, 1) == {2};
    assert |Peers(id) + {id}| == |Peers(id)| + 1;
    assert Peers(id) + {id} == THREE;
  }

  lemma CommitIs(id: NodeId, command: Command)
    requires id == 0 || id == 1
    ensures HandleAppendReply(Proposed(id, command), 2, Ack(id, 1)) == Commits(id, command)
  {
    var p := Proposed(id, command).(matchIndex := AllTo(id, 0)[2 := 1], nextIndex := AllTo(id, 1)[2 := 2]);
    CommitHolders(id, p);
    assert ReplicatedFrom(p, 0) == 1;
  }

  lemma ProposeOne(r: Run, id: NodeId, command: Command, other: NodeState, voter: NodeState) returns (r': Run)
    requires IsRun(r) && (id == 0 || id == 1) && Nodes(r, Leads(id), other, voter) && !command.ConfChange?
    ensures IsRun(r') && r'.states[0] == r.states[0] && Nodes(r', Proposed(id, command), other, voter)
    ensures Last(r').net == Last(r).net
  {
    ProposeIs(id, command);
    r' := Extend(r, ClientPropose(id, command));
  }

  lemma CommitOne(r: Run, id: NodeId, command: Command, other: NodeState, voter: NodeState) returns (r': Run)
    requires IsRun(r) && (id == 0 || id == 1) && Nodes(r, Proposed(id, command), other, voter)
    requires AnswerAppend(Ack(id, 1)) in Last(r).net
    ensures IsRun(r') && r'.states[0] == r.states[0] && Nodes(r', Commits(id, command), other, voter)
  {
    CommitIs(id, command);
    r' := Extend(r, DeliverAnswerAppend(Ack(id, 1)));
  }

  lemma TakeIs(voted: NodeId, leader: NodeId, log: seq<Entry>, id: NodeId, entries: seq<Entry>)
    requires log == [] || (|log| == 1 && log[0].term == 1)
    requires |entries| <= 1 && (entries != [] ==> entries[0].term == 1)
    ensures HandleAppend(Voter(voted, leader, log), Send(id, entries))
            == (Voter(NO_ONE, id, if log == [] then entries else log), Ack(id, |entries|))
  {
    var d := StepDown(Voter(voted, leader, log), 1).(currentLeader := id);
    assert [] + entries == entries;
    if entries == [] {
      assert Splice(log, 0, 0, 0, entries, 0) == Spliced(log, 0, false);
    } else if log == [] {
      assert entries[0..] == entries;
      assert Splice(log, 0, 0, 0, entries, 0) == Spliced(entries, 0, false);
    } else {
      assert Splice(log, 0, 0, 0, entries, 1) == Spliced(log, 1, false);
    }
  }

  /** Node 0 wins term 1 with the vote of node 2. */
  lemma OneLeader(c: State) returns (r: Run)
    requires Start(c)
    ensures IsRun(r) && r.states[0] == c && Nodes(r, Leads(0), Standing1(1), Voter(0, 0, []))
    ensures AskVote(Ask(1)) in Last(r).net
  {
    r := StandTwice(c);
    r := Vote(r, 0, Standing1(1), Fresh(2, THREE));
    r := Win(r, 0, Standing1(1), Voter(0, 0, []));
  }

  /** Node 0 sends a heartbeat; node 2 forgets its vote and elects node 1 for term 1 too. */
  lemma TwoLeaders(c: State) returns (r: Run)
    requires Start(c)
    ensures IsRun(r) && r.states[0] == c && Nodes(r, Leads(0), Leads(1), Voter(1, 1, []))
  {
    r := OneLeader(c);
    r := SendOn(r, Leads(0), Standing1(1), Voter(0, 0, []));
    TakeIs(0, 0, [], 0, []);
    r := Take(r, Leads(0), Standing1(1), Voter(0, 0, []), Voter(NO_ONE, 0, []));
    r := Vote(r, 1, Leads(0), Voter(NO_ONE, 0, []));
    r := Win(r, 1, Leads(0), Voter(1, 1, []));
  }

  /** A leader proposes and sends its entry. */
  lemma ProposeAndSend(r: Run, id: NodeId, command: Command, other: NodeState, voter: NodeState) returns (r': Run)
    requires IsRun(r) && (id == 0 || id == 1) && Nodes(r, Leads(id), other, voter) && !command.ConfChange?
    ensures IsRun(r') && r'.states[0] == r.states[0] && Nodes(r', Proposed(id, command), other, voter)
    ensures AskAppend(Send(id, First(command))) in Last(r').net
  {
    r' := ProposeOne(r, id, command, other, voter);
    r' := SendOn(r', Proposed(id, command), other, voter);
  }

  /** Node 2 takes the entry, and the leader commits it. */
  lemma TakeAndCommit(r: Run, id: NodeId, command: Command, other: NodeState, voter: NodeState, after: NodeState)
    returns (r': Run)
    requires IsRun(r) && (id == 0 || id == 1) && Nodes(r, Proposed(id, command), other, voter)
    requires AskAppend(Send(id, First(command))) in Last(r).net
    requires HandleAppend(voter, Send(id, First(command))) == (after, Ack(id, 1))
    ensures IsRun(r') && r'.states[0] == r.states[0] && Nodes(r', Commits(id, command), other, after)
  {
    r' := Take(r, Proposed(id, command), other, voter, after);
    r' := CommitOne(r', id, command, other, after);
  }

  /** As written, the handlers let two nodes lead one term and commit different entries at index one. */
  lemma TwoLeadersDiverge(c: State) returns (r: Run)
    requires Start(c)
    ensures IsRun(r) && r.states[0] == c && Last(r).nodes.Keys == THREE
    ensures var a, b := Last(r).nodes[0], Last(r).nodes[1];
            && a.role == Leader && b.role == Leader && a.currentTerm == b.currentTerm
            && a.commitIndex == 1 && b.commitIndex == 1 && EntryAt(a, 1) != EntryAt(b, 1)
  {
    r := TwoLeaders(c);
    var x, y := Exec("x"), Exec("y");
    TakeIs(1, 1, [], 0, First(x));
    r := ProposeAndSend(r, 0, x, Leads(1), Voter(1, 1, []));
    r := TakeAndCommit(r, 0, x, Leads(1), Voter(1, 1, []), Voter(NO_ONE, 0, First(x)));
    TakeIs(NO_ONE, 0, First(x), 1, First(y));
    r := ProposeAndSend(r, 1, y, Commits(0, x), Voter(NO_ONE, 0, First(x)));
    r := TakeAndCommit(r, 1, y, Commits(0, x), Voter(NO_ONE, 0, First(x)), Voter(NO_ONE, 1, First(x)));
  }
}
