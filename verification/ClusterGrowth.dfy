/**
 Histories only grow, and what holds of a node or a message at rest survives the growth. This is what lets a step be
 judged by the node that acts alone: all the others keep what they had under the longer history.
 */
module ClusterGrowth {
  import opened Quorums
  import opened RaftSpec
  import opened Cluster
  import opened ClusterInvariant

  predicate ReignGrows(a: Reign, b: Reign) {
    a.leader == b.leader && a.voters == b.voters && a.start == b.start && Agree(a.log, b.log, |a.log|)
  }

  ghost predicate Grows(h: History, h': History) {
    && (forall key :: key in h.stands ==> key in h'.stands && h'.stands[key] == h.stands[key])
    && (forall key :: key in h.ballots ==> key in h'.ballots && h'.ballots[key] == h.ballots[key])
    && (forall term :: term in h.reigns ==> term in h'.reigns && ReignGrows(h.reigns[term], h'.reigns[term]))
    && (forall key :: key in h.acked ==> key in h'.acked && h.acked[key] <= h'.acked[key])
  }

  /** Only the records of `actor` changed, and only reigns of `actor` began or grew. */
  ghost predicate OnlyBy(h: History, h': History, actor: NodeId) {
    && (forall term, node :: node != actor ==> ((term, node) in h'.stands ==> (term, node) in h.stands))
    && (forall term, node :: node != actor ==> ((term, node) in h'.ballots ==> (term, node) in h.ballots))
    && (forall term, node :: node != actor ==> ((term, node) in h'.acked ==>
          (term, node) in h.acked && h'.acked[(term, node)] == h.acked[(term, node)]))
    && (forall term, node :: node != actor ==> ((term, node) in h'.tally <==> (term, node) in h.tally))
    && (forall term, node :: node != actor && (term, node) in h.tally ==>
          h'.tally[(term, node)] == h.tally[(term, node)])
    && (forall term :: term in h'.reigns && h'.reigns[term].leader != actor ==>
          term in h.reigns && h'.reigns[term] == h.reigns[term])
  }

  lemma GrowsTransitive(a: History, b: History, c: History)
    requires Grows(a, b) && Grows(b, c)
    ensures Grows(a, c)
  {
    forall term | term in a.reigns
      ensures term in c.reigns && ReignGrows(a.reigns[term], c.reigns[term])
    {
      assert ReignGrows(a.reigns[term], b.reigns[term]) && ReignGrows(b.reigns[term], c.reigns[term]);
      AgreeTransitive(a.reigns[term].log, b.reigns[term].log, c.reigns[term].log, |a.reigns[term].log|);
    }
  }

  lemma AgreeTransitive(a: seq<Entry>, b: seq<Entry>, c: seq<Entry>, i: nat)
    requires Agree(a, b, i) && i <= |c| && |b| >= i
    requires exists j :: i <= j && Agree(b, c, j)
    ensures Agree(a, c, i)
  {
    var j :| i <= j && Agree(b, c, j);
    assert b[..i] == b[..j][..i];
    assert c[..i] == c[..j][..i];
  }

  lemma AgreeAt(a: seq<Entry>, b: seq<Entry>, i: nat, k: nat)
    requires Agree(a, b, i) && k < i
    ensures k < |a| && k < |b| && a[k] == b[k]
  {
    assert a[..i][k] == b[..i][k];
  }

  /** Agreement stops before a difference. */
  lemma AgreeBelow(a: seq<Entry>, b: seq<Entry>, i: nat, k: nat)
    requires Agree(a, b, i)
    requires k >= |a| || k >= |b| || a[k] != b[k]
    ensures i <= k
  {
    if i > k { AgreeAt(a, b, i, k); }
  }

  lemma AgreeDown(a: seq<Entry>, b: seq<Entry>, i: nat, j: nat)
    requires Agree(a, b, j) && i <= j
    ensures Agree(a, b, i)
  {
    assert a[..i] == a[..j][..i];
    assert b[..i] == b[..j][..i];
  }

  lemma RootedGrows(h: History, h': History, log: seq<Entry>)
    requires Grows(h, h') && Rooted(h, log)
    ensures Rooted(h', log)
  {
    forall k | 0 <= k < |log| ensures RootedAt(h', log, k) {
      assert RootedAt(h, log, k);
      var t := log[k].term;
      AgreeTransitive(log, h.reigns[t].log, h'.reigns[t].log, k + 1);
    }
  }

  lemma KeptGrows(h: History, h': History, log: seq<Entry>, t: nat, i: nat, limit: nat, limit': nat)
    requires Grows(h, h') && Kept(h, log, t, i, limit) && limit <= limit'
    requires i <= |h.reigns[t].log|
    ensures Kept(h', log, t, i, limit')
  {
    var old', new' := h.reigns[t].log, h'.reigns[t].log;
    AgreeDown(old', new', i, |old'|);
    if Agree(log, old', i) {
      AgreeTransitive(log, old', new', i);
    } else {
      var u: nat :| Overrules(h, u, t, i) && u <= limit;
      OverrulesGrows(h, h', u, t, i);
    }
  }

  lemma OverrulesGrows(h: History, h': History, u: nat, t: nat, i: nat)
    requires Grows(h, h') && t in h.reigns && i <= |h.reigns[t].log| && Overrules(h, u, t, i)
    ensures Overrules(h', u, t, i)
  {
    AgreeDown(h.reigns[t].log, h'.reigns[t].log, i, |h.reigns[t].log|);
    if Agree(h'.reigns[u].start, h'.reigns[t].log, i) {
      assert h.reigns[t].log[..i] == h'.reigns[t].log[..i];
      assert Agree(h.reigns[u].start, h.reigns[t].log, i);
    }
  }

  lemma CommittedGrows(ids: set<NodeId>, h: History, h': History, t: nat, i: nat)
    requires Grows(h, h') && Committed(ids, h, t, i)
    ensures Committed(ids, h', t, i)
  {
    var a, b := Ackers(ids, h, t, i), Ackers(ids, h', t, i);
    assert a <= b;
    SubsetSize(a, b);
    AgreeDown(h.reigns[t].log, h'.reigns[t].log, i, |h.reigns[t].log|);
    assert h.reigns[t].log[..i][i - 1] == h'.reigns[t].log[..i][i - 1];
  }

  lemma CommitOkGrows(ids: set<NodeId>, h: History, h': History, log: seq<Entry>, k: nat, limit: nat, limit': nat)
    requires Grows(h, h') && CommitOk(ids, h, log, k, limit) && limit <= limit'
    ensures CommitOk(ids, h', log, k, limit')
  {
    if k != 0 {
      var t: nat, i: nat :| CommitsAs(ids, h, log, k, t, i, limit);
      CommittedGrows(ids, h, h', t, i);
      AgreeTransitive(log, h.reigns[t].log, h'.reigns[t].log, k);
      assert CommitsAs(ids, h', log, k, t, i, limit');
    }
  }

  /** A record of a node's faithfulness survives when that node acknowledges nothing new in the terms it covers. */
  lemma FaithfulGrows(ids: set<NodeId>, h: History, h': History, node: NodeId, log: seq<Entry>, limit: nat)
    requires Grows(h, h') && HistoryOk(ids, h) && Faithful(h, node, log, limit)
    requires forall t :: t <= limit && (t, node) in h'.acked ==>
                           (t, node) in h.acked && h'.acked[(t, node)] == h.acked[(t, node)]
    ensures Faithful(h', node, log, limit)
  {
    forall t: nat, i: nat | t <= limit && (t, node) in h'.acked && i <= h'.acked[(t, node)]
      ensures Kept(h', log, t, i, limit)
    {
      assert AckOk(ids, h, t, node);
      assert Kept(h, log, t, i, limit);
      KeptGrows(h, h', log, t, i, limit, limit);
    }
  }

  lemma LogOkGrows(ids: set<NodeId>, h: History, h': History, s: NodeState)
    requires Grows(h, h') && HistoryOk(ids, h) && LogOk(ids, h, s)
    requires forall t :: (t, s.id) in h'.acked ==> (t, s.id) in h.acked && h'.acked[(t, s.id)] == h.acked[(t, s.id)]
    ensures LogOk(ids, h', s)
  {
    RootedGrows(h, h', s.log);
    FaithfulGrows(ids, h, h', s.id, s.log, s.currentTerm);
    CommitOkGrows(ids, h, h', s.log, s.commitIndex, s.currentTerm, s.currentTerm);
  }

  /** A node that did not act is as well as before. */
  lemma BystanderLeads(ids: set<NodeId>, h: History, h': History, actor: NodeId, s: NodeState)
    requires Grows(h, h') && OnlyBy(h, h', actor) && HistoryOk(ids, h) && s.id != actor && LeaderOk(ids, h, s)
    ensures LeaderOk(ids, h', s)
  {
    forall p | p in s.matchIndex ensures s.matchIndex[p] <= Acked(h', s.currentTerm, p) {
      assert s.matchIndex[p] <= Acked(h, s.currentTerm, p);
    }
  }

  lemma BystanderStands(ids: set<NodeId>, h: History, h': History, actor: NodeId, s: NodeState)
    requires Grows(h, h') && OnlyBy(h, h', actor) && HistoryOk(ids, h) && s.id != actor && CandidateOk(ids, h, s)
    ensures CandidateOk(ids, h', s)
  {
    assert Tally(h', s.currentTerm, s.id) == Tally(h, s.currentTerm, s.id);
  }

  lemma BystanderDated(variant: Variant, h: History, h': History, actor: NodeId, s: NodeState)
    requires Grows(h, h') && OnlyBy(h, h', actor) && s.id != actor && Dated(h, s)
    ensures Dated(h', s) && (VoteRemembered(h, s) ==> VoteRemembered(h', s))
  {
  }

  lemma BystanderOk(variant: Variant, ids: set<NodeId>, h: History, h': History, actor: NodeId, s: NodeState)
    requires Grows(h, h') && OnlyBy(h, h', actor) && HistoryOk(ids, h)
    requires s.id != actor && NodeOk(variant, ids, h, s)
    ensures NodeOk(variant, ids, h', s)
  {
    LogOkGrows(ids, h, h', s);
    hide Grows, OnlyBy, HistoryOk, LogOk, Dated, CandidateOk, LeaderOk, VoteRemembered;
    BystanderDated(variant, h, h', actor, s);
    if s.role == Leader { BystanderLeads(ids, h, h', actor, s); }
    if s.role == Candidate { BystanderStands(ids, h, h', actor, s); }
  }

  lemma MessageOkGrows(ids: set<NodeId>, h: History, h': History, m: Message)
    requires Grows(h, h') && MessageOk(ids, h, m)
    ensures MessageOk(ids, h', m)
  {
    match m
    case AskVote(ask) =>
    case AnswerVote(answer) =>
    case AnswerAppend(outcome) =>
    case AskAppend(append) =>
      var a, b := h.reigns[append.term].log, h'.reigns[append.term].log;
      var upTo := append.prevLogIndex + |append.entries|;
      AgreeDown(a, b, upTo, |a|);
      assert a[append.prevLogIndex..upTo] == a[..upTo][append.prevLogIndex..];
      assert b[append.prevLogIndex..upTo] == b[..upTo][append.prevLogIndex..];
      assert TermAt(a, append.prevLogIndex) == TermAt(b, append.prevLogIndex) by {
        if append.prevLogIndex >= 1 {
          assert a[append.prevLogIndex - 1] == a[..upTo][append.prevLogIndex - 1];
          assert b[append.prevLogIndex - 1] == b[..upTo][append.prevLogIndex - 1];
        }
      }
      CommitOkGrows(ids, h, h', a, append.leaderCommit, append.term, append.term);
      CommitOkOnPrefix(ids, h', a, b, append.leaderCommit, append.term);
  }

  lemma CommitOkOnPrefix(ids: set<NodeId>, h: History, a: seq<Entry>, b: seq<Entry>, k: nat, limit: nat)
    requires CommitOk(ids, h, a, k, limit) && k <= |b| && Agree(a, b, k)
    ensures CommitOk(ids, h, b, k, limit)
  {
    if k != 0 {
      var t: nat, i: nat :| CommitsAs(ids, h, a, k, t, i, limit);
      assert CommitsAs(ids, h, b, k, t, i, limit);
    }
  }
}
