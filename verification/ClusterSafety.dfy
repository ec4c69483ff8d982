/** The safety properties of Raft, for every guarded run, between any two of its moments and of its nodes. */
module ClusterSafety {
  // They are those of Figure 3 of "In Search of an Understandable Consensus Algorithm" (extended version).

  import opened Quorums
  import opened RaftSpec
  import opened Cluster
  import opened ClusterInvariant
  import opened ClusterGrowth
  import opened ClusterCompleteness
  import opened ClusterProof

  lemma {:induction false} RunKeepsInv(r: Run, i: nat)
    requires IsGuardedRun(r) && i < |r.states|
    ensures Inv(r.states[i])
  {
    if i == 0 {
      InitialInv(r.states[0]);
    } else {
      RunKeepsInv(r, i - 1);
      assert Guarded(r.states[i - 1], r.events[i - 1]);
      StepKeepsInv(r.states[i - 1], r.events[i - 1]);
    }
  }

  /** With both repairs every run is guarded: what follows then holds of all runs. */
  lemma RepairedIsGuarded(r: Run)
    requires IsRun(r) && r.states[0].variant == REPAIRED
    ensures IsGuardedRun(r)
  {
    forall i | 0 <= i < |r.events| ensures Guarded(r.states[i], r.events[i]) {
      VariantStays(r, i);
    }
  }

  lemma NextKeeps(c: State, e: Event)
    requires Enabled(c, e)
    ensures Next(c, e).ids == c.ids && Next(c, e).variant == c.variant
  {}

  lemma StepIs(r: Run, i: nat)
    requires IsRun(r) && 0 < i < |r.states|
    ensures Enabled(r.states[i - 1], r.events[i - 1]) && r.states[i] == Next(r.states[i - 1], r.events[i - 1])
  {
    assert r.states[i - 1 + 1] == r.states[i];
  }

  lemma {:induction false} VariantStays(r: Run, i: nat)
    requires IsRun(r) && i < |r.states|
    ensures r.states[i].variant == r.states[0].variant
  {
    if i > 0 {
      VariantStays(r, i - 1);
      StepIs(r, i);
      NextKeeps(r.states[i - 1], r.events[i - 1]);
    }
  }

  lemma StepGrows(r: Run, j: nat)
    requires IsGuardedRun(r) && 0 < j < |r.states|
    ensures Grows(r.states[j - 1].history, r.states[j].history)
    ensures r.states[j].ids == r.states[j - 1].ids && r.states[j].variant == r.states[j - 1].variant
  {
    RunKeepsInv(r, j - 1);
    assert Guarded(r.states[j - 1], r.events[j - 1]);
    StepIs(r, j);
    hide *;
    StepKeepsInv(r.states[j - 1], r.events[j - 1]);
    NextKeeps(r.states[j - 1], r.events[j - 1]);
  }

  lemma {:induction false} RunGrows(r: Run, i: nat, j: nat)
    requires IsGuardedRun(r) && i <= j < |r.states|
    ensures Grows(r.states[i].history, r.states[j].history)
    ensures r.states[i].ids == r.states[j].ids && r.states[i].variant == r.states[j].variant
    decreases j
  {
    hide *;
    if i == j {
      GrowsReflexive(r.states[i].history);
    } else {
      RunGrows(r, i, j - 1);
      StepGrows(r, j);
      GrowsTransitive(r.states[i].history, r.states[j - 1].history, r.states[j].history);
    }
  }

  lemma GrowsReflexive(h: History)
    ensures Grows(h, h)
  {
    forall term | term in h.reigns ensures ReignGrows(h.reigns[term], h.reigns[term]) {}
  }

  /** The node `n` at moment `i`. */
  function At(r: Run, i: nat, n: NodeId): NodeState
    requires i < |r.states| && n in r.states[i].nodes
  {
    r.states[i].nodes[n]
  }

  predicate Exists(r: Run, i: nat, n: NodeId) {
    i < |r.states| && n in r.states[i].nodes
  }

  /** The later of two moments, whose history covers both. */
  function Later(i: nat, j: nat): nat {
    if i <= j then j else i
  }

  /** What a node knows at a moment, against the history of any later moment. */
  lemma NodeLater(r: Run, i: nat, n: NodeId, l: nat)
    requires IsGuardedRun(r) && Exists(r, i, n) && i <= l < |r.states|
    ensures var h := r.states[l].history; var ids := r.states[l].ids; var s := At(r, i, n);
            && HistoryOk(ids, h) && s.id == n
            && Rooted(h, s.log)
            && CommitOk(ids, h, s.log, s.commitIndex, s.currentTerm)
            && s.appliedIndex <= s.commitIndex && s.snapshotIndex == 0
            && (s.role == Leader ==>
                  && s.currentTerm in h.reigns && h.reigns[s.currentTerm].leader == n
                  && Agree(s.log, h.reigns[s.currentTerm].log, |s.log|)
                  && Agree(h.reigns[s.currentTerm].start, s.log, |h.reigns[s.currentTerm].start|))
  {
    RunKeepsInv(r, i);
    RunKeepsInv(r, l);
    RunGrows(r, i, l);
    NodeInLaterHistory(r.states[i].variant, r.states[i].ids, r.states[i].history, r.states[l].history, At(r, i, n));
  }

  lemma NodeInLaterHistory(variant: Variant, ids: set<NodeId>, h: History, h': History, s: NodeState)
    requires HistoryOk(ids, h) && NodeOk(variant, ids, h, s) && Grows(h, h')
    ensures Rooted(h', s.log) && CommitOk(ids, h', s.log, s.commitIndex, s.currentTerm)
    ensures s.appliedIndex <= s.commitIndex && s.snapshotIndex == 0
    ensures s.role == Leader ==>
              && s.currentTerm in h'.reigns && h'.reigns[s.currentTerm].leader == s.id
              && Agree(s.log, h'.reigns[s.currentTerm].log, |s.log|)
              && Agree(h'.reigns[s.currentTerm].start, s.log, |h'.reigns[s.currentTerm].start|)
  {
    RootedGrows(h, h', s.log);
    CommitOkGrows(ids, h, h', s.log, s.commitIndex, s.currentTerm, s.currentTerm);
    if s.role == Leader {
      assert ReignOk(ids, h, s.currentTerm);
    }
  }

  // ---------- The theorems ----------

  /** Election safety: at most one node is ever leader of a term. */
  lemma ElectionSafety(r: Run, i: nat, a: NodeId, j: nat, b: NodeId)
    requires IsGuardedRun(r) && Exists(r, i, a) && Exists(r, j, b)
    requires At(r, i, a).role == Leader && At(r, j, b).role == Leader
    requires At(r, i, a).currentTerm == At(r, j, b).currentTerm
    ensures a == b
  {
    NodeLater(r, i, a, Later(i, j));
    NodeLater(r, j, b, Later(i, j));
  }

  /** Log matching: entries of one term at one index have the same entries before them, wherever and whenever. */
  lemma LogMatching(r: Run, i: nat, a: NodeId, j: nat, b: NodeId, k: nat)
    requires IsGuardedRun(r) && Exists(r, i, a) && Exists(r, j, b)
    requires k < |At(r, i, a).log| && k < |At(r, j, b).log|
    requires At(r, i, a).log[k].term == At(r, j, b).log[k].term
    ensures At(r, i, a).log[..k + 1] == At(r, j, b).log[..k + 1]
  {
    var l := Later(i, j);
    NodeLater(r, i, a, l);
    NodeLater(r, j, b, l);
    LogsMatch(r.states[l].ids, r.states[l].history, At(r, i, a).log, At(r, j, b).log, k);
  }

  /** Leader completeness: what any node has committed at any moment is in the log of every leader of a later
      term, even of one that led before that moment, and of every leader of the node's own term from then on. */
  lemma LeaderCompleteness(r: Run, i: nat, a: NodeId, j: nat, b: NodeId)
    requires IsGuardedRun(r) && Exists(r, i, a) && Exists(r, j, b)
    requires At(r, j, b).role == Leader
    requires At(r, i, a).currentTerm < At(r, j, b).currentTerm
             || (At(r, i, a).currentTerm == At(r, j, b).currentTerm && i <= j)
    ensures At(r, i, a).commitIndex <= |At(r, i, a).log|
    ensures At(r, i, a).log[..At(r, i, a).commitIndex] <= At(r, j, b).log
  {
    var l := Later(i, j);
    NodeLater(r, i, a, l);
    NodeLater(r, j, b, l);
    var s, t := At(r, i, a), At(r, j, b);
    var h, ids := r.states[l].history, r.states[l].ids;
    if s.currentTerm < t.currentTerm {
      CommittedStart(ids, h, s.log, s.commitIndex, s.currentTerm, t.currentTerm);
      AgreeTransitive(s.log, h.reigns[t.currentTerm].start, t.log, s.commitIndex);
    } else {
      LeaderLogIs(r, j, b);
      CommittedIsKept(ids, h, s.log, s.commitIndex, s.currentTerm, t.currentTerm);
    }
    assert t.log[..s.commitIndex] <= t.log;
  }

  lemma LeaderLogIs(r: Run, j: nat, b: NodeId)
    requires IsGuardedRun(r) && Exists(r, j, b) && At(r, j, b).role == Leader
    ensures At(r, j, b).currentTerm in r.states[j].history.reigns
    ensures r.states[j].history.reigns[At(r, j, b).currentTerm].log == At(r, j, b).log
  {
    RunKeepsInv(r, j);
  }

  /** What is committed by a term is in the log with which each later term began. */
  lemma CommittedStart(ids: set<NodeId>, h: History, log: seq<Entry>, k: nat, limit: nat, u: nat)
    requires HistoryOk(ids, h) && CommitOk(ids, h, log, k, limit) && limit < u && u in h.reigns
    ensures Agree(log, h.reigns[u].start, k)
  {
    if k > 0 {
      var t: nat, i: nat :| CommitsAs(ids, h, log, k, t, i, limit);
      LeaderComplete(ids, h, t, i, u);
      AgreeDown(h.reigns[u].start, h.reigns[t].log, k, i);
    }
  }

  /** State machine safety: two nodes never differ on what both have committed, at any two moments. */
  lemma StateMachineSafety(r: Run, i: nat, a: NodeId, j: nat, b: NodeId, k: nat)
    requires IsGuardedRun(r) && Exists(r, i, a) && Exists(r, j, b)
    requires k <= At(r, i, a).commitIndex && k <= At(r, j, b).commitIndex
    ensures k <= |At(r, i, a).log| && k <= |At(r, j, b).log|
    ensures At(r, i, a).log[..k] == At(r, j, b).log[..k]
  {
    var l := Later(i, j);
    NodeLater(r, i, a, l);
    NodeLater(r, j, b, l);
    var s, t := At(r, i, a), At(r, j, b);
    var h, ids := r.states[l].history, r.states[l].ids;
    CommitOkDown(ids, h, s.log, k, s.commitIndex, s.currentTerm);
    CommitOkDown(ids, h, t.log, k, t.commitIndex, t.currentTerm);
    CommitsAgree(ids, h, s.log, t.log, k, s.currentTerm, t.currentTerm);
  }

  /** What one apply loop hands to its database at an index, every other hands over too. */
  lemma AppliedEntriesAgree(r: Run, i: nat, a: NodeId, j: nat, b: NodeId, k: nat)
    requires IsGuardedRun(r) && Exists(r, i, a) && Exists(r, j, b)
    requires 1 <= k <= At(r, i, a).appliedIndex && k <= At(r, j, b).appliedIndex
    ensures EntryAt(At(r, i, a), k) == EntryAt(At(r, j, b), k)
    ensures EntryAt(At(r, i, a), k).Some?
  {
    NodeLater(r, i, a, Later(i, j));
    NodeLater(r, j, b, Later(i, j));
    StateMachineSafety(r, i, a, j, b, k);
    SameEntry(At(r, i, a), At(r, j, b), k);
  }

  lemma SameEntry(s: NodeState, t: NodeState, k: nat)
    requires s.snapshotIndex == 0 && t.snapshotIndex == 0
    requires 1 <= k <= |s.log| && k <= |t.log| && s.log[..k] == t.log[..k]
    ensures EntryAt(s, k) == EntryAt(t, k) && EntryAt(s, k).Some?
  {
    assert s.log[k - 1] == s.log[..k][k - 1] == t.log[..k][k - 1];
  }

  /** A restart is always possible: a node's database is never ahead of its log. */
  lemma RestartNeverRefused(r: Run, i: nat, n: NodeId, recovered: nat)
    requires IsGuardedRun(r) && Exists(r, i, n) && recovered <= At(r, i, n).appliedIndex
    ensures Enabled(r.states[i], CrashRestart(n, recovered))
  {
    RunKeepsInv(r, i);
  }
}
