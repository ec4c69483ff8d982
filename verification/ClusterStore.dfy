/** The databases of a cluster: the apply loops and stores of `Apply` driven by the runs of `Cluster`. */
module ClusterStore {
  import opened Quorums
  import opened RaftSpec
  import opened Cluster
  import opened ClusterInvariant
  import opened ClusterProof
  import opened ClusterSafety
  import opened Apply

  /** What an event does to the database of node `n`, which is in state `s`. */
  function StoreStep<Db>(e: Engine<Db>, s: NodeState, event: Event, n: NodeId, a: Applier<Db>): Applier<Db> {
    if event == ApplyOne(n) && Applies(s) then TurnOn(e, a, EntryAt(s, s.appliedIndex + 1).value.command)
    else if event.CrashRestart? && event.node == n then Restarted(a)
    else a
  }

  /** Whether the apply loop has an entry to apply. */
  predicate Applies(s: NodeState) {
    s.appliedIndex < s.commitIndex && EntryAt(s, s.appliedIndex + 1).Some?
  }

  /** The database of a node at moment `i` of a run. */
  function StoreAt<Db>(e: Engine<Db>, r: Run, n: NodeId, i: nat): Applier<Db>
    requires i < |r.states| && |r.states| == |r.events| + 1 && forall j :: 0 <= j < i ==> n in r.states[j].nodes
  {
    if i == 0 then Started(e)
    else StoreStep(e, r.states[i - 1].nodes[n], r.events[i - 1], n, StoreAt(e, r, n, i - 1))
  }

  predicate IsMember(r: Run, n: NodeId) {
    forall j :: 0 <= j < |r.states| ==> n in r.states[j].nodes
  }

  predicate RestartsAt<Db>(e: Engine<Db>, r: Run, n: NodeId, i: nat)
    requires |r.states| == |r.events| + 1 && IsMember(r, n)
  {
    i < |r.events| && r.events[i].CrashRestart? && r.events[i].node == n ==>
      r.events[i].recovered == StoreAt(e, r, n, i).recorded
  }

  /** A run in which the node restarts from the index that its database has recorded. */
  ghost predicate IsStoredRun<Db>(e: Engine<Db>, r: Run, n: NodeId) {
    IsGuardedRun(r) && IsMember(r, n) && forall i :: RestartsAt(e, r, n, i)
  }

  // ---------- Steps ----------

  lemma BecomeLeaderApplied(s: NodeState)
    ensures WinIfElected(s).appliedIndex == s.appliedIndex
  {}

  lemma AppendApplied(s: NodeState, m: AppendRequest)
    ensures HandleAppend(s, m).0.appliedIndex == s.appliedIndex
  {}

  /** Only the apply loop and a restart move a node's applied index. */
  lemma AppliedStep(c: State, event: Event, n: NodeId)
    requires Enabled(c, event) && n in c.nodes && n in Next(c, event).nodes
    ensures Next(c, event).nodes[n].appliedIndex
            == if event == ApplyOne(n) && Applies(c.nodes[n]) then c.nodes[n].appliedIndex + 1
               else if event.CrashRestart? && event.node == n then event.recovered
               else c.nodes[n].appliedIndex
  {
    hide HandleAppend, Received;
    match event
    case Timeout(m) =>
      BecomeLeaderApplied(StandForElection(c.nodes[m]));
    case DeliverAnswerVote(m) =>
      BecomeLeaderApplied(c.nodes[m.to].(votes := c.nodes[m.to].votes + 1));
    case DeliverAskAppend(m) =>
      AppendApplied(c.nodes[m.to], Received(c.variant, m));
    case _ =>
  }

  /** From one moment to the next, what the node has applied stays in its log. */
  lemma AppliedPrefixStays(r: Run, n: NodeId, i: nat, applied: nat)
    requires IsGuardedRun(r) && Exists(r, i, n) && Exists(r, i + 1, n)
    requires applied <= At(r, i, n).commitIndex && applied <= At(r, i + 1, n).appliedIndex
    ensures applied <= |At(r, i, n).log| && applied <= |At(r, i + 1, n).log|
    ensures At(r, i, n).log[..applied] == At(r, i + 1, n).log[..applied]
  {
    NodeLater(r, i + 1, n, i + 1);
    StateMachineSafety(r, i, n, i + 1, n, applied);
  }

  /** The node's loop and its database agree, and the database is exact. */
  ghost predicate StoreOk<Db>(e: Engine<Db>, s: NodeState, a: Applier<Db>) {
    a.applied == s.appliedIndex && Exact(e, Local(s.log, a))
  }

  lemma StoreStepExact<Db>(e: Engine<Db>, s: NodeState, event: Event, n: NodeId, a: Applier<Db>)
    requires StoreOk(e, s, a) && s.snapshotIndex == 0
    ensures Exact(e, Local(s.log, StoreStep(e, s, event, n, a)))
  {
    var local := Local(s.log, a);
    if event == ApplyOne(n) && Applies(s) {
      HappeningKeepsExact(e, local, Turn);
    } else if event.CrashRestart? && event.node == n {
      HappeningKeepsExact(e, local, Restart(s.log));
    }
  }

  /** What the node has applied after a step, it had committed before. */
  lemma AppliedWasCommitted<Db>(e: Engine<Db>, r: Run, n: NodeId, i: nat)
    requires IsStoredRun(e, r, n) && i + 1 < |r.states|
    requires StoreOk(e, At(r, i, n), StoreAt(e, r, n, i))
    ensures StoreAt(e, r, n, i + 1).applied == At(r, i + 1, n).appliedIndex <= At(r, i, n).commitIndex
  {
    AppliedStep(r.states[i], r.events[i], n);
    NodeLater(r, i, n, i);
    assert RestartsAt(e, r, n, i);
  }

  lemma StoreStepOk<Db>(e: Engine<Db>, r: Run, n: NodeId, i: nat)
    requires IsStoredRun(e, r, n) && i + 1 < |r.states|
    requires StoreOk(e, At(r, i, n), StoreAt(e, r, n, i))
    ensures StoreOk(e, At(r, i + 1, n), StoreAt(e, r, n, i + 1))
  {
    var s, t := At(r, i, n), At(r, i + 1, n);
    var b := StoreAt(e, r, n, i + 1);
    NodeLater(r, i, n, i);
    StoreStepExact(e, s, r.events[i], n, StoreAt(e, r, n, i));
    AppliedWasCommitted(e, r, n, i);
    AppliedPrefixStays(r, n, i, b.applied);
    LogMayChange(e, s.log, t.log, b);
  }

  lemma {:induction false} StoreStaysOk<Db>(e: Engine<Db>, r: Run, n: NodeId, i: nat)
    requires IsStoredRun(e, r, n) && i < |r.states|
    ensures StoreOk(e, At(r, i, n), StoreAt(e, r, n, i))
  {
    if i == 0 {
      assert r.states[0].nodes[n] == Fresh(n, r.states[0].ids);
      forall index: nat ensures TookAt(e, [], Started(e), index) {}
    } else {
      StoreStaysOk(e, r, n, i - 1);
      StoreStepOk(e, r, n, i - 1);
    }
  }

  // ---------- The theorems ----------

  /** At every moment of every run, through crashes and restarts, a node's database is what the entries it has
      applied produce, and each of its transactions that commits has committed once. */
  lemma DatabaseIsFoldOfLog<Db>(e: Engine<Db>, r: Run, n: NodeId, i: nat)
    requires IsStoredRun(e, r, n) && i < |r.states|
    ensures var s := At(r, i, n); var a := StoreAt(e, r, n, i);
            && s.appliedIndex <= |s.log|
            && a.db == Fold(e, s.log[..s.appliedIndex])
            && TookOnce(e, s.log, a)
  {
    StoreStaysOk(e, r, n, i);
  }

  /** Replicas agree: two nodes that have applied up to the same index, at whatever moments, have equal databases. */
  lemma ReplicasAgree<Db>(e: Engine<Db>, r: Run, a: NodeId, i: nat, b: NodeId, j: nat)
    requires IsStoredRun(e, r, a) && IsStoredRun(e, r, b) && i < |r.states| && j < |r.states|
    requires At(r, i, a).appliedIndex == At(r, j, b).appliedIndex
    ensures StoreAt(e, r, a, i).db == StoreAt(e, r, b, j).db
  {
    DatabaseIsFoldOfLog(e, r, a, i);
    DatabaseIsFoldOfLog(e, r, b, j);
    NodeLater(r, i, a, i);
    NodeLater(r, j, b, j);
    StateMachineSafety(r, i, a, j, b, At(r, i, a).appliedIndex);
  }
}
