/** Catching up: a leader whose log is quiet and one follower, whatever requests and replies are lost. */
module Replication {
  import opened Quorums
  import opened RaftSpec
  import opened NodeLaws

  datatype Pair = Pair(leader: NodeState, follower: NodeState)

  function Next(p: Pair): nat {
    Lookup(p.leader.nextIndex, p.follower.id)
  }

  function Request(p: Pair): AppendRequest {
    BuildAppend(p.leader, p.follower.id)
  }

  datatype Delivery = Delivered | RequestLost | ReplyLost

  /** One turn of the leader's sender for this follower. */
  function Turn(p: Pair, d: Delivery): Pair {
    if d == RequestLost then p
    else
      var (follower, reply) := HandleAppend(p.follower, Request(p));
      if d == ReplyLost then p.(follower := follower)
      else Pair(HandleAppendReply(p.leader, p.follower.id, reply), follower)
  }

  function Turns(p: Pair, schedule: seq<Delivery>): Pair
    decreases |schedule|
  {
    if schedule == [] then p else Turns(Turn(p, schedule[0]), schedule[1..])
  }

  predicate IsRejection(p: Pair, d: Delivery) {
    d == Delivered && !Accepted(p.follower, Request(p))
  }

  /** How many rejections reach the leader. */
  function Rejections(p: Pair, schedule: seq<Delivery>): nat
    decreases |schedule|
  {
    if schedule == [] then 0
    else (if IsRejection(p, schedule[0]) then 1 else 0) + Rejections(Turn(p, schedule[0]), schedule[1..])
  }

  function DeliveredCount(schedule: seq<Delivery>): nat {
    if schedule == [] then 0
    else (if schedule[0] == Delivered then 1 else 0) + DeliveredCount(schedule[1..])
  }

  /** A stable leader and a follower without snapshots, whose logs match as Raft logs do. */
  predicate Stable(p: Pair) {
    && p.leader.role == Leader && p.leader.snapshotIndex == 0
    && p.follower.snapshotIndex == 0 && p.follower.currentTerm <= p.leader.currentTerm
    && Comparable(p.follower, p.leader.log)
    && Next(p) >= 1
  }

  /** The last index before the leader's next request. */
  function Before(p: Pair): nat
    requires Stable(p)
  {
    if Next(p) > |p.leader.log| + 1 then |p.leader.log| else Next(p) - 1
  }

  /** The leader's next index is one from which the follower can go on. */
  predicate Synced(p: Pair) {
    Stable(p) && Matches(p.follower, p.leader.log, Before(p))
  }

  predicate CaughtUp(p: Pair) {
    p.leader.log <= p.follower.log
  }

  // ---------- The measure ----------

  function Log2(n: nat): nat {
    if n <= 1 then 0 else 1 + Log2(n / 2)
  }

  lemma {:induction false} Log2Exact(n: nat)
    requires n >= 1
    ensures Power2(Log2(n)) <= n < Power2(Log2(n) + 1)
  {
    if n > 1 {
      Log2Exact(n / 2);
    }
  }

  function Power2(k: nat): nat {
    if k == 0 then 1 else 2 * Power2(k - 1)
  }

  function Batches(entries: nat): nat {
    (entries + MAX_BATCH - 1) / MAX_BATCH
  }

  /** The rejections still to be expected, at most. */
  function Refusals(p: Pair): nat {
    if Synced(p) then 0 else Log2(Next(p))
  }

  /** The turns still needed, at most. */
  function Left(p: Pair): nat
    requires Stable(p)
  {
    Refusals(p) + if Synced(p) then Batches(|p.leader.log| - Before(p)) else Batches(|p.leader.log|)
  }

  // ---------- One request ----------

  lemma RequestEntries(p: Pair)
    requires Stable(p)
    ensures var req := Request(p); var last := |p.leader.log|; var prev := Before(p);
            && req.prevLogIndex == prev
            && req.entries == p.leader.log[prev..if last - prev > MAX_BATCH then prev + MAX_BATCH else last]
  {}

  lemma RequestIs(p: Pair)
    requires Stable(p)
    ensures var req := Request(p); var last := |p.leader.log|;
            && req.prevLogIndex == Before(p) && req.term == p.leader.currentTerm
            && CutFrom(req, p.leader.log)
            && |req.entries| == (if last - Before(p) > MAX_BATCH then MAX_BATCH else last - Before(p))
  {
    RequestEntries(p);
  }

  lemma {:induction false} NoClash(log: seq<Entry>, term: nat, prev: nat, entries: seq<Entry>, i: nat)
    requires i <= |entries|
    ensures Splice(log, 0, term, prev, entries, i).Spliced?
    decreases |entries| - i
  {
    if i < |entries| && prev + i + 1 <= |log| {
      NoClash(log, term, prev, entries, i + 1);
    }
  }

  lemma AcceptedIfHeld(n: NodeState, req: AppendRequest)
    requires req.term >= n.currentTerm && n.snapshotIndex == 0
    ensures Accepted(n, req) <==> HoldsPrevious(n, req)
    ensures HandleAppend(n, req).1.term == req.term
    ensures Accepted(n, req) ==> HandleAppend(n, req).1.matchIndex == req.prevLogIndex + |req.entries|
  {
    NoClash(n.log, n.snapshotTerm, req.prevLogIndex, req.entries, 0);
  }

  /** The follower accepts exactly the requests that go on from where it agrees with the leader. */
  lemma AcceptedIfSynced(p: Pair)
    requires Stable(p)
    ensures Accepted(p.follower, Request(p)) <==> Synced(p)
    ensures HandleAppend(p.follower, Request(p)).1.term == p.leader.currentTerm
    ensures Synced(p) ==> HandleAppend(p.follower, Request(p)).1.matchIndex == Before(p) + |Request(p).entries|
  {
    var req := Request(p);
    RequestIs(p);
    AcceptedIfHeld(p.follower, req);
    if Synced(p) && req.prevLogIndex > 0 {
      MatchesAt(p.follower, p.leader.log, req.prevLogIndex, req.prevLogIndex);
    }
    if HoldsPrevious(p.follower, req) {
      PreviousMatches(p.follower, req, p.leader.log);
    }
  }

  /** A cut log still matches as Raft logs do. */
  lemma CutComparable(n: NodeState, m: NodeState, theirs: seq<Entry>)
    requires n.snapshotIndex == 0 && m.snapshotIndex == 0 && Comparable(n, theirs) && m.log <= n.log
    ensures Comparable(m, theirs)
  {
    forall i: nat | 0 < i <= |m.log| && i <= |theirs| && m.log[i - 1].term == theirs[i - 1].term
      ensures Matches(m, theirs, i)
    {
      assert Matches(n, theirs, i);
      assert m.log[..i] == n.log[..i];
    }
  }

  lemma PrefixComparable(m: NodeState, theirs: seq<Entry>)
    requires m.snapshotIndex == 0 && m.log <= theirs
    ensures Comparable(m, theirs)
  {
    forall i: nat | 0 < i <= |m.log| ensures Matches(m, theirs, i) {
      assert m.log[..i] == theirs[0..i];
    }
  }

  lemma RejectedLog(n: NodeState, req: AppendRequest)
    requires req.term >= n.currentTerm && n.snapshotIndex == 0 && !HoldsPrevious(n, req)
    ensures var m := HandleAppend(n, req).0;
            && m.log == (if req.prevLogIndex <= |n.log| then n.log[..req.prevLogIndex - 1] else n.log)
            && m.snapshotIndex == 0 && m.currentTerm == req.term && m.id == n.id
  {}

  lemma AcceptedRest(n: NodeState, req: AppendRequest)
    requires req.term >= n.currentTerm && n.snapshotIndex == 0
    ensures var m := HandleAppend(n, req).0;
            m.snapshotIndex == 0 && m.currentTerm == req.term && m.id == n.id
  {}

  /** The follower after the leader's next request. */
  function FollowerAfter(p: Pair): NodeState {
    HandleAppend(p.follower, Request(p)).0
  }

  lemma SplicedFollower(p: Pair, upTo: nat)
    requires Synced(p)
    ensures var f := FollowerAfter(p); var theirs := p.leader.log;
            && Comparable(f, theirs)
            && Matches(f, theirs, Before(p) + |Request(p).entries|)
            && (Matches(p.follower, theirs, upTo) ==> Matches(f, theirs, upTo))
  {
    SyncedFacts(p);
    hide *;
    RequestIs(p);
    AcceptedIfSynced(p);
    SplicedNode(p.follower, Request(p), p.leader.log, upTo);
  }

  lemma SyncedFacts(p: Pair)
    requires Stable(p)
    ensures Comparable(p.follower, p.leader.log) && p.follower.snapshotIndex == 0
    ensures FollowerAfter(p) == HandleAppend(p.follower, Request(p)).0
  {}

  lemma SplicedNode(n: NodeState, req: AppendRequest, theirs: seq<Entry>, upTo: nat)
    requires Comparable(n, theirs) && CutFrom(req, theirs) && Accepted(n, req) && n.snapshotIndex == 0
    ensures var f := HandleAppend(n, req).0;
            && Comparable(f, theirs) && Matches(f, theirs, req.prevLogIndex + |req.entries|)
            && (Matches(n, theirs, upTo) ==> Matches(f, theirs, upTo))
  {
    var covered := req.prevLogIndex + |req.entries|;
    HandledLogIs(n, req, theirs);
    hide HandleAppend, Comparable, Matches;
    KeptBySplice(n, HandleAppend(n, req).0, theirs, covered, upTo);
    SplicedComparable(n, HandleAppend(n, req).0, theirs, covered);
  }

  lemma SplicedComparable(n: NodeState, m: NodeState, theirs: seq<Entry>, upTo: nat)
    requires n.snapshotIndex == 0 && m.snapshotIndex == 0 && upTo <= |theirs| && Comparable(n, theirs)
    requires m.log == if Matches(n, theirs, upTo) then n.log else theirs[0..upTo]
    ensures Comparable(m, theirs)
  {
    if Matches(n, theirs, upTo) {
      CutComparable(n, m, theirs);
    } else {
      PrefixComparable(m, theirs);
    }
  }

  lemma RejectedFollower(p: Pair, upTo: nat)
    requires Stable(p) && !Synced(p)
    ensures var f := FollowerAfter(p); var theirs := p.leader.log;
            Comparable(f, theirs) && (Matches(p.follower, theirs, upTo) ==> Matches(f, theirs, upTo))
  {
    RequestIs(p);
    NotHeld(p);
    RejectedLog(p.follower, Request(p));
    CutComparable(p.follower, FollowerAfter(p), p.leader.log);
    if Matches(p.follower, p.leader.log, upTo) {
      KeptByCut(p, upTo);
    }
  }

  /** However the request ends, the follower stays comparable and keeps what it has of the leader's log. */
  lemma FollowerStays(p: Pair, upTo: nat)
    requires Stable(p)
    ensures var f := FollowerAfter(p);
            && f.snapshotIndex == 0 && f.currentTerm == p.leader.currentTerm && f.id == p.follower.id
            && Comparable(f, p.leader.log)
            && (Matches(p.follower, p.leader.log, upTo) ==> Matches(f, p.leader.log, upTo))
  {
    RequestIs(p);
    AcceptedRest(p.follower, Request(p));
    if Synced(p) {
      SplicedFollower(p, upTo);
    } else {
      RejectedFollower(p, upTo);
    }
  }

  lemma NotHeld(p: Pair)
    requires Stable(p) && !Synced(p)
    ensures !HoldsPrevious(p.follower, Request(p)) && Next(p) > 1
  {
    RequestIs(p);
    if HoldsPrevious(p.follower, Request(p)) {
      PreviousMatches(p.follower, Request(p), p.leader.log);
    }
  }

  /** A rejection cuts nothing that matches. */
  lemma KeptByCut(p: Pair, upTo: nat)
    requires Stable(p) && !Synced(p) && Matches(p.follower, p.leader.log, upTo)
    ensures Matches(FollowerAfter(p), p.leader.log, upTo)
  {
    var req := Request(p);
    RequestIs(p);
    NotHeld(p);
    RejectedLog(p.follower, req);
    assert upTo < req.prevLogIndex by {
      if upTo >= req.prevLogIndex {
        MatchesDown(p.follower, p.leader.log, req.prevLogIndex, upTo);
      }
    }
    var f := HandleAppend(p.follower, req).0;
    assert f.log[..upTo] == p.follower.log[..upTo];
  }

  // ---------- One turn ----------

  /** What a reply does at the leader. */
  lemma LeaderStays(p: Pair, reply: AppendReply)
    requires Stable(p) && reply.term == p.leader.currentTerm
    ensures var l := HandleAppendReply(p.leader, p.follower.id, reply);
            && l.role == Leader && l.log == p.leader.log && l.snapshotIndex == 0
            && l.currentTerm == p.leader.currentTerm
            && Lookup(l.nextIndex, p.follower.id) == (if reply.success then reply.matchIndex + 1
                                                      else if Next(p) > 1 then Next(p) / 2 else Next(p))
  {}

  lemma TurnIsStable(p: Pair, d: Delivery)
    requires Stable(p)
    ensures Stable(Turn(p, d)) && Turn(p, d).leader.log == p.leader.log
    ensures d != Delivered ==> Next(Turn(p, d)) == Next(p)
    ensures d == Delivered && !Synced(p) ==> Next(Turn(p, d)) == Next(p) / 2
    ensures d == Delivered && Synced(p) ==> Next(Turn(p, d)) == Before(p) + |Request(p).entries| + 1
  {
    FollowerStays(p, 0);
    AcceptedIfSynced(p);
    RequestIs(p);
    LeaderStays(p, HandleAppend(p.follower, Request(p)).1);
    if !Synced(p) {
      NotHeld(p);
    }
  }

  lemma SyncedIs(p: Pair, upTo: nat)
    requires Stable(p) && Next(p) == upTo + 1 && Matches(p.follower, p.leader.log, upTo)
    ensures Synced(p)
  {}

  lemma TurnFollower(p: Pair)
    requires Synced(p)
    ensures Stable(p) && Turn(p, Delivered).follower == FollowerAfter(p)
  {
    hide HandleAppend, HandleAppendReply, Request, Matches, Comparable;
  }

  lemma DeliveredStaysSynced(p: Pair)
    requires Synced(p)
    ensures Synced(Turn(p, Delivered))
  {
    TurnFollower(p);
    hide *;
    TurnIsStable(p, Delivered);
    SplicedFollower(p, 0);
    SyncedIs(Turn(p, Delivered), Before(p) + |Request(p).entries|);
  }

  /** Acceptance is not lost again. */
  lemma SyncedStays(p: Pair, d: Delivery)
    requires Synced(p)
    ensures Synced(Turn(p, d))
  {
    if d == Delivered {
      DeliveredStaysSynced(p);
    } else {
      TurnIsStable(p, d);
      FollowerStays(p, Before(p));
    }
  }

  lemma BatchesFewer(left: nat, sent: nat)
    requires sent <= left && (sent == left || sent == MAX_BATCH)
    ensures left > 0 ==> Batches(left - sent) < Batches(left)
  {}

  lemma BatchesMonotone(a: nat, b: nat)
    requires a <= b
    ensures Batches(a) <= Batches(b)
  {}

  /** Every turn that is delivered shortens the way, until nothing is left; a turn that is lost does not lengthen
      it. */
  lemma TurnShortens(p: Pair, d: Delivery)
    requires Stable(p)
    ensures Stable(Turn(p, d)) && Left(Turn(p, d)) <= Left(p)
    ensures d == Delivered && Left(p) > 0 ==> Left(Turn(p, d)) < Left(p)
    ensures Refusals(Turn(p, d)) + (if IsRejection(p, d) then 1 else 0) <= Refusals(p)
  {
    var q := Turn(p, d);
    TurnIsStable(p, d);
    AcceptedIfSynced(p);
    RequestIs(p);
    if Synced(p) {
      SyncedStays(p, d);
      BatchesFewer(|p.leader.log| - Before(p), |Request(p).entries|);
    } else {
      NotHeld(p);
      BatchesMonotone(|q.leader.log| - Before(q), |q.leader.log|);
    }
  }

  lemma LeftNoneIsCaughtUp(p: Pair)
    requires Stable(p)
    ensures Left(p) == 0 ==> CaughtUp(p) && Synced(p)
  {
    if !Synced(p) {
      NotHeld(p);
    } else if Before(p) == |p.leader.log| {
      assert p.leader.log[0..|p.leader.log|] == p.leader.log;
    }
  }

  // ---------- Whole schedules ----------

  lemma {:induction false} TurnsShorten(p: Pair, schedule: seq<Delivery>)
    requires Stable(p)
    ensures Stable(Turns(p, schedule))
    ensures Left(Turns(p, schedule)) + DeliveredCount(schedule) <= Left(p) || Left(Turns(p, schedule)) == 0
    ensures Left(Turns(p, schedule)) <= Left(p)
    decreases |schedule|
  {
    if schedule != [] {
      TurnShortens(p, schedule[0]);
      TurnsShorten(Turn(p, schedule[0]), schedule[1..]);
    }
  }

  /** Before the first acceptance the leader hears at most floor(log2(nextIndex)) rejections, and after it none. */
  lemma {:induction false} RejectionsBounded(p: Pair, schedule: seq<Delivery>)
    requires Stable(p)
    ensures Rejections(p, schedule) <= Log2(Next(p))
    ensures Synced(p) ==> Rejections(p, schedule) == 0
    ensures Rejections(p, schedule) <= Refusals(p)
    decreases |schedule|
  {
    if schedule != [] {
      TurnShortens(p, schedule[0]);
      RejectionsBounded(Turn(p, schedule[0]), schedule[1..]);
    }
  }

  /** Whatever is lost, after floor(log2(nextIndex)) delivered turns and one more for each batch of the leader's
      log, the follower has the leader's log, and it keeps it. */
  lemma Converges(p: Pair, schedule: seq<Delivery>)
    requires Stable(p) && DeliveredCount(schedule) >= Log2(Next(p)) + Batches(|p.leader.log|)
    ensures CaughtUp(Turns(p, schedule)) && Synced(Turns(p, schedule))
    ensures Turns(p, schedule).leader.log == p.leader.log
  {
    TurnsShorten(p, schedule);
    BatchesMonotone(|p.leader.log| - Before(p), |p.leader.log|);
    LeftNoneIsCaughtUp(Turns(p, schedule));
    LeaderLogStays(p, schedule);
  }

  lemma {:induction false} LeaderLogStays(p: Pair, schedule: seq<Delivery>)
    requires Stable(p)
    ensures Turns(p, schedule).leader.log == p.leader.log
    decreases |schedule|
  {
    if schedule != [] {
      TurnIsStable(p, schedule[0]);
      LeaderLogStays(Turn(p, schedule[0]), schedule[1..]);
    }
  }
}
