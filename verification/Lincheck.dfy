/** Linearizability of single-key register histories: what it means, and how the checker's search sees it. */
module Lincheck {
  // Time is a natural number; zero is the checker's initial cursor, the zero time.

  datatype OpKind = Write | Read

  datatype Op = Op(client: int, kind: OpKind, key: string, value: string, start: nat, end: nat)

  datatype Option<+T> = None | Some(value: T)

  // ---------- Linearizability ----------

  predicate InRange(ops: seq<Op>, order: seq<nat>) {
    forall k :: 0 <= k < |order| ==> order[k] < |ops|
  }

  predicate NoRepeats(order: seq<nat>) {
    forall j, k :: 0 <= j < k < |order| ==> order[j] != order[k]
  }

  /** Every operation once. */
  predicate Arranges(ops: seq<Op>, order: seq<nat>) {
    InRange(ops, order) && NoRepeats(order) && |order| == |ops|
  }

  /** The value of the latest write. */
  function Written(ops: seq<Op>, order: seq<nat>): Option<string>
    requires InRange(ops, order)
  {
    if order == [] then None
    else
      var op := ops[order[|order| - 1]];
      if op.kind == Write then Some(op.value) else Written(ops, order[..|order| - 1])
  }

  function Content(written: Option<string>): string {
    if written.Some? then written.value else ""
  }

  /** The value test: a read returns the latest write among these operations, or the empty initial value. */
  predicate ReadsRight(ops: seq<Op>, order: seq<nat>, i: nat)
    requires InRange(ops, order) && i < |ops|
  {
    ops[i].kind == Read ==> ops[i].value == Content(Written(ops, order))
  }

  predicate ReadAt(ops: seq<Op>, order: seq<nat>, k: nat)
    requires InRange(ops, order)
  {
    k < |order| ==> ReadsRight(ops, order[..k], order[k])
  }

  /** Every read returns the latest earlier write, or the empty initial value. */
  ghost predicate ReadsLatest(ops: seq<Op>, order: seq<nat>)
    requires InRange(ops, order)
  {
    forall k :: ReadAt(ops, order, k)
  }

  /** Operations of one client take effect in the order in which the client started them. */
  predicate KeepsClientOrder(ops: seq<Op>, order: seq<nat>)
    requires InRange(ops, order)
  {
    forall j, k :: 0 <= j < k < |order| && ops[order[j]].client == ops[order[k]].client ==>
                     ops[order[j]].start <= ops[order[k]].start
  }

  /** Linearization points in the order of the operations, each in its operation's window. */
  predicate PointsFit(ops: seq<Op>, order: seq<nat>, points: seq<nat>)
    requires InRange(ops, order)
  {
    && |points| == |order|
    && (forall j, k :: 0 <= j < k < |points| ==> points[j] <= points[k])
    && (forall k :: 0 <= k < |points| ==> ops[order[k]].start <= points[k] <= ops[order[k]].end)
  }

  ghost predicate Feasible(ops: seq<Op>, order: seq<nat>)
    requires InRange(ops, order)
  {
    exists points :: PointsFit(ops, order, points)
  }

  ghost predicate Linearizes(ops: seq<Op>, order: seq<nat>) {
    Arranges(ops, order) && Feasible(ops, order) && KeepsClientOrder(ops, order) && ReadsLatest(ops, order)
  }

  ghost predicate Linearizable(ops: seq<Op>) {
    exists order :: Linearizes(ops, order)
  }

  /** Each client starts its operations at different times. */
  predicate DistinctStarts(ops: seq<Op>) {
    forall i, j :: 0 <= i < j < |ops| && ops[i].client == ops[j].client ==> ops[i].start != ops[j].start
  }

  // ---------- The greedy cursor ----------

  /** The checker's cursor: each operation takes effect as early as the order and its start allow. */
  function Cursor(ops: seq<Op>, order: seq<nat>): nat
    requires InRange(ops, order)
  {
    if order == [] then 0
    else
      var before := Cursor(ops, order[..|order| - 1]);
      var start := ops[order[|order| - 1]].start;
      if start > before then start else before
  }

  predicate FitsAt(ops: seq<Op>, order: seq<nat>, k: nat)
    requires InRange(ops, order)
  {
    k < |order| ==> Cursor(ops, order[..k + 1]) <= ops[order[k]].end
  }

  /** The checker's window test, at each step of the order. */
  ghost predicate GreedyFits(ops: seq<Op>, order: seq<nat>)
    requires InRange(ops, order)
  {
    forall k :: FitsAt(ops, order, k)
  }

  /** No operation is placed after one that started only when it had ended: the precedence of Herlihy and Wing. */
  predicate RespectsRealTime(ops: seq<Op>, order: seq<nat>)
    requires InRange(ops, order)
  {
    forall j, k :: 0 <= j <= k < |order| ==> ops[order[j]].start <= ops[order[k]].end
  }

  /** The cursor is the latest start so far. */
  lemma {:induction false} CursorIsLatestStart(ops: seq<Op>, order: seq<nat>)
    requires InRange(ops, order)
    ensures forall j :: 0 <= j < |order| ==> ops[order[j]].start <= Cursor(ops, order)
    ensures order != [] ==> exists j :: 0 <= j < |order| && ops[order[j]].start == Cursor(ops, order)
  {
    if order != [] {
      var last := |order| - 1;
      CursorIsLatestStart(ops, order[..last]);
      assert forall j :: 0 <= j < last ==> order[..last][j] == order[j];
      if Cursor(ops, order) != ops[order[last]].start && last > 0 {
        var j :| 0 <= j < last && ops[order[..last][j]].start == Cursor(ops, order[..last]);
        assert ops[order[j]].start == Cursor(ops, order);
      }
    }
  }

  lemma FitsIsRealTime(ops: seq<Op>, order: seq<nat>, k: nat)
    requires InRange(ops, order) && k < |order|
    ensures FitsAt(ops, order, k) <==> forall j :: 0 <= j <= k ==> ops[order[j]].start <= ops[order[k]].end
  {
    var upTo := order[..k + 1];
    CursorIsLatestStart(ops, upTo);
    assert forall j :: 0 <= j <= k ==> upTo[j] == order[j];
  }

  lemma GreedyIsRealTime(ops: seq<Op>, order: seq<nat>)
    requires InRange(ops, order)
    ensures GreedyFits(ops, order) <==> RespectsRealTime(ops, order)
  {
    forall k: nat | k < |order|
      ensures FitsAt(ops, order, k) <==> forall j :: 0 <= j <= k ==> ops[order[j]].start <= ops[order[k]].end
    {
      FitsIsRealTime(ops, order, k);
    }
    if RespectsRealTime(ops, order) {
      forall k: nat ensures FitsAt(ops, order, k) {}
    }
  }

  lemma CursorInWindow(ops: seq<Op>, order: seq<nat>, k: nat)
    requires InRange(ops, order) && RespectsRealTime(ops, order) && k < |order|
    ensures ops[order[k]].start <= Cursor(ops, order[..k + 1]) <= ops[order[k]].end
  {
    var upTo := order[..k + 1];
    CursorIsLatestStart(ops, upTo);
    var j :| 0 <= j <= k && ops[upTo[j]].start == Cursor(ops, upTo);
    assert upTo[j] == order[j] && upTo[k] == order[k];
  }

  lemma CursorRises(ops: seq<Op>, order: seq<nat>, j: nat, k: nat)
    requires InRange(ops, order) && j < k < |order|
    ensures Cursor(ops, order[..j + 1]) <= Cursor(ops, order[..k + 1])
  {
    var a, b := order[..j + 1], order[..k + 1];
    CursorIsLatestStart(ops, a);
    CursorIsLatestStart(ops, b);
    var i :| 0 <= i <= j && ops[a[i]].start == Cursor(ops, a);
    assert a[i] == b[i];
  }

  lemma RealTimeGivesPoints(ops: seq<Op>, order: seq<nat>)
    requires InRange(ops, order) && RespectsRealTime(ops, order)
    ensures Feasible(ops, order)
  {
    var points := seq(|order|, k requires 0 <= k < |order| => Cursor(ops, order[..k + 1]));
    hide Cursor;
    forall k: nat | k < |order| ensures ops[order[k]].start <= points[k] <= ops[order[k]].end {
      CursorInWindow(ops, order, k);
    }
    forall j: nat, k: nat | j < k < |order| ensures points[j] <= points[k] {
      CursorRises(ops, order, j, k);
    }
    assert PointsFit(ops, order, points);
  }

  /** The greedy cursor loses nothing: an order has points in all windows exactly when the window test passes at
      each step, and exactly when the order respects real time. */
  lemma WindowTestExact(ops: seq<Op>, order: seq<nat>)
    requires InRange(ops, order)
    ensures Feasible(ops, order) <==> GreedyFits(ops, order)
    ensures Feasible(ops, order) <==> RespectsRealTime(ops, order)
  {
    GreedyIsRealTime(ops, order);
    if RespectsRealTime(ops, order) {
      RealTimeGivesPoints(ops, order);
    }
    if Feasible(ops, order) {
      var points :| PointsFit(ops, order, points);
      forall j, k | 0 <= j <= k < |order| ensures ops[order[j]].start <= ops[order[k]].end {
        assert points[j] <= points[k];
      }
    }
  }

  // ---------- The orders that the search builds ----------

  /** For each client its operations, in the order in which the search must place them. */
  type ClientOrder = map<int, seq<nat>>

  function ListOf(next: ClientOrder, client: int): seq<nat> {
    if client in next then next[client] else []
  }

  predicate Listed(ops: seq<Op>, next: ClientOrder, i: nat) {
    i < |ops| ==> i in ListOf(next, ops[i].client)
  }

  /** The operations of one client, none of them twice. */
  predicate IsListFor(ops: seq<Op>, client: int, list: seq<nat>) {
    && InRange(ops, list) && NoRepeats(list)
    && forall k :: 0 <= k < |list| ==> ops[list[k]].client == client
  }

  predicate SortedByStart(ops: seq<Op>, list: seq<nat>)
    requires InRange(ops, list)
  {
    forall j, k :: 0 <= j < k < |list| ==> ops[list[j]].start <= ops[list[k]].start
  }

  ghost predicate IsClientOrder(ops: seq<Op>, next: ClientOrder) {
    && (forall i :: Listed(ops, next, i))
    && (forall c :: IsListFor(ops, c, ListOf(next, c)))
  }

  ghost predicate IsSortedClientOrder(ops: seq<Op>, next: ClientOrder) {
    IsClientOrder(ops, next) && forall c :: SortedByStart(ops, ListOf(next, c))
  }

  /** How many operations of a client have been placed. */
  function Placed(ops: seq<Op>, order: seq<nat>, client: int): nat
    requires InRange(ops, order)
  {
    if order == [] then 0
    else
      Placed(ops, order[..|order| - 1], client) + if ops[order[|order| - 1]].client == client then 1 else 0
  }

  /** The tests that make an operation a candidate: not placed, its client's turn, and in its window. */
  predicate IsCandidate(ops: seq<Op>, next: ClientOrder, order: seq<nat>, i: nat)
    requires InRange(ops, order)
  {
    && i < |ops| && i !in order
    && (var turn := Placed(ops, order, ops[i].client); var list := ListOf(next, ops[i].client);
        turn < |list| ==> list[turn] == i)
    && Cursor(ops, order) <= ops[i].end && ops[i].start <= ops[i].end
  }

  predicate Extends(ops: seq<Op>, next: ClientOrder, order: seq<nat>, i: nat)
    requires InRange(ops, order)
  {
    IsCandidate(ops, next, order, i) && ReadsRight(ops, order, i)
  }

  predicate LegalAt(ops: seq<Op>, next: ClientOrder, order: seq<nat>, k: nat)
    requires InRange(ops, order)
  {
    k < |order| ==> Extends(ops, next, order[..k], order[k])
  }

  /** An order built one legal step at a time. */
  ghost predicate Legal(ops: seq<Op>, next: ClientOrder, order: seq<nat>) {
    InRange(ops, order) && forall k :: LegalAt(ops, next, order, k)
  }

  lemma LegalStep(ops: seq<Op>, next: ClientOrder, order: seq<nat>, i: nat)
    requires Legal(ops, next, order) && Extends(ops, next, order, i)
    ensures Legal(ops, next, order + [i])
  {
    var more := order + [i];
    forall k: nat ensures LegalAt(ops, next, more, k) {
      assert LegalAt(ops, next, order, k);
      if k < |order| {
        assert more[..k] == order[..k];
      } else if k == |order| {
        assert more[..k] == order;
      }
    }
  }

  lemma LegalPrefix(ops: seq<Op>, next: ClientOrder, order: seq<nat>, n: nat)
    requires Legal(ops, next, order) && n <= |order|
    ensures Legal(ops, next, order[..n])
  {
    forall k: nat ensures LegalAt(ops, next, order[..n], k) {
      assert LegalAt(ops, next, order, k);
      if k < n {
        assert order[..n][..k] == order[..k];
      }
    }
  }

  lemma LegalIsDistinct(ops: seq<Op>, next: ClientOrder, order: seq<nat>)
    requires Legal(ops, next, order)
    ensures NoRepeats(order)
  {
    forall j, k | 0 <= j < k < |order| ensures order[j] != order[k] {
      assert LegalAt(ops, next, order, k);
      assert order[..k][j] == order[j];
    }
  }
}
