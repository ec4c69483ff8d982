/** The orders that the search can complete are the linearizations that follow the sorted client lists. */
module LincheckExact {
  import opened Lincheck

  // ---------- Turns ----------

  lemma {:induction false} PlacedGrows(ops: seq<Op>, order: seq<nat>, j: nat, k: nat, client: int)
    requires InRange(ops, order) && j <= k <= |order|
    ensures Placed(ops, order[..j], client) <= Placed(ops, order[..k], client)
    decreases k
  {
    if j < k {
      PlacedGrows(ops, order, j, k - 1, client);
      assert order[..k][..k - 1] == order[..k - 1];
    }
  }

  lemma PlacedNext(ops: seq<Op>, order: seq<nat>, k: nat, client: int)
    requires InRange(ops, order) && k < |order|
    ensures Placed(ops, order[..k + 1], client)
            == Placed(ops, order[..k], client) + if ops[order[k]].client == client then 1 else 0
  {
    assert order[..k + 1][..k] == order[..k];
  }

  lemma TurnsRise(ops: seq<Op>, order: seq<nat>, j: nat, k: nat)
    requires InRange(ops, order) && j < k < |order|
    ensures var c := ops[order[j]].client; Placed(ops, order[..j], c) < Placed(ops, order[..k], c)
  {
    var c := ops[order[j]].client;
    PlacedNext(ops, order, j, c);
    PlacedGrows(ops, order, j + 1, k, c);
  }

  /** The placed operations of a client are the first ones of its list. */
  ghost predicate FirstOfList(ops: seq<Op>, next: ClientOrder, order: seq<nat>, client: int)
    requires InRange(ops, order)
  {
    var list, turn := ListOf(next, client), Placed(ops, order, client);
    && turn <= |list|
    && (forall a :: 0 <= a < turn ==> list[a] in order)
    && (forall x :: x in order && ops[x].client == client ==> x in list[..turn])
  }

  /** A candidate is the next operation of its client's list. */
  lemma CandidateIsNext(ops: seq<Op>, next: ClientOrder, order: seq<nat>, i: nat)
    requires IsClientOrder(ops, next) && InRange(ops, order) && IsCandidate(ops, next, order, i)
    requires FirstOfList(ops, next, order, ops[i].client)
    ensures var list := ListOf(next, ops[i].client); var turn := Placed(ops, order, ops[i].client);
            turn < |list| && list[turn] == i
  {
    assert Listed(ops, next, i);
  }

  lemma OwnTurn(ops: seq<Op>, list: seq<nat>, order: seq<nat>, i: nat, turn: nat, client: int)
    requires InRange(ops, order) && i < |ops| && turn < |list| && list[turn] == i
    requires forall a :: 0 <= a < turn ==> list[a] in order
    requires forall x :: x in order && ops[x].client == client ==> x in list[..turn]
    ensures forall a :: 0 <= a < turn + 1 ==> list[a] in order + [i]
    ensures forall x :: x in order + [i] && ops[x].client == client ==> x in list[..turn + 1]
  {
    assert list[..turn + 1] == list[..turn] + [i];
  }

  lemma TakesATurn(ops: seq<Op>, next: ClientOrder, order: seq<nat>, i: nat, client: int)
    requires IsClientOrder(ops, next) && InRange(ops, order) && IsCandidate(ops, next, order, i)
    requires FirstOfList(ops, next, order, client)
    ensures FirstOfList(ops, next, order + [i], client)
  {
    hide Cursor, IsClientOrder;
    var more := order + [i];
    assert more[..|order|] == order && more[..|more|] == more;
    PlacedNext(ops, more, |order|, client);
    hide Placed;
    if ops[i].client == client {
      CandidateIsNext(ops, next, order, i);
      OwnTurn(ops, ListOf(next, client), order, i, Placed(ops, order, client), client);
    }
  }

  lemma {:induction false} LegalTakesTurns(ops: seq<Op>, next: ClientOrder, order: seq<nat>, client: int)
    requires IsClientOrder(ops, next) && Legal(ops, next, order)
    ensures FirstOfList(ops, next, order, client)
  {
    if order != [] {
      hide FirstOfList, IsClientOrder, IsCandidate;
      var last := |order| - 1;
      LegalPrefix(ops, next, order, last);
      LegalTakesTurns(ops, next, order[..last], client);
      assert LegalAt(ops, next, order, last);
      TakesATurn(ops, next, order[..last], order[last], client);
      assert order == order[..last] + [order[last]];
    }
  }

  /** The operation at each position was next in its client's list. */
  lemma TurnAt(ops: seq<Op>, next: ClientOrder, order: seq<nat>, k: nat)
    requires IsClientOrder(ops, next) && Legal(ops, next, order) && k < |order|
    ensures var c := ops[order[k]].client; var turn := Placed(ops, order[..k], c);
            turn < |ListOf(next, c)| && ListOf(next, c)[turn] == order[k]
  {
    LegalPrefix(ops, next, order, k);
    LegalTakesTurns(ops, next, order[..k], ops[order[k]].client);
    assert LegalAt(ops, next, order, k);
    CandidateIsNext(ops, next, order[..k], order[k]);
  }

  // ---------- Complete legal orders are linearizations ----------

  lemma LegalFits(ops: seq<Op>, next: ClientOrder, order: seq<nat>)
    requires Legal(ops, next, order)
    ensures GreedyFits(ops, order) && ReadsLatest(ops, order)
  {
    forall k: nat ensures FitsAt(ops, order, k) && ReadAt(ops, order, k) {
      assert LegalAt(ops, next, order, k);
      if k < |order| {
        assert order[..k + 1][..k] == order[..k];
      }
    }
  }

  /** Each client's operations appear in the order of its list. */
  ghost predicate FollowsLists(ops: seq<Op>, next: ClientOrder, order: seq<nat>) {
    forall c: int, a: nat, b: nat, j: nat, k: nat
      {:trigger ListOf(next, c)[a], ListOf(next, c)[b], order[j], order[k]} ::
      (a < b < |ListOf(next, c)| && j < |order| && k < |order|
       && order[j] == ListOf(next, c)[a] && order[k] == ListOf(next, c)[b]) ==> j < k
  }

  lemma LegalFollowsLists(ops: seq<Op>, next: ClientOrder, order: seq<nat>)
    requires IsClientOrder(ops, next) && Legal(ops, next, order)
    ensures FollowsLists(ops, next, order)
  {
    forall c: int, a: nat, b: nat, j: nat, k: nat
      | a < b < |ListOf(next, c)| && j < |order| && k < |order|
        && order[j] == ListOf(next, c)[a] && order[k] == ListOf(next, c)[b]
      ensures j < k
    {
      assert IsListFor(ops, c, ListOf(next, c));
      TurnAt(ops, next, order, j);
      TurnAt(ops, next, order, k);
      if k < j {
        TurnsRise(ops, order, k, j);
      }
    }
  }

  lemma SortedTurns(ops: seq<Op>, next: ClientOrder, c: int, a: nat, b: nat)
    requires IsSortedClientOrder(ops, next) && a < b < |ListOf(next, c)|
    ensures InRange(ops, ListOf(next, c)) && ops[ListOf(next, c)[a]].start <= ops[ListOf(next, c)[b]].start
  {
    assert SortedByStart(ops, ListOf(next, c));
  }

  lemma LegalPairInOrder(ops: seq<Op>, next: ClientOrder, order: seq<nat>, j: nat, k: nat)
    requires IsSortedClientOrder(ops, next) && Legal(ops, next, order) && j < k < |order|
    requires ops[order[j]].client == ops[order[k]].client
    ensures ops[order[j]].start <= ops[order[k]].start
  {
    var c := ops[order[j]].client;
    TurnAt(ops, next, order, j);
    TurnAt(ops, next, order, k);
    TurnsRise(ops, order, j, k);
    SortedTurns(ops, next, c, Placed(ops, order[..j], c), Placed(ops, order[..k], c));
  }

  lemma LegalKeepsClientOrder(ops: seq<Op>, next: ClientOrder, order: seq<nat>)
    requires IsSortedClientOrder(ops, next) && Legal(ops, next, order)
    ensures KeepsClientOrder(ops, order)
  {
    forall j: nat, k: nat | j < k < |order| && ops[order[j]].client == ops[order[k]].client
      ensures ops[order[j]].start <= ops[order[k]].start
    {
      LegalPairInOrder(ops, next, order, j, k);
    }
  }

  lemma LegalLinearizes(ops: seq<Op>, next: ClientOrder, order: seq<nat>)
    requires IsSortedClientOrder(ops, next) && Legal(ops, next, order) && |order| == |ops|
    ensures Linearizes(ops, order) && FollowsLists(ops, next, order)
  {
    LegalIsDistinct(ops, next, order);
    LegalFits(ops, next, order);
    WindowTestExact(ops, order);
    LegalKeepsClientOrder(ops, next, order);
    LegalFollowsLists(ops, next, order);
  }

  // ---------- Linearizations are complete legal orders ----------

  function Upto(n: nat): (s: set<nat>)
    ensures |s| == n && forall i: nat :: i in s <==> i < n
  {
    if n == 0 then {} else Upto(n - 1) + {n - 1}
  }

  function Elements(order: seq<nat>): (s: set<nat>)
    ensures forall x: nat :: x in s <==> x in order
    ensures NoRepeats(order) ==> |s| == |order|
  {
    if order == [] then {}
    else
      var last := |order| - 1;
      assert order == order[..last] + [order[last]];
      Elements(order[..last]) + {order[last]}
  }

  lemma SubsetCardinality<T>(a: set<T>, b: set<T>)
    requires a <= b
    ensures |a| <= |b|
  {
    assert b == a + (b - a);
  }

  /** An arrangement leaves no operation out. */
  lemma ArrangementIsComplete(ops: seq<Op>, order: seq<nat>, i: nat)
    requires Arranges(ops, order) && i < |ops|
    ensures i in order
  {
    if i !in order {
      SubsetCardinality(Elements(order), Upto(|ops|) - {i});
    }
  }

  lemma EarlierArePlaced(ops: seq<Op>, next: ClientOrder, order: seq<nat>, k: nat, c: int, a: nat, b: nat)
    requires Arranges(ops, order) && FollowsLists(ops, next, order) && k < |order|
    requires a < b < |ListOf(next, c)| && order[k] == ListOf(next, c)[b] && ListOf(next, c)[a] < |ops|
    ensures ListOf(next, c)[a] in order[..k]
  {
    var x := ListOf(next, c)[a];
    ArrangementIsComplete(ops, order, x);
    var m: nat :| m < |order| && order[m] == x;
    assert order[..k][m] == x;
  }

  lemma PlacedAreFirst(ops: seq<Op>, next: ClientOrder, order: seq<nat>, c: int, a: nat)
    requires IsClientOrder(ops, next) && InRange(ops, order) && FirstOfList(ops, next, order, c)
    requires a < |ListOf(next, c)|
    ensures ListOf(next, c)[a] in order <==> a < Placed(ops, order, c)
  {
    assert IsListFor(ops, c, ListOf(next, c));
    var list, turn := ListOf(next, c), Placed(ops, order, c);
    if list[a] in order {
      var b :| 0 <= b < turn && list[..turn][b] == list[a];
      assert list[b] == list[a];
    }
  }

  lemma EarlierTurn(ops: seq<Op>, next: ClientOrder, order: seq<nat>, k: nat, c: int, a: nat, b: nat)
    requires IsClientOrder(ops, next) && Arranges(ops, order) && FollowsLists(ops, next, order) && k < |order|
    requires FirstOfList(ops, next, order[..k], c) && a < b < |ListOf(next, c)| && order[k] == ListOf(next, c)[b]
    ensures a < Placed(ops, order[..k], c)
  {
    assert IsListFor(ops, c, ListOf(next, c));
    EarlierArePlaced(ops, next, order, k, c, a, b);
    PlacedAreFirst(ops, next, order[..k], c, a);
  }

  /** With the earlier operations placed, the next one of an arrangement that follows the lists is next in its
      client's list. */
  lemma NextInLine(ops: seq<Op>, next: ClientOrder, order: seq<nat>, k: nat)
    requires IsClientOrder(ops, next) && Arranges(ops, order) && FollowsLists(ops, next, order) && k < |order|
    requires FirstOfList(ops, next, order[..k], ops[order[k]].client)
    ensures var c := ops[order[k]].client; var turn := Placed(ops, order[..k], c);
            turn < |ListOf(next, c)| && ListOf(next, c)[turn] == order[k]
  {
    var c := ops[order[k]].client;
    var list, turn := ListOf(next, c), Placed(ops, order[..k], c);
    assert Listed(ops, next, order[k]);
    var b :| 0 <= b < |list| && list[b] == order[k];
    PlacedAreFirst(ops, next, order[..k], c, b);
    if turn < b {
      EarlierTurn(ops, next, order, k, c, turn, b);
    }
  }

  lemma NextIsCandidate(ops: seq<Op>, next: ClientOrder, order: seq<nat>, k: nat)
    requires IsClientOrder(ops, next) && Linearizes(ops, order) && FollowsLists(ops, next, order) && k < |order|
    requires FirstOfList(ops, next, order[..k], ops[order[k]].client)
    ensures Extends(ops, next, order[..k], order[k])
  {
    NextInLine(ops, next, order, k);
    WindowTestExact(ops, order);
    assert order[..k + 1][..k] == order[..k];
    assert FitsAt(ops, order, k) && ReadAt(ops, order, k);
    assert RespectsRealTime(ops, order);
  }

  lemma {:induction false} LinearizationIsLegal(ops: seq<Op>, next: ClientOrder, order: seq<nat>, k: nat)
    requires IsClientOrder(ops, next) && Linearizes(ops, order) && FollowsLists(ops, next, order) && k <= |order|
    ensures Legal(ops, next, order[..k])
    decreases k
  {
    if k > 0 {
      var last := k - 1;
      LinearizationIsLegal(ops, next, order, last);
      LegalTakesTurns(ops, next, order[..last], ops[order[last]].client);
      NextIsCandidate(ops, next, order, last);
      LegalStep(ops, next, order[..last], order[last]);
      assert order[..k] == order[..last] + [order[last]];
    }
  }

  /** A linearization follows the lists if no client starts two operations at one time. */
  lemma ListStartsRise(ops: seq<Op>, next: ClientOrder, c: int, a: nat, b: nat)
    requires IsSortedClientOrder(ops, next) && DistinctStarts(ops) && a < b < |ListOf(next, c)|
    ensures InRange(ops, ListOf(next, c))
    ensures var x, y := ListOf(next, c)[a], ListOf(next, c)[b];
            x != y && ops[x].client == c && ops[y].client == c && ops[x].start < ops[y].start
  {
    assert IsListFor(ops, c, ListOf(next, c));
    SortedTurns(ops, next, c, a, b);
  }

  lemma DistinctStartsFollow(ops: seq<Op>, next: ClientOrder, order: seq<nat>)
    requires IsSortedClientOrder(ops, next) && DistinctStarts(ops)
    requires InRange(ops, order) && KeepsClientOrder(ops, order)
    ensures FollowsLists(ops, next, order)
  {
    forall c: int, a: nat, b: nat, j: nat, k: nat
      | a < b < |ListOf(next, c)| && j < |order| && k < |order|
        && order[j] == ListOf(next, c)[a] && order[k] == ListOf(next, c)[b]
      ensures j < k
    {
      hide ListOf, IsSortedClientOrder, DistinctStarts;
      ListStartsRise(ops, next, c, a, b);
    }
  }

  // ---------- What the search looks for ----------

  /** Some order can be built to the end by legal steps. */
  ghost predicate Completable(ops: seq<Op>, next: ClientOrder) {
    exists order :: Legal(ops, next, order) && |order| == |ops|
  }

  ghost predicate LinearizableAlong(ops: seq<Op>, next: ClientOrder) {
    exists order :: Linearizes(ops, order) && FollowsLists(ops, next, order)
  }

  lemma CompleteIsLinearization(ops: seq<Op>, next: ClientOrder)
    requires IsSortedClientOrder(ops, next) && Completable(ops, next)
    ensures LinearizableAlong(ops, next)
  {
    var order :| Legal(ops, next, order) && |order| == |ops|;
    LegalLinearizes(ops, next, order);
  }

  lemma LinearizationIsComplete(ops: seq<Op>, next: ClientOrder)
    requires IsClientOrder(ops, next) && LinearizableAlong(ops, next)
    ensures Completable(ops, next)
  {
    var order :| Linearizes(ops, order) && FollowsLists(ops, next, order);
    hide FollowsLists, Legal, IsClientOrder;
    LinearizationIsLegal(ops, next, order, |order|);
    assert order[..|order|] == order;
  }

  lemma DistinctStartsSuffice(ops: seq<Op>, next: ClientOrder)
    requires IsSortedClientOrder(ops, next) && DistinctStarts(ops) && Linearizable(ops)
    ensures LinearizableAlong(ops, next)
  {
    var order :| Linearizes(ops, order);
    DistinctStartsFollow(ops, next, order);
  }

  /** The search space is exact: its complete orders are the linearizations that follow the sorted client lists,
      and these are all linearizations if no client starts two operations at one time. */
  lemma SearchSpaceExact(ops: seq<Op>, next: ClientOrder)
    requires IsSortedClientOrder(ops, next)
    ensures Completable(ops, next) <==> LinearizableAlong(ops, next)
    ensures DistinctStarts(ops) ==> (Completable(ops, next) <==> Linearizable(ops))
  {
    if Completable(ops, next) {
      CompleteIsLinearization(ops, next);
    }
    if LinearizableAlong(ops, next) {
      LinearizationIsComplete(ops, next);
    }
    if DistinctStarts(ops) && Linearizable(ops) {
      DistinctStartsSuffice(ops, next);
    }
  }

  // ---------- Tied starts ----------

  /** Two operations of one client with the same start: a write, and a read of the initial value. */
  const TIED: seq<Op> := [Op(0, Write, "k", "a", 0, 1), Op(0, Read, "k", "", 0, 1)]

  lemma TiedLinearizes()
    ensures Linearizes(TIED, [1, 0])
  {
    var order: seq<nat> := [1, 0];
    assert PointsFit(TIED, order, [0, 0]);
    assert order[..0] == [] && order[..1] == [1];
    forall k: nat ensures ReadAt(TIED, order, k) {
      if k < 2 {
        assert k == 0 || k == 1;
      }
    }
  }

  lemma TiedReadIsFirst(order: seq<nat>)
    requires Arranges(TIED, order)
    ensures ReadsLatest(TIED, order) ==> order == [1, 0]
  {
    assert ReadsLatest(TIED, order) ==> ReadAt(TIED, order, 1);
    if order[0] == 0 {
      assert order[1] == 1 && order[..1] == [0];
      assert Written(TIED, order[..1]) == Some("a");
      assert TIED[order[1]].kind == Read;
    }
  }

  lemma TiedReadIsLate(next: ClientOrder)
    requires next == map[0 := [0, 1]]
    ensures !FollowsLists(TIED, next, [1, 0])
  {
    var order: seq<nat>, list := [1, 0], ListOf(next, 0);
    assert order[1] == list[0] && order[0] == list[1];
  }

  lemma TiedListIsSorted(next: ClientOrder)
    requires next == map[0 := [0, 1]]
    ensures IsSortedClientOrder(TIED, next)
  {
    forall i: nat ensures Listed(TIED, next, i) {
      if i < 2 {
        assert TIED[i].client == 0 && ListOf(next, 0)[i] == i;
      }
    }
    forall c: int ensures IsListFor(TIED, c, ListOf(next, c)) && SortedByStart(TIED, ListOf(next, c)) {
      if c == 0 {
        assert ListOf(next, 0) == [0, 1];
      } else {
        assert ListOf(next, c) == [];
      }
    }
  }

  lemma TiedBlocked(next: ClientOrder)
    requires next == map[0 := [0, 1]]
    ensures !LinearizableAlong(TIED, next)
  {
    TiedReadIsLate(next);
    forall order | Linearizes(TIED, order) ensures order == [1, 0] {
      TiedReadIsFirst(order);
    }
  }

  /** When the starts of a client tie, the checker may miss a linearization: sorting by start may put the write
      first, and then no order that follows the lists has the read before it. */
  lemma TiedStartsMissed()
    ensures Linearizable(TIED) && !DistinctStarts(TIED)
    ensures var next: ClientOrder := map[0 := [0, 1]]; IsSortedClientOrder(TIED, next) && !Completable(TIED, next)
  {
    TiedLinearizes();
    var next: ClientOrder := map[0 := [0, 1]];
    TiedListIsSorted(next);
    TiedBlocked(next);
    SearchSpaceExact(TIED, next);
    assert TIED[0].start == TIED[1].start && TIED[0].client == TIED[1].client;
  }
}
