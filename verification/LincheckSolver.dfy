/** The checker: a backtracking search that changes four pieces of state and undoes the changes. */
module LincheckSolver {
  import opened Lincheck
  import opened LincheckExact
  import opened Sets

  // ---------- Sorting ----------

  predicate Ascending(list: seq<nat>, key: seq<nat>)
    requires Indexes(list, key)
  {
    forall j, k :: 0 <= j < k < |list| ==> key[list[j]] <= key[list[k]]
  }

  predicate SameElements(a: seq<nat>, b: seq<nat>) {
    |a| == |b| && (forall x :: x in a ==> x in b) && forall x :: x in b ==> x in a
  }

  lemma InsertedElements(list: seq<nat>, at: nat, x: nat)
    requires at <= |list| && x !in list && NoRepeats(list)
    ensures var r := list[..at] + [x] + list[at..];
            NoRepeats(r) && SameElements(r, list + [x])
  {
    var r := list[..at] + [x] + list[at..];
    assert r[at] == x && (list + [x])[|list|] == x;
    forall k | 0 <= k < |list|
      ensures (list + [x])[k] == list[k] == r[if k < at then k else k + 1]
    {}
  }

  predicate Indexes(list: seq<nat>, key: seq<nat>) {
    forall k :: 0 <= k < |list| ==> list[k] < |key|
  }

  /** The place for one more index among sorted ones. */
  method PlaceFor(sorted: seq<nat>, x: nat, key: seq<nat>) returns (at: nat)
    requires Indexes(sorted, key) && x < |key| && Ascending(sorted, key)
    ensures at <= |sorted|
    ensures forall k :: 0 <= k < at ==> key[sorted[k]] <= key[x]
    ensures forall k :: at <= k < |sorted| ==> key[sorted[k]] > key[x]
  {
    at := |sorted|;
    while at > 0 && key[sorted[at - 1]] > key[x]
      invariant 0 <= at <= |sorted|
      invariant forall k :: at <= k < |sorted| ==> key[sorted[k]] > key[x]
    {
      at := at - 1;
    }
  }

  lemma InsertedAscending(sorted: seq<nat>, at: nat, x: nat, key: seq<nat>)
    requires Indexes(sorted, key) && x < |key| && Ascending(sorted, key) && at <= |sorted|
    requires forall k :: 0 <= k < at ==> key[sorted[k]] <= key[x]
    requires forall k :: at <= k < |sorted| ==> key[sorted[k]] > key[x]
    ensures var r := sorted[..at] + [x] + sorted[at..]; Indexes(r, key) && Ascending(r, key)
  {}

  /** The sort that the checker calls, by a key of each index; indices with equal keys may come in any order. */
  method SortBy(list: seq<nat>, key: seq<nat>) returns (sorted: seq<nat>)
    requires NoRepeats(list) && Indexes(list, key)
    ensures NoRepeats(sorted) && SameElements(sorted, list)
    ensures Indexes(sorted, key) && Ascending(sorted, key)
  {
    sorted := [];
    for i := 0 to |list|
      invariant NoRepeats(sorted) && SameElements(sorted, list[..i])
      invariant Indexes(sorted, key) && Ascending(sorted, key)
    {
      var x := list[i];
      var at := PlaceFor(sorted, x, key);
      assert x !in list[..i];
      InsertedElements(sorted, at, x);
      InsertedAscending(sorted, at, x, key);
      assert list[..i + 1] == list[..i] + [x];
      sorted := sorted[..at] + [x] + sorted[at..];
    }
    assert list[..|list|] == list;
  }

  // ---------- Completions ----------

  predicate OneKey(ops: seq<Op>, key: string) {
    forall i :: 0 <= i < |ops| ==> ops[i].key == key
  }

  /** Some complete legal order begins with these operations. */
  ghost predicate CanComplete(ops: seq<Op>, next: ClientOrder, order: seq<nat>) {
    exists whole :: Legal(ops, next, whole) && |whole| == |ops| && order <= whole
  }

  lemma CompletionGoesOn(ops: seq<Op>, next: ClientOrder, order: seq<nat>)
    requires InRange(ops, order) && |order| < |ops| && CanComplete(ops, next, order)
    ensures exists i :: Extends(ops, next, order, i) && CanComplete(ops, next, order + [i])
  {
    var n := |order|;
    var whole :| Legal(ops, next, whole) && |whole| == |ops| && order <= whole;
    assert LegalAt(ops, next, whole, n);
    assert whole[..n] == order;
    assert order + [whole[n]] <= whole;
  }

  predicate StateHolds(state: map<string, string>, key: string, written: Option<string>) {
    state == if written.Some? then map[key := written.value] else map[]
  }

  lemma WrittenNext(ops: seq<Op>, order: seq<nat>, i: nat)
    requires InRange(ops, order) && i < |ops|
    ensures Written(ops, order + [i])
            == if ops[i].kind == Write then Some(ops[i].value) else Written(ops, order)
    ensures Cursor(ops, order + [i])
            == if ops[i].start > Cursor(ops, order) then ops[i].start else Cursor(ops, order)
  {
    assert (order + [i])[..|order|] == order;
  }

  lemma PlacedWith(ops: seq<Op>, order: seq<nat>, i: nat, c: int)
    requires InRange(ops, order) && i < |ops|
    ensures Placed(ops, order + [i], c) == Placed(ops, order, c) + if ops[i].client == c then 1 else 0
  {
    assert (order + [i])[..|order|] == order;
  }

  // ---------- The search ----------

  class Solver {
    const ops: seq<Op>
    const clientNext: ClientOrder
    ghost const key: string

    const placed: array<bool>
    var clientPos: map<int, nat>
    var state: map<string, string>
    var order: seq<nat>

    constructor (ops: seq<Op>, clientNext: ClientOrder, ghost key: string)
      requires OneKey(ops, key)
      ensures this.ops == ops && this.clientNext == clientNext && this.key == key
      ensures fresh(placed) && Valid() && order == []
    {
      this.ops, this.clientNext, this.key := ops, clientNext, key;
      placed := new bool[|ops|](_ => false);
      clientPos, state, order := map[], map[], [];
    }

    function Pos(c: int): nat
      reads this
    {
      if c in clientPos then clientPos[c] else 0
    }

    ghost predicate PlacedAgrees()
      reads this, placed
    {
      placed.Length == |ops| && forall i :: 0 <= i < |ops| ==> (placed[i] <==> i in order)
    }

    ghost predicate PosAgrees()
      reads this
    {
      InRange(ops, order) && forall c :: Pos(c) == Placed(ops, order, c)
    }

    /** The state is the one that the order so far produces. */
    ghost predicate Valid()
      reads this, placed
    {
      && OneKey(ops, key) && InRange(ops, order) && |order| <= |ops|
      && PlacedAgrees() && PosAgrees()
      && StateHolds(state, key, Written(ops, order))
    }

    /** The unplaced operations whose turn it is and whose window is open, earliest end first. */
    method Candidates(cur: nat) returns (candidates: seq<nat>)
      requires Valid() && cur == Cursor(ops, order)
      ensures forall i: nat :: i in candidates <==> IsCandidate(ops, clientNext, order, i)
      ensures InRange(ops, candidates)
      ensures forall j, k :: 0 <= j < k < |candidates| ==> ops[candidates[j]].end <= ops[candidates[k]].end
    {
      candidates := [];
      for i := 0 to |ops|
        invariant NoRepeats(candidates) && forall k :: 0 <= k < |candidates| ==> candidates[k] < i
        invariant forall x: nat :: x in candidates <==> x < i && IsCandidate(ops, clientNext, order, x)
      {
        if !placed[i] {
          var op := ops[i];
          var pos := Pos(op.client);
          var list := ListOf(clientNext, op.client);
          if !(pos < |list| && list[pos] != i) {
            var nextCur := if op.start > cur then op.start else cur;
            if nextCur <= op.end {
              candidates := candidates + [i];
            }
          }
        }
      }
      var ends := seq(|ops|, i requires 0 <= i < |ops| => ops[i].end);
      candidates := SortBy(candidates, ends);
    }

    /** The value test reads the state. */
    method ReadsState(i: nat) returns (right: bool)
      requires Valid() && i < |ops|
      ensures right <==> ReadsRight(ops, order, i)
    {
      var op := ops[i];
      if op.kind == Read {
        if op.key !in state {
          right := op.value == "";
        } else {
          right := op.value == state[op.key];
        }
      } else {
        right := true;
      }
    }

    method Place(i: nat)
      requires Valid() && i < |ops| && !placed[i] && |order| < |ops|
      modifies this, placed
      ensures Valid() && order == old(order) + [i]
      ensures placed[..] == old(placed[..])[i := true]
    {
      var op := ops[i];
      PlacedStaysExact(i);
      forall c: int ensures Placed(ops, order + [i], c) == Pos(c) + if c == op.client then 1 else 0 {
        PlacedWith(ops, order, i, c);
      }
      WrittenNext(ops, order, i);
      placed[i] := true;
      clientPos := clientPos[op.client := Pos(op.client) + 1];
      if op.kind == Write {
        state := state[op.key := op.value];
      }
      order := order + [i];
    }

    lemma PlacedStaysExact(i: nat)
      requires i < |ops|
      ensures forall j: nat :: j in order + [i] <==> j in order || j == i
    {}

    /** Takes the latest operation back. */
    method Unplace(i: nat, hadPrev: bool, prev: string)
      requires Valid() && i < |ops| && |order| > 0 && order[|order| - 1] == i && i !in order[..|order| - 1]
      requires StateHolds(if hadPrev then map[key := prev] else map[], key, Written(ops, order[..|order| - 1]))
      modifies this, placed
      ensures Valid() && order == old(order)[..|old(order)| - 1]
      ensures placed[..] == old(placed[..])[i := false]
    {
      var op := ops[i];
      ghost var before := order[..|order| - 1];
      assert order == before + [i];
      UnplacedStaysExact(before, i);
      WrittenNext(ops, before, i);
      forall c: int ensures Pos(c) == Placed(ops, before, c) + if c == op.client then 1 else 0 {
        PlacedWith(ops, before, i, c);
      }
      assert Pos(op.client) == Placed(ops, before, op.client) + 1;
      order := order[..|order| - 1];
      if op.kind == Write {
        if hadPrev {
          state := state[op.key := prev];
        } else {
          state := state - {op.key};
        }
      }
      clientPos := clientPos[op.client := Pos(op.client) - 1];
      placed[i] := false;
    }

    lemma UnplacedStaysExact(before: seq<nat>, i: nat)
      ensures forall j: nat :: j in before + [i] <==> j in before || j == i
    {}

    /** Places one candidate, searches on, and takes it back if that fails. */
    method Attempt(n: nat, cur: nat, i: nat) returns (ok: bool)
      requires Valid() && Legal(ops, clientNext, order) && Extends(ops, clientNext, order, i)
      requires n == |order| < |ops| && cur == Cursor(ops, order)
      modifies this, placed
      ensures Valid()
      ensures ok ==> Legal(ops, clientNext, order) && |order| == |ops| && old(order) + [i] <= order
      ensures !ok ==> order == old(order) && placed[..] == old(placed[..])
      ensures !ok ==> !CanComplete(ops, clientNext, order + [i])
      decreases |ops| - n, 0
    {
      var op := ops[i];
      LegalStep(ops, clientNext, order, i);
      WrittenNext(ops, order, i);
      var nextCur := if op.start > cur then op.start else cur;
      var hadPrev := op.key in state;
      var prev := if hadPrev then state[op.key] else "";
      Place(i);
      assert order[..|order| - 1] == old(order);
      ok := Search(n + 1, nextCur);
      if ok {
        return true;
      }
      Unplace(i, hadPrev, prev);
      assert placed[..] == old(placed[..]);
      return false;
    }

    /** Tries to complete the order. A failed attempt leaves everything as it was, and it fails only if no complete
        legal order begins with this one. */
    method Search(n: nat, cur: nat) returns (ok: bool)
      requires Valid() && Legal(ops, clientNext, order)
      requires n == |order| && cur == Cursor(ops, order)
      modifies this, placed
      ensures Valid()
      ensures ok ==> Legal(ops, clientNext, order) && |order| == |ops| && old(order) <= order
      ensures !ok ==> order == old(order) && state == old(state) && placed[..] == old(placed[..])
      ensures !ok ==> forall c :: Pos(c) == old(Pos(c))
      ensures !ok ==> !CanComplete(ops, clientNext, order)
      decreases |ops| - n, 1
    {
      if n == |ops| {
        return true;
      }
      var candidates := Candidates(cur);
      for k := 0 to |candidates|
        invariant Valid() && order == old(order) && placed[..] == old(placed[..])
        invariant forall j :: 0 <= j < k && ReadsRight(ops, order, candidates[j]) ==>
                                !CanComplete(ops, clientNext, order + [candidates[j]])
      {
        var i := candidates[k];
        var right := ReadsState(i);
        if right {
          assert i in candidates;
          ok := Attempt(n, cur, i);
          if ok {
            return true;
          }
        }
      }
      if CanComplete(ops, clientNext, order) {
        CompletionGoesOn(ops, clientNext, order);
        assert false;
      }
      return false;
    }
  }

  // ---------- The checker ----------

  datatype Verdict = Accepted | MultiKey | EndBeforeStart | NotLinearizable

  /** An operation that the checker refuses: another key, or an end before the start. */
  predicate Offends(ops: seq<Op>, i: nat)
    requires i < |ops|
  {
    ops[i].key != ops[0].key || ops[i].end < ops[i].start
  }

  /** The first operation refused from here on, or the length of the history. */
  function FirstOffence(ops: seq<Op>, from: nat): (n: nat)
    requires from <= |ops|
    ensures from <= n <= |ops|
    ensures forall i :: from <= i < n ==> !Offends(ops, i)
    ensures n < |ops| ==> Offends(ops, n)
    decreases |ops| - from
  {
    if from == |ops| || Offends(ops, from) then from else FirstOffence(ops, from + 1)
  }

  /** An answer that accepts exactly the histories with a linearization that follows the sorted client lists; this
      is any linearization if no client starts two operations at one time. */
  ghost predicate IsExact(ops: seq<Op>, next: ClientOrder, accepted: bool) {
    && IsSortedClientOrder(ops, next)
    && (accepted <==> LinearizableAlong(ops, next))
    && (accepted ==> Linearizable(ops))
    && (DistinctStarts(ops) ==> (accepted <==> Linearizable(ops)))
  }

  lemma SearchIsExact(ops: seq<Op>, next: ClientOrder)
    requires IsSortedClientOrder(ops, next)
    ensures IsExact(ops, next, Completable(ops, next))
  {
    SearchSpaceExact(ops, next);
  }

  lemma EmptyHistory(ops: seq<Op>, next: ClientOrder)
    requires ops == [] && next == map[]
    ensures IsExact(ops, next, true)
  {
    forall c ensures IsListFor(ops, c, ListOf(next, c)) && SortedByStart(ops, ListOf(next, c)) {
      assert ListOf(next, c) == [];
    }
    assert Legal(ops, next, []) && |ops| == 0;
    SearchIsExact(ops, next);
  }

  /** Each client's operations among the first ones, in input order. */
  ghost predicate ListsUpto(ops: seq<Op>, next: ClientOrder, n: nat) {
    && (forall i: nat :: i < n ==> Listed(ops, next, i))
    && (forall c :: IsListFor(ops, c, ListOf(next, c)))
    && (forall c, x :: x in ListOf(next, c) ==> x < n)
  }

  lemma ListOfUpdated(next: ClientOrder, c: int, list: seq<nat>, d: int)
    ensures ListOf(next[c := list], d) == if d == c then list else ListOf(next, d)
  {}

  lemma GrownListFor(ops: seq<Op>, list: seq<nat>, n: nat)
    requires n < |ops| && IsListFor(ops, ops[n].client, list) && forall x :: x in list ==> x < n
    ensures IsListFor(ops, ops[n].client, list + [n])
  {
    assert forall k :: 0 <= k < |list| ==> list[k] in list;
  }

  lemma ListGrows(ops: seq<Op>, next: ClientOrder, n: nat, c: int)
    requires ListsUpto(ops, next, n) && n < |ops| && c == ops[n].client
    ensures ListsUpto(ops, next[c := ListOf(next, c) + [n]], n + 1)
  {
    var list := ListOf(next, c) + [n];
    var more := next[c := list];
    forall i: nat | i < n + 1 ensures Listed(ops, more, i) {
      ListOfUpdated(next, c, list, ops[i].client);
      if i < n {
        assert Listed(ops, next, i);
      } else {
        assert list[|list| - 1] == n;
      }
    }
    forall d ensures IsListFor(ops, d, ListOf(more, d)) {
      ListOfUpdated(next, c, list, d);
      assert IsListFor(ops, d, ListOf(next, d));
      if d == c {
        GrownListFor(ops, ListOf(next, c), n);
      }
    }
    forall d, x | x in ListOf(more, d) ensures x < n + 1 {
      ListOfUpdated(next, c, list, d);
    }
  }

  method ListClients(ops: seq<Op>) returns (next: ClientOrder)
    ensures ListsUpto(ops, next, |ops|)
  {
    next := map[];
    for i := 0 to |ops|
      invariant ListsUpto(ops, next, i)
    {
      var c := ops[i].client;
      ListGrows(ops, next, i, c);
      next := next[c := ListOf(next, c) + [i]];
    }
  }

  lemma ListReordered(ops: seq<Op>, next: ClientOrder, c: int, sorted: seq<nat>)
    requires IsClientOrder(ops, next) && NoRepeats(sorted) && SameElements(sorted, ListOf(next, c))
    ensures IsClientOrder(ops, next[c := sorted])
  {
    var more := next[c := sorted];
    forall i: nat ensures Listed(ops, more, i) {
      assert Listed(ops, next, i);
    }
    forall d ensures IsListFor(ops, d, ListOf(more, d)) {
      assert IsListFor(ops, d, ListOf(next, d));
      if d == c {
        forall k | 0 <= k < |sorted| ensures sorted[k] in ListOf(next, c) {
          assert sorted[k] in sorted;
        }
      }
    }
  }

  predicate IsSortedList(ops: seq<Op>, c: int, list: seq<nat>) {
    IsListFor(ops, c, list) && SortedByStart(ops, list)
  }

  lemma NoList(ops: seq<Op>, next: ClientOrder, c: int)
    requires c !in next
    ensures IsSortedList(ops, c, ListOf(next, c))
  {}

  lemma ListFits(ops: seq<Op>, next: ClientOrder, c: int, starts: seq<nat>)
    requires IsClientOrder(ops, next) && |starts| == |ops|
    ensures NoRepeats(ListOf(next, c)) && Indexes(ListOf(next, c), starts)
  {
    assert IsListFor(ops, c, ListOf(next, c));
  }

  lemma ListSorted(ops: seq<Op>, next: ClientOrder, c: int, sorted: seq<nat>, starts: seq<nat>)
    requires IsClientOrder(ops, next) && NoRepeats(sorted) && SameElements(sorted, ListOf(next, c))
    requires |starts| == |ops| && (forall i :: 0 <= i < |ops| ==> starts[i] == ops[i].start)
    requires Indexes(sorted, starts) && Ascending(sorted, starts)
    ensures IsClientOrder(ops, next[c := sorted]) && IsSortedList(ops, c, sorted)
  {
    ListReordered(ops, next, c, sorted);
    assert IsListFor(ops, c, ListOf(next[c := sorted], c));
  }

  lemma ListsSorted(ops: seq<Op>, next: ClientOrder)
    requires IsClientOrder(ops, next) && forall c :: IsSortedList(ops, c, ListOf(next, c))
    ensures IsSortedClientOrder(ops, next)
  {}

  method SortClients(ops: seq<Op>, lists: ClientOrder) returns (next: ClientOrder)
    requires IsClientOrder(ops, lists)
    ensures IsSortedClientOrder(ops, next)
  {
    hide IsClientOrder, IsSortedList, IsSortedClientOrder, Ascending, Indexes, NoRepeats, SameElements;
    next := lists;
    var starts := seq(|ops|, i requires 0 <= i < |ops| => ops[i].start);
    var todo := lists.Keys;
    forall c | c !in todo ensures IsSortedList(ops, c, ListOf(next, c)) {
      NoList(ops, next, c);
    }
    while todo != {}
      invariant IsClientOrder(ops, next) && next.Keys == lists.Keys && todo <= next.Keys
      invariant forall c :: c !in todo ==> IsSortedList(ops, c, ListOf(next, c))
      decreases |todo|
    {
      var c := Pick(todo);
      todo := todo - {c};
      ListFits(ops, next, c, starts);
      var sorted := SortBy(next[c], starts);
      ListSorted(ops, next, c, sorted, starts);
      next := next[c := sorted];
    }
    ListsSorted(ops, next);
  }

  /** Whether, and for what, a history is refused. */
  predicate Refused(ops: seq<Op>, verdict: Verdict) {
    var n := FirstOffence(ops, 0);
    && (verdict == MultiKey <==> n < |ops| && ops[n].key != ops[0].key)
    && (verdict == EndBeforeStart <==> n < |ops| && ops[n].key == ops[0].key)
  }

  /** Refuses a history of two keys, or with an operation that ends before it starts. */
  method Screen(ops: seq<Op>) returns (verdict: Verdict)
    requires ops != []
    ensures Refused(ops, verdict)
    ensures verdict == Accepted ==> OneKey(ops, ops[0].key)
    ensures verdict != NotLinearizable
  {
    var key := ops[0].key;
    for i := 0 to |ops|
      invariant FirstOffence(ops, i) == FirstOffence(ops, 0)
      invariant OneKey(ops[..i], key)
    {
      if ops[i].key != key {
        return MultiKey;
      }
      if ops[i].end < ops[i].start {
        return EndBeforeStart;
      }
      assert ops[..i + 1] == ops[..i] + [ops[i]];
    }
    assert ops[..|ops|] == ops;
    return Accepted;
  }

  /** Lists the clients' operations, sorts the lists, and searches. */
  method Solve(ops: seq<Op>, ghost key: string) returns (ok: bool, ghost next: ClientOrder)
    requires OneKey(ops, key)
    ensures IsExact(ops, next, ok)
  {
    var lists := ListClients(ops);
    var clientOrder := SortClients(ops, lists);
    next := clientOrder;
    var solver := new Solver(ops, clientOrder, key);
    ok := solver.Search(0, 0);
    assert Completable(ops, next) ==> CanComplete(ops, next, []);
    SearchIsExact(ops, next);
  }

  /** The verdict on a history: exact unless the history is refused. */
  method Check(ops: seq<Op>) returns (verdict: Verdict, ghost next: ClientOrder)
    ensures Refused(ops, verdict)
    ensures FirstOffence(ops, 0) == |ops| ==> IsExact(ops, next, verdict == Accepted)
  {
    if |ops| == 0 {
      assert Refused(ops, Accepted);
      next := map[];
      EmptyHistory(ops, next);
      return Accepted, next;
    }
    verdict := Screen(ops);
    if verdict != Accepted {
      return verdict, map[];
    }
    var ok, lists := Solve(ops, ops[0].key);
    return if ok then Accepted else NotLinearizable, lists;
  }
}
