/**
 What the rewritten INSERT statement is: the old one with one column more, and one value more in each row. Each
 part of the rewriting is shown to parse again to the part it came from, with its addition.
 */
module InsertLaws {
  import opened Tokenizer
  import opened Calls
  import opened Quoting
  import opened Inserts

  // ---------- Columns ----------

  lemma ColumnsNext(t: Token, inside: seq<Token>, depth: int)
    ensures Columns([t] + inside, depth) == ColumnAt(t, depth) + Columns(inside, DepthAfter(t, depth))
  {
    assert ([t] + inside)[1..] == inside;
  }

  lemma ClosingNext(t: Token, rest: seq<Token>, depth: nat)
    requires depth >= 1 && !(t.text == ")" && depth == 1)
    ensures var r := Closing(rest, DepthAfter(t, depth));
            Closing([t] + rest, depth) == if r.Some? then Some(r.value + 1) else None
  {
    assert ([t] + rest)[1..] == rest;
  }

  lemma ClosingRest(t: Token, rest: seq<Token>, depth: nat)
    requires ClosesAt([t] + rest, depth + 1, 1 + |rest|)
    requires !(t.text == ")" && depth == 0)
    ensures |rest| >= 1 && DepthAfter(t, depth) >= 0
    ensures ClosesAt(rest, DepthAfter(t, depth) + 1, |rest|)
  {
    var d := DepthAfter(t, depth + 1);
    ClosingNext(t, rest, depth + 1);
    assert d == DepthAfter(t, depth) + 1;
  }

  lemma ClosingStays(inside: seq<Token>, depth: nat)
    requires inside != [] && ClosesAt(inside, depth + 1, |inside|)
    requires !(inside[0].text == ")" && depth == 0)
    ensures |inside| >= 2 && DepthAfter(inside[0], depth) >= 0
    ensures ClosesAt(inside[1..], DepthAfter(inside[0], depth) + 1, |inside| - 1)
  {
    var rest := inside[1..];
    assert inside == [inside[0]] + rest;
    ClosingRest(inside[0], rest, depth);
  }

  /** Names added at the end of a balanced list are at its top level. */
  lemma {:induction false} ColumnsAppend(inside: seq<Token>, depth: nat, extra: seq<Token>)
    requires ClosesAt(inside, depth + 1, |inside|)
    ensures var list := inside[..|inside| - 1];
            Columns(list + extra, depth) == Columns(list, depth) + Columns(extra, 0)
  {
    var list := inside[..|inside| - 1];
    if inside[0].text == ")" && depth == 0 {
      ClosesAtOnce(inside);
      assert list == [] && list + extra == extra;
    } else {
      ClosingStays(inside, depth);
      var t, rest := inside[0], inside[1..][..|inside| - 2];
      var d := DepthAfter(t, depth);
      ColumnsAppend(inside[1..], d, extra);
      FirstAndRest(inside, extra);
      ColumnsNext(t, rest, depth);
      ColumnsNext(t, rest + extra, depth);
      assert ColumnAt(t, depth) + (Columns(rest, d) + Columns(extra, 0)) == Columns(list, depth) + Columns(extra, 0);
    }
  }

  lemma FirstAndRest(inside: seq<Token>, more: seq<Token>)
    requires |inside| >= 2
    ensures var list := inside[..|inside| - 1]; var rest := inside[1..][..|inside| - 2];
            list == [inside[0]] + rest && list + more == [inside[0]] + (rest + more)
  {}

  lemma ClosesAtOnce(inside: seq<Token>)
    requires inside != [] && inside[0].text == ")" && ClosesAt(inside, 1, |inside|)
    ensures |inside| == 1
  {}

  /** The rewritten column list names the old columns and then the auto-increment column. */
  lemma ColumnsExtended(group: seq<Token>, column: string)
    requires IsGroup(group)
    ensures var more := WithExtra(group, ColumnTokens(column));
            && IsGroup(more)
            && Columns(more[1..|more| - 1], 0)
               == Columns(group[1..|group| - 1], 0) + [UnquoteIdent(QuoteIdent(column))]
  {
    var more, extra := WithExtra(group, ColumnTokens(column)), ColumnTokens(column);
    ExtraCloses(group, extra);
    ColumnsAppend(group[1..], 0, extra);
    assert group[1..][..|group| - 2] == group[1..|group| - 1];
    assert more[1..|more| - 1] == group[1..|group| - 1] + extra;
    ExtraColumn(column);
  }

  lemma ExtraColumn(column: string)
    ensures Columns(ColumnTokens(column), 0) == [UnquoteIdent(QuoteIdent(column))]
  {
    var t := Token(Quoted, QuoteIdent(column));
    assert QuoteIdent(column)[0] == '"';
    ColumnsNext(t, [], 0);
    ColumnsNext(Token(Space, " "), [t], 0);
    ColumnsNext(Token(Punct, ","), [Token(Space, " "), t], 0);
    assert [t] + [] == [t];
    assert [Token(Space, " ")] + [t] == [Token(Space, " "), t];
    assert ColumnTokens(column) == [Token(Punct, ",")] + [Token(Space, " "), t];
  }

  // ---------- Extra tokens in a group ----------

  predicate HasNoParenthesis(s: seq<Token>) {
    forall k :: 0 <= k < |s| ==> s[k].text != "(" && s[k].text != ")"
  }

  lemma {:induction false} ClosingWithExtra(inside: seq<Token>, depth: nat, extra: seq<Token>)
    requires depth >= 1 && ClosesAt(inside, depth, |inside|) && HasNoParenthesis(extra)
    ensures var more := inside[..|inside| - 1] + extra + [inside[|inside| - 1]];
            ClosesAt(more, depth, |more|)
  {
    var last := |inside| - 1;
    var more := inside[..last] + extra + [inside[last]];
    if inside[0].text == ")" && depth == 1 {
      assert more == extra + [inside[0]];
      ClosingAfter(extra, inside);
    } else {
      var rest := inside[1..];
      ClosingWithExtra(rest, DepthAfter(inside[0], depth), extra);
      assert more[0] == inside[0];
      assert more[1..] == rest[..|rest| - 1] + extra + [rest[|rest| - 1]];
    }
  }

  lemma {:induction false} ClosingAfter(extra: seq<Token>, close: seq<Token>)
    requires HasNoParenthesis(extra) && BeginsWith(close, ")")
    ensures ClosesAt(extra + [close[0]], 1, |extra| + 1)
  {
    if extra != [] {
      assert (extra + [close[0]])[1..] == extra[1..] + [close[0]];
      ClosingAfter(extra[1..], close);
    }
  }

  lemma {:induction false} ClosingEnds(s: seq<Token>, depth: nat, more: seq<Token>)
    requires depth >= 1 && Closing(s, depth).Some?
    ensures Closing(s + more, depth) == Closing(s, depth)
  {
    assert (s + more)[1..] == s[1..] + more;
    if s[0].text == ")" && depth == 1 {
    } else {
      ClosingEnds(s[1..], DepthAfter(s[0], depth), more);
    }
  }

  lemma {:induction false} ClosingPrefix(s: seq<Token>, depth: nat)
    requires depth >= 1 && Closing(s, depth).Some?
    ensures Closing(s[..Closing(s, depth).value], depth) == Closing(s, depth)
  {
    var n := Closing(s, depth).value;
    if s[0].text == ")" && depth == 1 {
    } else {
      ClosingPrefix(s[1..], DepthAfter(s[0], depth));
      assert s[..n][1..] == s[1..][..n - 1];
    }
  }

  /** A group stands for itself, whatever follows. */
  lemma GroupStands(s: seq<Token>)
    requires GroupLength(s).Some?
    ensures var g := s[..GroupLength(s).value]; IsGroup(g)
  {
    var n := GroupLength(s).value;
    ClosingPrefix(s[1..], 1);
    assert s[..n][1..] == s[1..][..n - 1];
  }

  lemma GroupThen(group: seq<Token>, rest: seq<Token>)
    requires IsGroup(group)
    ensures HasGroup(group + rest, |group|)
    ensures (group + rest)[..|group|] == group && (group + rest)[|group|..] == rest
  {
    ClosingEnds(group[1..], 1, rest);
    assert (group + rest)[1..] == group[1..] + rest;
  }

  lemma ExtraCloses(group: seq<Token>, extra: seq<Token>)
    requires IsGroup(group) && HasNoParenthesis(extra)
    ensures var more := WithExtra(group, extra); IsGroup(more)
  {
    var more := WithExtra(group, extra);
    ClosingWithExtra(group[1..], 1, extra);
    assert more[1..] == group[1..][..|group| - 2] + extra + [group[1..][|group| - 2]];
  }

  // ---------- Rows ----------

  lemma SplitNext(t: Token, rest: seq<Token>, depth: int, current: seq<Token>)
    ensures Split([t] + rest, depth, current)
            == if t.text == "," && depth == 0 then [current] + Split(rest, 0, [])
               else Split(rest, DepthAfter(t, depth), current + [t])
  {
    assert ([t] + rest)[1..] == rest;
  }

  lemma {:induction false} SplitAppend(inside: seq<Token>, depth: nat, current: seq<Token>, value: seq<Token>)
    requires ClosesAt(inside, depth + 1, |inside|)
    requires HasNoParenthesis(value) && forall k :: 0 <= k < |value| ==> value[k].text != ","
    ensures var list := inside[..|inside| - 1];
            Split(list + ([Token(Punct, ",")] + value), depth, current) == Split(list, depth, current) + [value]
  {
    var list, more := inside[..|inside| - 1], [Token(Punct, ",")] + value;
    if inside[0].text == ")" && depth == 0 {
      ClosesAtOnce(inside);
      assert list == [] && list + more == more;
      SplitNext(Token(Punct, ","), value, 0, current);
      SplitPlain(value, []);
      assert [] + value == value;
    } else {
      ClosingStays(inside, depth);
      var t, rest := inside[0], inside[1..][..|inside| - 2];
      FirstAndRest(inside, more);
      SplitNext(t, rest, depth, current);
      SplitNext(t, rest + more, depth, current);
      if t.text == "," && depth == 0 {
        SplitAppend(inside[1..], 0, [], value);
      } else {
        SplitAppend(inside[1..], DepthAfter(t, depth), current + [t], value);
      }
    }
  }

  lemma {:induction false} SplitPlain(value: seq<Token>, current: seq<Token>)
    requires HasNoParenthesis(value) && forall k :: 0 <= k < |value| ==> value[k].text != ","
    ensures Split(value, 0, current) == [current + value]
  {
    if value == [] {
      assert current + value == current;
    } else {
      SplitPlain(value[1..], current + [value[0]]);
      assert current + [value[0]] + value[1..] == current + value;
    }
  }

  lemma DecimalIsPlain(id: int)
    ensures HasNoParenthesis(DecimalTokens(id))
    ensures forall k :: 0 <= k < |DecimalTokens(id)| ==> DecimalTokens(id)[k].text != ","
  {
    var d := Digits(if id < 0 then -id else id);
    assert '0' <= d[0] <= '9';
  }

  /** A rewritten row has its old values and then the id. */
  lemma RowExtended(row: seq<Token>, id: int)
    requires IsGroup(row)
    ensures var more := WithExtra(row, IdTokens(id));
            && IsGroup(more)
            && ValuesOf(more) == ValuesOf(row) + [[Token(Space, " ")] + DecimalTokens(id)]
  {
    var value := [Token(Space, " ")] + DecimalTokens(id);
    DecimalIsPlain(id);
    var more := WithExtra(row, IdTokens(id));
    ExtraCloses(row, IdTokens(id));
    SplitAppend(row[1..], 0, [], value);
    assert row[1..][..|row| - 2] == row[1..|row| - 1];
    assert more[1..|more| - 1] == row[1..|row| - 1] + ([Token(Punct, ",")] + value);
  }

  // ---------- Rebuilding ----------

  predicate AllSkippable(s: seq<Token>) {
    forall k :: 0 <= k < |s| ==> IsSkippable(s[k])
  }

  /** Tokens that the first phase copies: no group begins here, and VALUES does not come. */
  predicate IsCopied(s: seq<Token>) {
    forall k :: 0 <= k < |s| ==> s[k].text != "(" && !IsKeyword(s[k], "VALUES")
  }

  lemma RebuildCopiesOne(t: Token, s: seq<Token>, left: nat, column: string, ids: seq<int>)
    requires t.text != "(" && !IsKeyword(t, "VALUES") && left <= |s|
    ensures Rebuild([t] + s, 1 + left, column, ids) == [t] + Rebuild(s, left, column, ids)
  {
    assert ([t] + s)[1..] == s;
  }

  lemma {:induction false} RebuildCopies(head: seq<Token>, s: seq<Token>, left: nat, n: nat, column: string,
                                         ids: seq<int>, out: seq<Token>)
    requires IsCopied(head) && left <= |s| && n == |head| + left && out == Rebuild(s, left, column, ids)
    ensures n <= |head + s| && Rebuild(head + s, n, column, ids) == head + out
  {
    hide Rebuild;
    if head == [] {
      assert head + s == s && head + out == out;
    } else {
      var rest := head[1..];
      RebuildCopies(rest, s, left, n - 1, column, ids, out);
      RebuildCopiesOne(head[0], rest + s, n - 1, column, ids);
      assert head + s == [head[0]] + (rest + s);
      assert [head[0]] + (rest + out) == head + out;
    }
  }

  lemma RebuildList(list: seq<Token>, s: seq<Token>, left: nat, column: string, ids: seq<int>)
    requires IsGroup(list) && left <= |s|
    ensures Rebuild(list + s, |list| + left, column, ids)
            == WithExtra(list, ColumnTokens(column)) + Rebuild(s, left, column, ids)
  {
    GroupThen(list, s);
  }

  lemma RebuildValues(values: Token, s: seq<Token>, left: nat, column: string, ids: seq<int>)
    requires IsKeyword(values, "VALUES") && left <= |s|
    ensures Rebuild([values] + s, 1 + left, column, ids) == [values] + AddIds(s, left, ids)
  {
    assert ([values] + s)[1..] == s;
    assert |values.text| == 6;
  }

  predicate NoneOpens(s: seq<Token>) {
    forall k :: 0 <= k < |s| ==> s[k].text != "("
  }

  lemma AddIdsCopiesOne(t: Token, s: seq<Token>, left: nat, ids: seq<int>)
    requires t.text != "(" && left <= |s|
    ensures AddIds([t] + s, 1 + left, ids) == [t] + AddIds(s, left, ids)
  {
    assert ([t] + s)[1..] == s;
  }

  lemma {:induction false} AddIdsCopies(head: seq<Token>, s: seq<Token>, left: nat, n: nat, ids: seq<int>,
                                        out: seq<Token>)
    requires NoneOpens(head) && left <= |s| && n == |head| + left && out == AddIds(s, left, ids)
    ensures n <= |head + s| && AddIds(head + s, n, ids) == head + out
  {
    hide AddIds;
    if head == [] {
      assert head + s == s && head + out == out;
    } else {
      var rest := head[1..];
      AddIdsCopies(rest, s, left, n - 1, ids, out);
      AddIdsCopiesOne(head[0], rest + s, n - 1, ids);
      assert head + s == [head[0]] + (rest + s);
      assert [head[0]] + (rest + out) == head + out;
    }
  }

  lemma AddIdsGroup(group: seq<Token>, s: seq<Token>, left: nat, ids: seq<int>)
    requires IsGroup(group) && left <= |s| && ids != []
    ensures AddIds(group + s, |group| + left, ids) == WithExtra(group, IdTokens(ids[0])) + AddIds(s, left, ids[1..])
  {
    GroupThen(group, s);
  }

  // ---------- The rows ----------

  predicate StartsSolid(s: seq<Token>) {
    s == [] || !IsSkippable(s[0])
  }

  lemma {:induction false} SolidSkips(skip: seq<Token>, s: seq<Token>)
    requires AllSkippable(skip) && StartsSolid(s)
    ensures Solid(skip + s) == s
  {
    if skip == [] {
      assert skip + s == s;
    } else {
      SolidSkips(skip[1..], s);
      assert (skip + s)[1..] == skip[1..] + s;
    }
  }

  /** One row, the gaps around it, and what follows. */
  function RowAnd(skip: seq<Token>, group: seq<Token>, gap: seq<Token>, rest: seq<Token>): seq<Token> {
    skip + (group + (gap + rest))
  }

  predicate IsRow(skip: seq<Token>, group: seq<Token>, gap: seq<Token>) {
    AllSkippable(skip) && IsGroup(group) && !IsSkippable(group[0]) && AllSkippable(gap)
  }

  lemma GapSkipped(group: seq<Token>, gap: seq<Token>, rest: seq<Token>)
    requires IsGroup(group) && AllSkippable(gap) && StartsSolid(rest)
    ensures HasGroup(group + (gap + rest), |group|)
    ensures Solid((group + (gap + rest))[|group|..]) == rest
  {
    GroupThen(group, gap + rest);
    SolidSkips(gap, rest);
  }

  lemma ValuesRowsIs(skip: seq<Token>, group: seq<Token>, gap: seq<Token>, rest: seq<Token>)
    requires IsRow(skip, group, gap) && StartsSolid(rest)
    ensures ValuesRows(RowAnd(skip, group, gap, rest))
            == if !BeginsWith(rest, ",") then Rows([group], rest)
               else
                 var r := ValuesRows(rest[1..]);
                 if r.NoRows? then NoRows else Rows([group] + r.rows, r.rest)
  {
    var a := group + (gap + rest);
    SolidSkips(skip, a);
    GapSkipped(group, gap, rest);
    GroupThen(group, gap + rest);
    assert ValuesRows(RowAnd(skip, group, gap, rest)).Rows? || true;
  }

  lemma AddIdsGroupAndGap(group: seq<Token>, gap: seq<Token>, rest: seq<Token>, y: seq<Token>, left: nat, m: nat,
                          id: int, ids: seq<int>, out: seq<Token>)
    requires IsGroup(group) && NoneOpens(gap) && left <= |rest| && y == gap + rest && m == |gap| + left
    requires out == AddIds(rest, left, ids)
    ensures m <= |y| && AddIds(group + y, |group| + m, [id] + ids) == WithExtra(group, IdTokens(id)) + (gap + out)
  {
    hide *;
    AddIdsCopies(gap, rest, left, m, ids, out);
    AddIdsGroup(group, y, m, [id] + ids);
    assert ([id] + ids)[1..] == ids;
  }

  lemma AddIdsRow(skip: seq<Token>, group: seq<Token>, gap: seq<Token>, rest: seq<Token>, left: nat, n: nat,
                  id: int, ids: seq<int>, out: seq<Token>)
    requires NoneOpens(skip) && IsGroup(group) && NoneOpens(gap) && left <= |rest|
    requires n == |skip| + |group| + |gap| + left && out == AddIds(rest, left, ids)
    ensures n <= |RowAnd(skip, group, gap, rest)|
    ensures AddIds(RowAnd(skip, group, gap, rest), n, [id] + ids)
            == RowAnd(skip, WithExtra(group, IdTokens(id)), gap, out)
  {
    var extra := WithExtra(group, IdTokens(id));
    hide AddIds, IsGroup, NoneOpens, WithExtra, IdTokens;
    var y, m := gap + rest, |gap| + left;
    var z, k := group + y, |group| + m;
    var more := extra + (gap + out);
    AddIdsGroupAndGap(group, gap, rest, y, left, m, id, ids, out);
    AddIdsCopies(skip, z, k, n, [id] + ids, more);
  }

  lemma SkipsThenSolid(s: seq<Token>) returns (skip: seq<Token>, rest: seq<Token>)
    requires AllProper(s)
    ensures s == skip + rest && rest == Solid(s) && AllSkippable(skip) && StartsSolid(rest)
    ensures AllProper(skip) && AllProper(rest)
  {
    SolidIs(s);
    skip, rest := s[..|s| - |Solid(s)|], Solid(s);
  }

  /** The first row of parsed rows. */
  lemma FirstRow(s: seq<Token>) returns (skip: seq<Token>, group: seq<Token>, gap: seq<Token>, rest: seq<Token>)
    requires AllProper(s) && GroupLength(Solid(s)).Some?
    ensures s == RowAnd(skip, group, gap, rest) && IsRow(skip, group, gap) && StartsSolid(rest)
    ensures AllProper(skip) && AllProper(gap) && AllProper(rest)
  {
    var a;
    skip, a := SkipsThenSolid(s);
    GroupStands(a);
    group := a[..GroupLength(a).value];
    gap, rest := SkipsThenSolid(a[|group|..]);
    assert a == group + a[|group|..];
  }

  predicate RowGains(row: seq<Token>, more: seq<Token>, id: int) {
    |row| >= 1 && more == WithExtra(row, IdTokens(id))
  }

  predicate RowsGain(rows: seq<seq<Token>>, more: seq<seq<Token>>, ids: seq<int>) {
    |rows| == |more| == |ids| && forall k :: 0 <= k < |rows| ==> RowGains(rows[k], more[k], ids[k])
  }

  lemma RowsGainOne(row: seq<Token>, rows: seq<seq<Token>>, more: seq<seq<Token>>, ids: seq<int>)
    requires ids != [] && |row| >= 1 && RowsGain(rows, more, ids[1..])
    ensures RowsGain([row] + rows, [WithExtra(row, IdTokens(ids[0]))] + more, ids)
  {
    var all, got := [row] + rows, [WithExtra(row, IdTokens(ids[0]))] + more;
    forall k | 0 <= k < |all| ensures RowGains(all[k], got[k], ids[k]) {
      if k > 0 {
        assert RowGains(rows[k - 1], more[k - 1], ids[1..][k - 1]);
      }
    }
  }

  /** What the second phase must leave: rows that parse again, each with its id. */
  predicate Rewrites(s: seq<Token>, ids: seq<int>) {
    var r := ValuesRows(s);
    && r.Rows? && |ids| == |r.rows|
    && var again := ValuesRows(AddIds(s, |s| - |r.rest|, ids) + r.rest);
       again.Rows? && again.rest == r.rest && RowsGain(r.rows, again.rows, ids)
  }

  lemma LastRow(skip: seq<Token>, group: seq<Token>, gap: seq<Token>, rest: seq<Token>, id: int)
    requires IsRow(skip, group, gap) && NoneOpens(skip) && NoneOpens(gap)
    requires StartsSolid(rest) && !BeginsWith(rest, ",")
    ensures Rewrites(RowAnd(skip, group, gap, rest), [id])
  {
    var s, more := RowAnd(skip, group, gap, rest), WithExtra(group, IdTokens(id));
    ValuesRowsIs(skip, group, gap, rest);
    ExtraRow(skip, group, gap, id);
    ValuesRowsIs(skip, more, gap, rest);
    LastRowIds(skip, group, gap, rest, |s| - |rest|, id);
    RowsGainOne(group, [], [], [id]);
    assert [group] + [] == [group] && [more] + [] == [more];
  }

  lemma LastRowIds(skip: seq<Token>, group: seq<Token>, gap: seq<Token>, rest: seq<Token>, n: nat, id: int)
    requires NoneOpens(skip) && IsGroup(group) && NoneOpens(gap)
    requires n == |RowAnd(skip, group, gap, rest)| - |rest|
    ensures AddIds(RowAnd(skip, group, gap, rest), n, [id]) + rest
            == RowAnd(skip, WithExtra(group, IdTokens(id)), gap, rest)
  {
    AddIdsRow(skip, group, gap, rest, 0, n, id, [], []);
    assert [id] + [] == [id];
    Regroup(skip, WithExtra(group, IdTokens(id)), gap, [], rest);
    assert [] + rest == rest;
  }

  lemma ExtraRow(skip: seq<Token>, group: seq<Token>, gap: seq<Token>, id: int)
    requires IsRow(skip, group, gap)
    ensures IsRow(skip, WithExtra(group, IdTokens(id)), gap)
  {
    DecimalIsPlain(id);
    ExtraCloses(group, IdTokens(id));
  }

  lemma MoreRowsAdded(skip: seq<Token>, group: seq<Token>, gap: seq<Token>, comma: Token, later: seq<Token>, left: nat,
                      rest: seq<Token>, n: nat, id: int, ids: seq<int>, out: seq<Token>)
    requires NoneOpens(skip) && IsGroup(group) && NoneOpens(gap) && comma.text == ","
    requires left <= |later| && out == AddIds(later, left, ids) && rest == [comma] + later
    requires n == |skip| + |group| + |gap| + 1 + left
    ensures n <= |RowAnd(skip, group, gap, rest)|
    ensures AddIds(RowAnd(skip, group, gap, rest), n, [id] + ids)
            == RowAnd(skip, WithExtra(group, IdTokens(id)), gap, [comma] + out)
  {
    hide *;
    AddIdsCopiesOne(comma, later, left, ids);
    AddIdsRow(skip, group, gap, rest, 1 + left, n, id, ids, [comma] + out);
  }

  lemma MoreRowsIds(skip: seq<Token>, group: seq<Token>, gap: seq<Token>, comma: Token, later: seq<Token>, left: nat,
                    tail: seq<Token>, n: nat, id: int, ids: seq<int>, out: seq<Token>)
    requires NoneOpens(skip) && IsGroup(group) && NoneOpens(gap) && comma.text == ","
    requires left <= |later| && out == AddIds(later, left, ids)
    requires n == |skip| + |group| + |gap| + 1 + left
    ensures n <= |RowAnd(skip, group, gap, [comma] + later)|
    ensures AddIds(RowAnd(skip, group, gap, [comma] + later), n, [id] + ids) + tail
            == RowAnd(skip, WithExtra(group, IdTokens(id)), gap, [comma] + (out + tail))
  {
    var more := WithExtra(group, IdTokens(id));
    hide *;
    MoreRowsAdded(skip, group, gap, comma, later, left, [comma] + later, n, id, ids, out);
    var o := [comma] + out;
    Regroup(skip, more, gap, o, tail);
    assert o + tail == [comma] + (out + tail);
  }

  lemma MoreRows(skip: seq<Token>, group: seq<Token>, gap: seq<Token>, comma: Token, later: seq<Token>,
                 id: int, ids: seq<int>)
    requires IsRow(skip, group, gap) && NoneOpens(skip) && NoneOpens(gap)
    requires comma.text == "," && !IsSkippable(comma)
    requires Rewrites(later, ids)
    ensures Rewrites(RowAnd(skip, group, gap, [comma] + later), [id] + ids)
  {
    var s, r := RowAnd(skip, group, gap, [comma] + later), ValuesRows(later);
    var left := |later| - |r.rest|;
    var out := AddIds(later, left, ids);
    assert |s| == |skip| + |group| + |gap| + 1 + |later|;
    assert ValuesRows(out + r.rest).Rows? && ValuesRows(out + r.rest).rest == r.rest
        && RowsGain(r.rows, ValuesRows(out + r.rest).rows, ids);
    hide *;
    MoreRowsIds(skip, group, gap, comma, later, left, r.rest, |s| - |r.rest|, id, ids, out);
    MoreRowsParse(skip, group, gap, comma, later, id, ids, r, ValuesRows(out + r.rest), out + r.rest,
                  AddIds(s, |s| - |r.rest|, [id] + ids) + r.rest);
  }

  lemma MoreRowsParse(skip: seq<Token>, group: seq<Token>, gap: seq<Token>, comma: Token, later: seq<Token>,
                      id: int, ids: seq<int>, r: Rows, again: Rows, next: seq<Token>, o: seq<Token>)
    requires IsRow(skip, group, gap) && comma.text == "," && !IsSkippable(comma)
    requires r == ValuesRows(later) && r.Rows? && again == ValuesRows(next) && again.Rows? && again.rest == r.rest
    requires RowsGain(r.rows, again.rows, ids)
    requires |RowAnd(skip, group, gap, [comma] + later)| >= |r.rest|
    requires o == AddIds(RowAnd(skip, group, gap, [comma] + later),
                         |RowAnd(skip, group, gap, [comma] + later)| - |r.rest|, [id] + ids) + r.rest
    requires o == RowAnd(skip, WithExtra(group, IdTokens(id)), gap, [comma] + next)
    ensures Rewrites(RowAnd(skip, group, gap, [comma] + later), [id] + ids)
  {
    hide AddIds, RowAnd, WithExtra, IdTokens, ValuesRows, IsSkippable, RowGains;
    ValuesRowsMore(skip, group, gap, comma, later);
    ExtraRow(skip, group, gap, id);
    ValuesRowsMore(skip, WithExtra(group, IdTokens(id)), gap, comma, next);
    assert ([id] + ids)[1..] == ids;
    RowsGainOne(group, r.rows, again.rows, [id] + ids);
  }

  lemma ValuesRowsMore(skip: seq<Token>, group: seq<Token>, gap: seq<Token>, comma: Token, later: seq<Token>)
    requires IsRow(skip, group, gap) && comma.text == "," && !IsSkippable(comma)
    ensures var r := ValuesRows(later);
            ValuesRows(RowAnd(skip, group, gap, [comma] + later))
            == if r.NoRows? then NoRows else Rows([group] + r.rows, r.rest)
  {
    ValuesRowsIs(skip, group, gap, [comma] + later);
    assert ([comma] + later)[1..] == later;
  }

  lemma SkipsDoNotOpen(skip: seq<Token>)
    requires AllSkippable(skip) && AllProper(skip)
    ensures NoneOpens(skip)
  {}

  /** The second phase adds to each row its id, and nothing else. */
  lemma {:induction false} RowsRewritten(s: seq<Token>, ids: seq<int>)
    requires AllProper(s) && ValuesRows(s).Rows? && |ids| == |ValuesRows(s).rows|
    ensures Rewrites(s, ids)
    decreases |s|
  {
    var skip, group, gap, rest := FirstRow(s);
    ValuesRowsIs(skip, group, gap, rest);
    SkipsDoNotOpen(skip);
    SkipsDoNotOpen(gap);
    if !BeginsWith(rest, ",") {
      assert ids == [ids[0]];
      LastRow(skip, group, gap, rest, ids[0]);
    } else {
      assert rest == [rest[0]] + rest[1..] && ids == [ids[0]] + ids[1..];
      RowsRewritten(rest[1..], ids[1..]);
      MoreRows(skip, group, gap, rest[0], rest[1..], ids[0], ids[1..]);
    }
  }

  lemma Regroup(skip: seq<Token>, group: seq<Token>, gap: seq<Token>, rest: seq<Token>, tail: seq<Token>)
    ensures RowAnd(skip, group, gap, rest) + tail == RowAnd(skip, group, gap, rest + tail)
  {}
}
