/**
 The rewriter's loops and its class. Each loop is proved against the function of `Calls`, `Inserts` or `RewriteRun` of
 the same meaning; what those functions guarantee is proved in `InsertProof`, `RewriteLaws` and `RewriteParams`.
 */
module Rewriter {
  import opened Tokenizer
  import opened Calls
  import opened Quoting
  import opened Inserts
  import opened InsertLaws
  import opened RewriteRun
  import opened RewriteLaws

  // ---------- Scanning ----------

  method SkipSpace(toks: seq<Token>, from: nat) returns (i: nat)
    requires from <= |toks|
    ensures from <= i <= |toks| && toks[i..] == Solid(toks[from..])
  {
    i := from;
    while i < |toks| && IsSkippable(toks[i])
      invariant from <= i <= |toks|
      invariant Solid(toks[i..]) == Solid(toks[from..])
    {
      assert toks[i..][1..] == toks[i + 1..];
      i := i + 1;
    }
  }

  lemma ClosingOne(s: seq<Token>, depth: nat)
    requires s != [] && depth >= 1
    ensures s[0].text == ")" && depth == 1 ==> Closes(s, depth) && Closing(s, depth).value == 1
    ensures !(s[0].text == ")" && depth == 1) ==>
              var r := Closing(s[1..], DepthAfter(s[0], depth));
              && (r.Some? <==> Closes(s, depth))
              && (r.Some? ==> Closing(s, depth).value == r.value + 1)
  {}

  /** The place after the parenthesis that closes the one here. */
  method MatchParen(toks: seq<Token>, open: nat) returns (end: Option<nat>)
    requires open < |toks| && toks[open].text == "("
    ensures end.Some? <==> GroupLength(toks[open..]).Some?
    ensures end.Some? ==> open + 2 <= end.value <= |toks| && end.value == open + GroupLength(toks[open..]).value
  {
    var depth, i := 1, open + 1;
    assert toks[open..][1..] == toks[open + 1..];
    while i < |toks|
      invariant open < i <= |toks| && depth >= 1
      invariant Closes(toks[i..], depth) <==> Closes(toks[open + 1..], 1)
      invariant Closes(toks[i..], depth) ==>
                  Closing(toks[open + 1..], 1).value == i - open - 1 + Closing(toks[i..], depth).value
    {
      ClosingOne(toks[i..], depth);
      assert toks[i..][1..] == toks[i + 1..];
      if toks[i].text == "(" {
        depth := depth + 1;
      } else if toks[i].text == ")" {
        depth := depth - 1;
        if depth == 0 {
          return Some(i + 1);
        }
      }
      i := i + 1;
    }
    return None;
  }

  /** The place after the call whose name is here. */
  method MatchCall(toks: seq<Token>, i: nat) returns (end: Option<nat>)
    requires i < |toks|
    ensures end.Some? <==> CallLength(toks[i..]).Some?
    ensures end.Some? ==> i + 3 <= end.value <= |toks| && end.value == i + CallLength(toks[i..]).value
  {
    if i + 1 >= |toks| {
      return None;
    }
    var j := SkipSpace(toks, i + 1);
    assert toks[i..][1..] == toks[i + 1..];
    if j >= |toks| || toks[j].text != "(" {
      return None;
    }
    end := MatchParen(toks, j);
  }

  method CallHasEmptyArgs(toks: seq<Token>, start: nat, end: nat) returns (empty: bool)
    requires start + 2 <= end <= |toks|
    ensures empty <==> EmptyArgs(toks[start..], end - start)
  {
    var count := 0;
    ghost var inner := toks[start + 1..end - 1];
    assert toks[start..][1..end - start - 1] == inner;
    for i := start + 1 to end - 1
      invariant count + SolidCount(toks[i..end - 1]) == SolidCount(inner)
    {
      assert toks[i..end - 1][1..] == toks[i + 1..end - 1];
      if !IsSkippable(toks[i]) {
        count := count + 1;
      }
    }
    return count <= 1;
  }

  method AtStatementStart(toks: seq<Token>, i: nat) returns (atStart: bool)
    requires i <= |toks|
    ensures atStart <==> AtStart(toks, i)
  {
    for j := 0 to i
      invariant AtStart(toks, j)
    {
      if !IsSkippable(toks[j]) {
        return false;
      }
    }
    return true;
  }

  method PositionalParamIndex(toks: seq<Token>, j: nat) returns (n: nat)
    requires j <= |toks|
    ensures n == Questions(toks[..j])
  {
    n := 0;
    for i := 0 to j
      invariant n + Questions(toks[i..j]) == Questions(toks[..j])
    {
      assert toks[i..j][1..] == toks[i + 1..j];
      if toks[i].text == "?" && toks[i].kind == Punct {
        n := n + 1;
      }
    }
  }

  method ContainsNondeterministicCall(toks: seq<Token>, start: nat, end: nat) returns (found: bool)
    requires start <= end <= |toks|
    ensures found <==> ContainsCall(toks[start..], end - start)
  {
    ghost var s := toks[start..];
    for i := start to end
      invariant forall k :: 0 <= k < i - start ==>
                  !(IsClockName(s[k]) || (IsCallName(s[k]) && CallLength(s[k..]).Some?))
    {
      assert s[i - start] == toks[i] && s[i - start..] == toks[i..];
      if IsCallName(toks[i]) {
        var call := MatchCall(toks, i);
        if call.Some? {
          return true;
        }
      } else if IsClockName(toks[i]) {
        return true;
      }
    }
    return false;
  }

  // ---------- Lists and rows ----------

  lemma InnerSlice<T>(s: seq<T>, from: nat, to: nat)
    requires from + 2 <= to <= |s|
    ensures s[from..to][1..|s[from..to]| - 1] == s[from + 1..to - 1]
  {
    var inner := s[from..to][1..|s[from..to]| - 1];
    forall x | 0 <= x < |inner| ensures inner[x] == s[from + 1..to - 1][x] {
      assert s[from..to][1 + x] == s[from + 1 + x];
    }
  }

  lemma ColumnsStep(items: seq<string>, toks: seq<Token>, i: nat, close: nat, depth: int)
    requires i < close <= |toks|
    ensures items + Columns(toks[i..close], depth)
            == items + ColumnAt(toks[i], depth) + Columns(toks[i + 1..close], DepthAfter(toks[i], depth))
  {
    assert toks[i..close] == [toks[i]] + toks[i + 1..close];
    ColumnsNext(toks[i], toks[i + 1..close], depth);
  }

  lemma ColumnsDone(items: seq<string>, toks: seq<Token>, close: nat, depth: int)
    requires close <= |toks|
    ensures items + Columns(toks[close..close], depth) == items
  {}

  /** The names between two places. */
  method ColumnNames(toks: seq<Token>, from: nat, close: nat) returns (items: seq<string>)
    requires from <= close <= |toks|
    ensures items == Columns(toks[from..close], 0)
  {
    hide Columns, IdentText, Upper;
    items := [];
    var depth := 0;
    for i := from to close
      invariant items + Columns(toks[i..close], depth) == Columns(toks[from..close], 0)
    {
      var t := toks[i];
      ColumnsStep(items, toks, i, close, depth);
      assert items + [] == items;
      if t.text == "(" {
        depth := depth + 1;
      } else if t.text == ")" {
        depth := depth - 1;
      } else if depth == 0 && t.text == "," {
      } else if depth == 0 && !IsSkippable(t) && IdentText(t).Some? {
        items := items + [IdentText(t).value];
      }
    }
    ColumnsDone(items, toks, close, depth);
  }

  /** The names in the column list here, and the place after it. */
  method ParseParenList(toks: seq<Token>, open: nat) returns (items: seq<string>, end: Option<nat>)
    requires open < |toks| && toks[open].text == "("
    ensures end.Some? <==> GroupLength(toks[open..]).Some?
    ensures end.Some? ==> open + 2 <= end.value <= |toks| && end.value == open + GroupLength(toks[open..]).value
    ensures end.Some? ==> items == ListColumns(toks[open..end.value])
  {
    end := MatchParen(toks, open);
    items := [];
    if end.Some? {
      InnerSlice(toks, open, end.value);
      items := ColumnNames(toks, open + 1, end.value - 1);
    }
  }

  function PrependRow(rows: seq<seq<Token>>, r: Rows): Rows {
    if r.NoRows? then NoRows else Rows(rows + r.rows, r.rest)
  }

  lemma RowsOnce(s: seq<Token>, rows: seq<seq<Token>>)
    ensures var a := Solid(s);
            if GroupLength(a).None? then PrependRow(rows, ValuesRows(s)) == NoRows
            else
              var n := GroupLength(a).value; var b := Solid(a[n..]);
              PrependRow(rows, ValuesRows(s))
              == if BeginsWith(b, ",") then PrependRow(rows + [a[..n]], ValuesRows(b[1..]))
                 else Rows(rows + [a[..n]], b)
  {
    var a := Solid(s);
    if GroupLength(a).Some? {
      var n := GroupLength(a).value;
      var b := Solid(a[n..]);
      if BeginsWith(b, ",") && ValuesRows(b[1..]).Rows? {
        assert rows + ([a[..n]] + ValuesRows(b[1..]).rows) == rows + [a[..n]] + ValuesRows(b[1..]).rows;
      }
    }
  }

  lemma Slices(toks: seq<Token>, i: nat, n: nat)
    requires i <= n <= |toks|
    ensures toks[i..][..n - i] == toks[i..n] && toks[i..][n - i..] == toks[n..]
  {}

  /** The groups after VALUES, and the place after them. */
  method ParseValuesRows(toks: seq<Token>, valuesIdx: nat) returns (rows: seq<seq<Token>>, end: Option<nat>)
    requires valuesIdx < |toks|
    ensures var r := ValuesRows(toks[valuesIdx + 1..]);
            && (end.Some? <==> r.Rows?)
            && (end.Some? ==> valuesIdx < end.value <= |toks| && rows == r.rows && toks[end.value..] == r.rest)
  {
    hide ValuesRows, Closing, Solid, PrependRow;
    rows := [];
    var i := valuesIdx + 1;
    PrependNoRows(ValuesRows(toks[i..]));
    while true
      invariant valuesIdx < i <= |toks|
      invariant PrependRow(rows, ValuesRows(toks[i..])) == ValuesRows(toks[valuesIdx + 1..])
      decreases |toks| - i
    {
      RowsOnce(toks[i..], rows);
      i := SkipSpace(toks, i);
      if i >= |toks| || toks[i].text != "(" {
        return rows, None;
      }
      var close := MatchParen(toks, i);
      if close.None? {
        return rows, None;
      }
      Slices(toks, i, close.value);
      rows := rows + [toks[i..close.value]];
      i := SkipSpace(toks, close.value);
      if i < |toks| && toks[i].text == "," {
        Slices(toks, i, i + 1);
        i := i + 1;
      } else {
        return rows, Some(i);
      }
    }
  }

  lemma PrependNoRows(r: Rows)
    ensures PrependRow([], r) == r
  {
    if r.Rows? {
      assert [] + r.rows == r.rows;
    }
  }

  lemma SplitCounts(inside: seq<Token>, depth: int, current: seq<Token>)
    requires inside != []
    ensures |Split(inside, depth, current)|
            == (if inside[0].text == "," && depth == 0 then 1 else 0)
               + |Split(inside[1..], DepthAfter(inside[0], depth), [])|
  {
    SplitCurrent(inside[1..], DepthAfter(inside[0], depth), current + [inside[0]], []);
  }

  lemma {:induction false} SplitCurrent(inside: seq<Token>, depth: int, a: seq<Token>, b: seq<Token>)
    ensures |Split(inside, depth, a)| == |Split(inside, depth, b)|
  {
    if inside != [] && !(inside[0].text == "," && depth == 0) {
      SplitCurrent(inside[1..], DepthAfter(inside[0], depth), a + [inside[0]], b + [inside[0]]);
    }
  }

  /** The number of values in a row. */
  method RowValueCount(row: seq<Token>) returns (count: nat)
    requires |row| >= 2
    ensures count == |ValuesOf(row)|
  {
    count := 1;
    var depth := 0;
    var last := |row| - 1;
    for i := 1 to last
      invariant count + |Split(row[i..last], depth, [])| == 1 + |ValuesOf(row)|
    {
      SplitCounts(row[i..last], depth, []);
      assert row[i..last][1..] == row[i + 1..last];
      if row[i].text == "(" {
        depth := depth + 1;
      } else if row[i].text == ")" {
        depth := depth - 1;
      } else if row[i].text == "," && depth == 0 {
        count := count + 1;
      }
    }
  }

  // ---------- Rebuilding ----------

  /** The tokens of a group with more of them before its closing parenthesis. */
  method CopyWithExtra(toks: seq<Token>, open: nat, close: nat, extra: seq<Token>) returns (out: seq<Token>)
    requires open + 2 <= close <= |toks|
    ensures out == WithExtra(toks[open..close], extra)
  {
    out := [];
    for j := open to close - 1
      invariant out == toks[open..j]
    {
      out := out + [toks[j]];
    }
    out := out + extra + [toks[close - 1]];
    assert toks[open..close][..close - open - 1] == toks[open..close - 1];
  }

  predicate GroupEndsAt(toks: seq<Token>, i: nat, n: nat) {
    i + 2 <= n <= |toks| && HasGroup(toks[i..], n - i)
  }

  predicate NoGroupAt(toks: seq<Token>, i: nat)
    requires i < |toks|
  {
    GroupLength(toks[i..]).None?
  }

  /** The group here, if there is one. */
  method GroupAt(toks: seq<Token>, i: nat) returns (end: Option<nat>)
    requires i < |toks|
    ensures if end.Some? then GroupEndsAt(toks, i, end.value) else NoGroupAt(toks, i)
  {
    end := None;
    if toks[i].text == "(" {
      end := MatchParen(toks, i);
    }
  }

  function RowWithId(row: seq<Token>, ids: seq<int>): seq<Token>
    requires row != []
  {
    if ids == [] then row else WithExtra(row, IdTokens(ids[0]))
  }

  function Tail(ids: seq<int>): seq<int> {
    if ids == [] then [] else ids[1..]
  }

  lemma AddIdsAtGroup(toks: seq<Token>, i: nat, n: nat, end: nat, ids: seq<int>, out: seq<Token>)
    requires i < end <= |toks| && GroupEndsAt(toks, i, n)
    ensures Beyond(n, end) <= |toks[n..]|
    ensures out + AddIds(toks[i..], end - i, ids)
            == out + RowWithId(toks[i..n], ids) + AddIds(toks[n..], Beyond(n, end), Tail(ids))
  {
    Slices(toks, i, n);
    assert AddIds(toks[i..], end - i, ids) == RowWithId(toks[i..n], ids) + AddIds(toks[n..], Beyond(n, end), Tail(ids));
  }

  lemma AddIdsAtToken(toks: seq<Token>, i: nat, end: nat, ids: seq<int>, out: seq<Token>)
    requires i < end <= |toks| && NoGroupAt(toks, i)
    ensures out + AddIds(toks[i..], end - i, ids) == out + [toks[i]] + AddIds(toks[i + 1..], end - i - 1, ids)
  {
    Slices(toks, i, i + 1);
    assert AddIds(toks[i..], end - i, ids) == [toks[i]] + AddIds(toks[i + 1..], end - i - 1, ids);
  }

  /** The rows with their ids: the second phase. */
  method AddIdsFrom(toks: seq<Token>, from: nat, end: nat, ids: seq<int>) returns (out: seq<Token>)
    requires from <= end <= |toks|
    ensures out == AddIds(toks[from..], end - from, ids)
  {
    hide AddIds, GroupEndsAt, NoGroupAt, WithExtra, IdTokens;
    out := [];
    var i, rowIdx := from, 0;
    assert ids[0..] == ids;
    while i < end
      invariant from <= i <= |toks| && rowIdx <= |ids|
      invariant out + AddIds(toks[i..], Beyond(i, end), ids[rowIdx..]) == AddIds(toks[from..], end - from, ids)
      decreases |toks| - i
    {
      var close := GroupAt(toks, i);
      if close.Some? {
        var n := close.value;
        GroupIsLong(toks, i, n);
        AddIdsAtGroup(toks, i, n, end, ids[rowIdx..], out);
        if rowIdx < |ids| {
          var group := CopyWithExtra(toks, i, n, IdTokens(ids[rowIdx]));
          assert ids[rowIdx..][1..] == ids[rowIdx + 1..];
          out := out + group;
          rowIdx := rowIdx + 1;
        } else {
          out := out + toks[i..n];
        }
        i := n;
      } else {
        AddIdsAtToken(toks, i, end, ids[rowIdx..], out);
        out := out + [toks[i]];
        i := i + 1;
      }
    }
    AddIdsDone(toks[i..], ids[rowIdx..], out);
  }

  lemma GroupIsLong(toks: seq<Token>, i: nat, n: nat)
    requires GroupEndsAt(toks, i, n)
    ensures i + 2 <= n <= |toks|
  {}

  lemma AddIdsDone(s: seq<Token>, ids: seq<int>, out: seq<Token>)
    ensures out + AddIds(s, 0, ids) == out
  {}

  lemma RebuildAtGroup(toks: seq<Token>, i: nat, n: nat, end: nat, column: string, ids: seq<int>, out: seq<Token>)
    requires i < end <= |toks| && GroupEndsAt(toks, i, n)
    ensures Beyond(n, end) <= |toks[n..]|
    ensures out + Rebuild(toks[i..], end - i, column, ids)
            == out + WithExtra(toks[i..n], ColumnTokens(column)) + Rebuild(toks[n..], Beyond(n, end), column, ids)
  {
    Slices(toks, i, n);
    assert Rebuild(toks[i..], end - i, column, ids)
        == WithExtra(toks[i..n], ColumnTokens(column)) + Rebuild(toks[n..], Beyond(n, end), column, ids);
  }

  lemma RebuildAtValues(toks: seq<Token>, i: nat, end: nat, column: string, ids: seq<int>, out: seq<Token>)
    requires i < end <= |toks| && NoGroupAt(toks, i) && IsKeyword(toks[i], "VALUES")
    ensures out + Rebuild(toks[i..], end - i, column, ids) == out + [toks[i]] + AddIds(toks[i + 1..], end - i - 1, ids)
  {
    Slices(toks, i, i + 1);
    assert Rebuild(toks[i..], end - i, column, ids) == [toks[i]] + AddIds(toks[i + 1..], end - i - 1, ids);
  }

  lemma RebuildAtToken(toks: seq<Token>, i: nat, end: nat, column: string, ids: seq<int>, out: seq<Token>)
    requires i < end <= |toks| && NoGroupAt(toks, i) && !IsKeyword(toks[i], "VALUES")
    ensures out + Rebuild(toks[i..], end - i, column, ids)
            == out + [toks[i]] + Rebuild(toks[i + 1..], end - i - 1, column, ids)
  {
    Slices(toks, i, i + 1);
    assert Rebuild(toks[i..], end - i, column, ids) == [toks[i]] + Rebuild(toks[i + 1..], end - i - 1, column, ids);
  }

  lemma RebuildDone(s: seq<Token>, column: string, ids: seq<int>, out: seq<Token>)
    ensures out + Rebuild(s, 0, column, ids) == out
  {}

  /** The statement with the column in its list and an id in each row. */
  method RebuildInsertValues(toks: seq<Token>, start: nat, end: nat, column: string, ids: seq<int>)
    returns (out: seq<Token>)
    requires start <= end <= |toks|
    ensures out == Rebuild(toks[start..], end - start, column, ids)
  {
    hide Rebuild, AddIds, GroupEndsAt, NoGroupAt, WithExtra, ColumnTokens, IsKeyword;
    out := [];
    var i := start;
    while i < end
      invariant start <= i <= |toks|
      invariant out + Rebuild(toks[i..], Beyond(i, end), column, ids) == Rebuild(toks[start..], end - start, column, ids)
      decreases |toks| - i
    {
      var close := GroupAt(toks, i);
      if close.Some? {
        GroupIsLong(toks, i, close.value);
        RebuildAtGroup(toks, i, close.value, end, column, ids, out);
        var group := CopyWithExtra(toks, i, close.value, ColumnTokens(column));
        out := out + group;
        i := close.value;
      } else if IsKeyword(toks[i], "VALUES") {
        RebuildAtValues(toks, i, end, column, ids, out);
        var rows := AddIdsFrom(toks, i + 1, end, ids);
        return out + [toks[i]] + rows;
      } else {
        RebuildAtToken(toks, i, end, column, ids, out);
        out := out + [toks[i]];
        i := i + 1;
      }
    }
    RebuildDone(toks[i..], column, ids, out);
  }

  /** What is left of the DEFAULT form from a place on, which may be past the end. */
  function DefaultFrom(toks: seq<Token>, i: nat, end: nat, column: string, id: int): seq<Token>
    requires end <= |toks|
  {
    if i < end then RebuildDefault(toks[i..], end - i, column, id) else []
  }

  lemma DefaultOnce(s: seq<Token>, left: nat, column: string, id: int, rest: seq<Token>)
    requires 1 <= left <= |s| && IsKeyword(s[0], "DEFAULT")
    requires var n := |s| - |Solid(s[1..])| + 1;
             rest == if n < left then RebuildDefault(s[n..], left - n, column, id) else []
    ensures RebuildDefault(s, left, column, id) == DefaultTokens(column, id) + rest
  {}

  lemma DefaultAtKeyword(toks: seq<Token>, i: nat, j: nat, end: nat, column: string, id: int, out: seq<Token>)
    requires i < j <= |toks| && i < end <= |toks| && IsKeyword(toks[i], "DEFAULT") && toks[j..] == Solid(toks[i + 1..])
    ensures out + DefaultFrom(toks, i, end, column, id)
            == out + DefaultTokens(column, id) + DefaultFrom(toks, j + 1, end, column, id)
  {
    hide RebuildDefault, DefaultTokens, Solid, IsKeyword;
    Slices(toks, i, i + 1);
    var s, rest := toks[i..], DefaultFrom(toks, j + 1, end, column, id);
    assert |s| - |Solid(s[1..])| + 1 == j + 1 - i;
    if j + 1 < end {
      Slices(toks, i, j + 1);
    }
    DefaultOnce(s, end - i, column, id, rest);
    assert out + (DefaultTokens(column, id) + rest) == out + DefaultTokens(column, id) + rest;
  }

  lemma DefaultAtToken(toks: seq<Token>, i: nat, end: nat, column: string, id: int, out: seq<Token>)
    requires i < end <= |toks| && !IsKeyword(toks[i], "DEFAULT")
    ensures out + DefaultFrom(toks, i, end, column, id) == out + [toks[i]] + DefaultFrom(toks, i + 1, end, column, id)
  {
    Slices(toks, i, i + 1);
    assert DefaultFrom(toks, i, end, column, id) == [toks[i]] + DefaultFrom(toks, i + 1, end, column, id);
  }

  /** The statement with DEFAULT VALUES written out. */
  method RebuildInsertDefault(toks: seq<Token>, start: nat, end: nat, column: string, id: int)
    returns (out: seq<Token>)
    requires start <= end <= |toks|
    ensures out == RebuildDefault(toks[start..], end - start, column, id)
  {
    hide RebuildDefault, DefaultTokens, IsKeyword, Solid;
    out := [];
    var i := start;
    DefaultWhole(toks, start, end, column, id);
    while i < end
      invariant start <= i
      invariant out + DefaultFrom(toks, i, end, column, id) == RebuildDefault(toks[start..], end - start, column, id)
      decreases end - i
    {
      if IsKeyword(toks[i], "DEFAULT") {
        var j := SkipSpace(toks, i + 1);
        DefaultAtKeyword(toks, i, j, end, column, id, out);
        out := out + DefaultTokens(column, id);
        i := j + 1;
      } else {
        DefaultAtToken(toks, i, end, column, id, out);
        out := out + [toks[i]];
        i := i + 1;
      }
    }
  }

  lemma DefaultWhole(toks: seq<Token>, start: nat, end: nat, column: string, id: int)
    requires start <= end <= |toks|
    ensures DefaultFrom(toks, start, end, column, id) == RebuildDefault(toks[start..], end - start, column, id)
  {}

  /** Consecutive ids. */
  method ConsecutiveIDs(next: int, n: nat) returns (ids: seq<int>)
    ensures ids == Ids(next, n)
  {
    ids := [];
    for i := 0 to n
      invariant ids + Ids(next + i, n - i) == Ids(next, n)
    {
      assert ids + ([next + i] + Ids(next + i + 1, n - i - 1)) == ids + [next + i] + Ids(next + i + 1, n - i - 1);
      ids := ids + [next + i];
    }
  }

  // ---------- The rewriter ----------

  class Rewriter {
    const tokens: seq<Token>
    const schema: Option<Schema>
    const clock: Clock
    var params: seq<Value>
    var random: seq<Byte>
    var sequence: map<string, int>

    constructor (tokens: seq<Token>, params: seq<Value>, schema: Option<Schema>, clock: Clock, random: seq<Byte>)
      ensures this.tokens == tokens && this.schema == schema && this.clock == clock
      ensures State() == Env(random, params, map[])
    {
      this.tokens, this.schema, this.clock := tokens, schema, clock;
      this.params, this.random, this.sequence := params, random, map[];
    }

    function State(): Env
      reads this
    {
      Env(random, params, sequence)
    }

    /** The length of a RANDOMBLOB, whose parameter is removed. */
    method RandomBlobLen(start: nat) returns (length: Outcome<int>)
      requires start < |tokens| && CallLength(tokens[start..]).Some?
      modifies this`params
      ensures var r := BlobLength(tokens, start, old(params));
              if r.Failed? then length == Failed(r.why) && params == old(params)
              else length == Done(r.value.0) && params == r.value.1
    {
      var inner := SkipSpace(tokens, start + 1);
      assert tokens[start..][1..] == tokens[start + 1..];
      assert tokens[inner..][1..] == tokens[inner + 1..];
      var arg := SkipSpace(tokens, inner + 1);
      if arg == |tokens| {
        return Failed(BadLength);
      }
      var t := tokens[arg];
      if t.kind == Ident {
        var n := ParseInt64(t.text);
        return if n.Some? then Done(n.value) else Failed(BadLength);
      }
      if t.text == "?" {
        var index := PositionalParamIndex(tokens, arg);
        if index >= |params| {
          return Failed(BadLength);
        }
        var n := ValueToInt64(params[index]);
        if n.None? {
          return Failed(BadLength);
        }
        params := params[..index] + params[index + 1..];
        return Done(n.value);
      }
      return Failed(BadLength);
    }

    /** The next random bytes. */
    method ReadRandom(n: nat) returns (bytes: Option<seq<Byte>>)
      modifies this`random
      ensures if n <= |old(random)| then bytes == Some(old(random)[..n]) && random == old(random)[n..]
              else bytes == None && random == old(random)
    {
      if n > |random| {
        return None;
      }
      bytes := Some(random[..n]);
      random := random[n..];
    }

    /** Skips a keyword and the token after it, if the keyword is here. */
    method SkipKeyword(from: nat, keyword: string) returns (i: nat)
      requires from <= |tokens|
      ensures from <= i <= |tokens| && tokens[i..] == SkipClause(tokens[from..], keyword)
    {
      i := from;
      if i < |tokens| && IsKeyword(tokens[i], keyword) {
        Slices(tokens, i, i + 1);
        i := SkipSpace(tokens, i + 1);
        if i < |tokens| {
          Slices(tokens, i, i + 1);
          i := i + 1;
        }
        i := SkipSpace(tokens, i);
      }
    }

    method ParseTableName(from: nat) returns (name: string, i: nat, ok: bool)
      requires from <= |tokens|
      ensures var t := TableName(tokens[from..]);
              && (ok <==> t.Named?)
              && (ok ==> from <= i <= |tokens| && t == Named(name, tokens[i..]))
    {
      hide Solid, IdentText;
      name, i, ok := "", from, false;
      if i >= |tokens| || IdentText(tokens[i]).None? {
        return;
      }
      name := IdentText(tokens[i]).value;
      Slices(tokens, i, i + 1);
      i := SkipSpace(tokens, i + 1);
      if i < |tokens| && tokens[i].text == "." {
        Slices(tokens, i, i + 1);
        var j := SkipSpace(tokens, i + 1);
        if j >= |tokens| || IdentText(tokens[j]).None? {
          return;
        }
        name := IdentText(tokens[j]).value;
        Slices(tokens, j, j + 1);
        i := SkipSpace(tokens, j + 1);
      }
      ok := true;
    }

    /** INSERT [OR action] INTO table [AS alias]: the table, and the place after it. */
    method ParseHead(start: nat) returns (table: string, i: nat, ok: bool)
      requires start < |tokens|
      ensures var h := InsertHead(tokens[start..]);
              && (ok <==> h.Named?)
              && (ok ==> start < i <= |tokens| && h == Named(table, tokens[i..]))
    {
      hide TableName, SkipClause, Solid, IsKeyword;
      table, ok := "", false;
      Slices(tokens, start, start + 1);
      i := SkipSpace(tokens, start + 1);
      i := SkipKeyword(i, "OR");
      if i >= |tokens| || !IsKeyword(tokens[i], "INTO") {
        return;
      }
      Slices(tokens, i, i + 1);
      i := SkipSpace(tokens, i + 1);
      var name, after, named := ParseTableName(i);
      if !named {
        return;
      }
      table := name;
      i := SkipSpace(tokens, after);
      i := SkipKeyword(i, "AS");
      ok := true;
    }

    /** DEFAULT VALUES, or VALUES and rows. */
    method ParseValues(start: nat, before: nat, from: nat, table: string, list: Option<seq<Token>>) returns (p: Parsed)
      requires start < from <= |tokens|
      ensures p == ParseBody(table, list, before, Solid(tokens[from..]), |tokens| - start)
    {
      hide ValuesRows, Solid, IsKeyword;
      var i := SkipSpace(tokens, from);
      if i >= |tokens| {
        return NoInsert;
      }
      Slices(tokens, i, i + 1);
      if IsKeyword(tokens[i], "DEFAULT") {
        var valuesIdx := SkipSpace(tokens, i + 1);
        if valuesIdx >= |tokens| || !IsKeyword(tokens[valuesIdx], "VALUES") {
          return NoInsert;
        }
        return Default(table, valuesIdx + 1 - start);
      }
      if !IsKeyword(tokens[i], "VALUES") {
        return NoInsert;
      }
      var rows, end := ParseValuesRows(tokens, i);
      if end.None? {
        return NoInsert;
      }
      p := Values(table, list, before, rows, end.value - start);
    }

    /** The rest of the statement, from after the table name. */
    method ParseTail(start: nat, from: nat, table: string) returns (p: Parsed, columns: seq<string>)
      requires start < from <= |tokens| && InsertHead(tokens[start..]) == Named(table, tokens[from..])
      ensures p == ParseInsert(tokens[start..])
      ensures p.Values? && p.list.Some? ==> |p.list.value| >= 2 && columns == ListColumns(p.list.value)
    {
      hide InsertHead, ValuesRows, Solid, IsKeyword, ListColumns, Closing, GroupLength;
      columns := [];
      if from < |tokens| && tokens[from].text == "(" {
        var names, close := ParseParenList(tokens, from);
        if close.None? {
          return NoInsert, [];
        }
        Slices(tokens, from, close.value);
        columns := names;
        p := ParseValues(start, from - start, close.value, table, Some(tokens[from..close.value]));
      } else {
        p := ParseValues(start, from - start, from, table, None);
      }
    }

    /** The rows have as many values as there are columns. */
    method RowsMatch(rows: seq<seq<Token>>, count: nat) returns (match_: bool)
      requires forall k :: 0 <= k < |rows| ==> |rows[k]| >= 2
      ensures match_ <==> RowsHave(rows, count)
    {
      for k := 0 to |rows|
        invariant RowsHave(rows[..k], count)
      {
        var n := RowValueCount(rows[k]);
        assert rows[..k + 1] == rows[..k] + [rows[k]];
        if n != count {
          return false;
        }
      }
      assert rows[..|rows|] == rows;
      return true;
    }

    /** Records and returns the ids for some rows. */
    method NextIDs(table: string, n: nat) returns (ids: seq<int>)
      requires schema.Some? && table in schema.value.next
      modifies this`sequence
      ensures ids == Ids(schema.value.next[table], n)
      ensures sequence == old(sequence)[table := schema.value.next[table]]
    {
      var next := schema.value.next[table];
      ids := ConsecutiveIDs(next, n);
      sequence := sequence[table := next];
    }

    /** Rewrites the INSERT here, if it is one that omits the auto-increment column. */
    method RewriteInsertAt(start: nat) returns (out: seq<Token>, end: nat, ok: bool)
      requires start < |tokens| && schema.Some?
      modifies this`sequence
      ensures var w := RewriteInsert(schema.value, tokens[start..]);
              && (ok <==> w.Rewriting?)
              && (ok ==> out == w.tokens && end == start + w.end && sequence == old(sequence)[w.table := w.next])
              && (!ok ==> sequence == old(sequence))
    {
      hide InsertHead, ParseInsert, Rebuild, RebuildDefault, ContainsCall, ListColumns, RowsHave, Ids;
      out, end, ok := [], start, false;
      var table, from, named := ParseHead(start);
      if !named {
        NoHead(tokens[start..]);
        return;
      }
      var p, columns := ParseTail(start, from, table);
      if p.NoInsert? || AutoColumn(schema.value, p.table) == "" {
        return;
      }
      var autoCol := AutoColumn(schema.value, p.table);
      end := start + p.end;
      if p.Default? {
        if p.table !in schema.value.next {
          return;
        }
        var ids := NextIDs(p.table, 1);
        OneId(schema.value.next[p.table]);
        out := RebuildInsertDefault(tokens, start, end, autoCol, ids[0]);
        return out, end, true;
      }
      var found := ContainsNondeterministicCall(tokens, start, end);
      if found || p.list.None? || autoCol in columns {
        return;
      }
      RowsAreLong(tokens[start..]);
      var match_ := RowsMatch(p.rows, |columns|);
      if !match_ || p.table !in schema.value.next {
        return;
      }
      var ids := NextIDs(p.table, |p.rows|);
      out := RebuildInsertValues(tokens, start, end, autoCol, ids);
      ok := true;
    }

    /** A random number. */
    method RandomInt64() returns (n: Option<int>)
      modifies this`random
      ensures if |old(random)| < 8 then n == None && random == old(random)
              else n == Some(Int64(old(random)[..8])) && random == old(random)[8..]
    {
      var bytes := ReadRandom(8);
      n := if bytes.Some? then Some(Int64(bytes.value)) else None;
    }

    /** The literal for the trigger here. */
    method LiteralAt(i: nat) returns (literal: Outcome<seq<Token>>)
      requires i < |tokens| && IsTrigger(tokens[i..])
      modifies this`random, this`params
      ensures var r := Literal(tokens, i, clock, old(State()));
              if r.Failed? then literal == Failed(r.why) else literal == Done(r.value.0) && State() == r.value.1
    {
      hide BlobLength, CallLength, StringTokens, DecimalTokens, BlobTokens, Int64;
      var t := tokens[i];
      if IsKeyword(t, "NOW") {
        return Done(StringTokens(clock.now));
      } else if IsKeyword(t, "CURRENT_TIMESTAMP") {
        return Done(StringTokens(clock.timestamp));
      } else if IsKeyword(t, "CURRENT_DATE") {
        return Done(StringTokens(clock.date));
      } else if IsKeyword(t, "CURRENT_TIME") {
        return Done(StringTokens(clock.time));
      } else if IsKeyword(t, "RANDOM") {
        var v := RandomInt64();
        return if v.Some? then Done(DecimalTokens(v.value)) else Failed(NoRandomness);
      }
      var n := RandomBlobLen(i);
      if n.Failed? {
        return Failed(n.why);
      }
      if n.value < 0 {
        return Failed(NegativeLength);
      }
      var bytes := ReadRandom(n.value);
      return if bytes.Some? then Done(BlobTokens(bytes.value)) else Failed(NoRandomness);
    }

    /** Where the trigger here ends, if there is one. */
    method TriggerEnd(i: nat) returns (end: Option<nat>)
      requires i < |tokens|
      ensures end.Some? <==> IsTrigger(tokens[i..])
      ensures end.Some? ==> end.value == i + TriggerLength(tokens[i..])
    {
      hide CallLength, EmptyArgs;
      var t := tokens[i];
      end := None;
      if IsClockName(t) {
        return Some(i + 1);
      }
      if IsCallName(t) {
        end := MatchCall(tokens, i);
        if end.Some? && IsKeyword(t, "RANDOM") {
          var empty := CallHasEmptyArgs(tokens, i, end.value);
          if !empty {
            return None;
          }
        }
      }
    }

    /** One pass over the tokens. */
    method Run() returns (out: Outcome<seq<Token>>)
      modifies this
      ensures var r := RunFrom(tokens, 0, clock, schema, old(State()));
              if r.Failed? then out == Failed(r.why) else out == Done(Emitted(r.value.pieces)) && State() == r.value.env
    {
      hide RunFrom, Step, Emitted, RewriteInsert, TriggerLength, Literal, AtStart;
      var emitted, i := [], 0;
      ghost var pieces := [];
      RunBegins(RunFrom(tokens, 0, clock, schema, State()));
      while i < |tokens|
        invariant i <= |tokens| && emitted == Emitted(pieces)
        invariant Continue(pieces, RunFrom(tokens, i, clock, schema, State()))
                  == RunFrom(tokens, 0, clock, schema, old(State()))
        decreases |tokens| - i
      {
        ghost var env := State();
        var t := tokens[i];
        if IsKeyword(t, "INSERT") && schema.Some? {
          var atStart := AtStatementStart(tokens, i);
          if atStart {
            var repl, end, ok := RewriteInsertAt(i);
            if ok {
              RunInsert(tokens, i, clock, schema, env, pieces);
              pieces := pieces + [Piece(tokens[i..end], repl)];
              emitted := emitted + repl;
              i := end;
              continue;
            }
          }
        }
        var end := TriggerEnd(i);
        if end.Some? {
          var literal := LiteralAt(i);
          RunTrigger(tokens, i, clock, schema, env, pieces);
          if literal.Failed? {
            return Failed(literal.why);
          }
          pieces := pieces + [Piece(tokens[i..end.value], literal.value)];
          emitted := emitted + literal.value;
          i := end.value;
        } else {
          RunCopy(tokens, i, clock, schema, env, pieces);
          pieces := pieces + [Piece([t], [t])];
          emitted := emitted + [t];
          i := i + 1;
        }
      }
      RunEnds(tokens, clock, schema, State(), pieces);
      return Done(emitted);
    }
  }

  lemma NoHead(s: seq<Token>)
    requires s != [] && InsertHead(s).NoName?
    ensures ParseInsert(s) == NoInsert
  {}

  lemma OneId(next: int)
    ensures Ids(next, 1) == [next]
  {
    assert Ids(next + 1, 0) == [];
  }

  lemma RowsAreLong(s: seq<Token>)
    requires s != []
    ensures ParseInsert(s).Values? ==> forall k :: 0 <= k < |ParseInsert(s).rows| ==> |ParseInsert(s).rows[k]| >= 2
  {}

  // ---------- The pass, turn by turn ----------

  /** What was done before the rest of a pass. */
  function Continue(pieces: seq<Piece>, r: Outcome<Run>): Outcome<Run> {
    if r.Failed? then r else Done(Run(pieces + r.value.pieces, r.value.env))
  }

  lemma RunBegins(r: Outcome<Run>)
    ensures Continue([], r) == r && Emitted([]) == []
  {
    if r.Done? {
      assert [] + r.value.pieces == r.value.pieces;
    }
  }

  lemma RunEnds(toks: seq<Token>, clock: Clock, schema: Option<Schema>, env: Env, pieces: seq<Piece>)
    ensures Continue(pieces, RunFrom(toks, |toks|, clock, schema, env)) == Done(Run(pieces, env))
  {
    assert pieces + [] == pieces;
  }

  lemma {:induction false} EmittedAppends(pieces: seq<Piece>, p: Piece)
    ensures Emitted(pieces + [p]) == Emitted(pieces) + p.emitted
  {
    if pieces == [] {
      assert [] + [p] == [p];
      EmittedNext(p, []);
    } else {
      EmittedAppends(pieces[1..], p);
      assert pieces + [p] == [pieces[0]] + (pieces[1..] + [p]);
      EmittedNext(pieces[0], pieces[1..] + [p]);
    }
  }

  lemma TurnContinues(pieces: seq<Piece>, p: Piece, r: Outcome<Run>)
    ensures Continue(pieces, Then(p, r)) == Continue(pieces + [p], r)
  {
    if r.Done? {
      assert pieces + ([p] + r.value.pieces) == pieces + [p] + r.value.pieces;
    }
  }

  lemma RunTurn(toks: seq<Token>, i: nat, clock: Clock, schema: Option<Schema>, env: Env, pieces: seq<Piece>)
    requires i < |toks|
    ensures var step := Step(toks, i, clock, schema, env);
            var r := Continue(pieces, RunFrom(toks, i, clock, schema, env));
            if step.Failed? then r == Failed(step.why)
            else
              && r == Continue(pieces + [step.value.0],
                               RunFrom(toks, i + |step.value.0.source|, clock, schema, step.value.1))
              && Emitted(pieces + [step.value.0]) == Emitted(pieces) + step.value.0.emitted
  {
    hide Step, Emitted;
    var step := Step(toks, i, clock, schema, env);
    if step.Done? {
      TurnContinues(pieces, step.value.0, RunFrom(toks, i + |step.value.0.source|, clock, schema, step.value.1));
      EmittedAppends(pieces, step.value.0);
    }
  }

  lemma RunInsert(toks: seq<Token>, i: nat, clock: Clock, schema: Option<Schema>, env: Env, pieces: seq<Piece>)
    requires i < |toks| && InsertAt(toks, i, schema).Rewriting?
    ensures var w := InsertAt(toks, i, schema); var p := Piece(toks[i..i + w.end], w.tokens);
            && Continue(pieces, RunFrom(toks, i, clock, schema, env))
               == Continue(pieces + [p], RunFrom(toks, i + w.end, clock, schema,
                                                 env.(sequence := env.sequence[w.table := w.next])))
            && Emitted(pieces + [p]) == Emitted(pieces) + w.tokens
  {
    hide RunFrom, Emitted, InsertAt, TriggerLength, Literal;
    RunTurn(toks, i, clock, schema, env, pieces);
  }

  lemma RunTrigger(toks: seq<Token>, i: nat, clock: Clock, schema: Option<Schema>, env: Env, pieces: seq<Piece>)
    requires i < |toks| && InsertAt(toks, i, schema) == Pass && IsTrigger(toks[i..])
    ensures var n := TriggerLength(toks[i..]); var lit := Literal(toks, i, clock, env);
            if lit.Failed? then Continue(pieces, RunFrom(toks, i, clock, schema, env)) == Failed(lit.why)
            else
              var p := Piece(toks[i..i + n], lit.value.0);
              && Continue(pieces, RunFrom(toks, i, clock, schema, env))
                 == Continue(pieces + [p], RunFrom(toks, i + n, clock, schema, lit.value.1))
              && Emitted(pieces + [p]) == Emitted(pieces) + lit.value.0
  {
    hide RunFrom, Emitted, InsertAt, TriggerLength, Literal;
    RunTurn(toks, i, clock, schema, env, pieces);
  }

  lemma RunCopy(toks: seq<Token>, i: nat, clock: Clock, schema: Option<Schema>, env: Env, pieces: seq<Piece>)
    requires i < |toks| && InsertAt(toks, i, schema) == Pass && !IsTrigger(toks[i..])
    ensures var p := Piece([toks[i]], [toks[i]]);
            && Continue(pieces, RunFrom(toks, i, clock, schema, env))
               == Continue(pieces + [p], RunFrom(toks, i + 1, clock, schema, env))
            && Emitted(pieces + [p]) == Emitted(pieces) + [toks[i]]
  {
    hide RunFrom, Emitted, InsertAt, TriggerLength, Literal;
    RunTurn(toks, i, clock, schema, env, pieces);
  }

  // ---------- Rewriting a statement ----------

  datatype Result = Result(sql: string, params: seq<Value>, sequence: map<string, int>)

  lemma NeverFails(toks: seq<Token>, i: nat, clock: Clock, schema: Option<Schema>, env: Env)
    requires i <= |toks| && forall j :: NothingAt(toks, j, schema)
    ensures RunFrom(toks, i, clock, schema, env).Done? && RunFrom(toks, i, clock, schema, env).value.env == env
    decreases |toks| - i
  {
    if i < |toks| {
      assert NothingAt(toks, i, schema);
      NeverFails(toks, i + 1, clock, schema, env);
    }
  }

  /** Rewrites a statement. Its tokens are all accounted for; nothing nondeterministic is left; and a statement with
      nothing to rewrite comes back byte for byte. */
  method Rewrite(sql: string, params: seq<Value>, schema: Option<Schema>, clock: Clock, random: seq<Byte>)
    returns (r: Outcome<Result>, ghost pieces: seq<Piece>)
    ensures r.Done? ==>
              var toks := TokensFrom(sql, 0);
              && ArePieces(pieces, toks, 0, schema) && Text(Sources(pieces)) == sql
              && r.value.sql == Text(Emitted(pieces))
              && (StartIsPlain(toks, schema) ==> Clean(Emitted(pieces)))
    ensures (forall j :: NothingAt(TokensFrom(sql, 0), j, schema)) ==> r == Done(Result(sql, params, map[]))
  {
    hide RunFrom, Emitted, Sources, ArePieces, StartIsPlain, Clean, NothingAt, TokensFrom, AllProper;
    pieces := [];
    var toks := Tokenize(sql);
    var rw := new Rewriter(toks, params, schema, clock, random);
    ghost var run := RunFrom(toks, 0, clock, schema, rw.State());
    var out := rw.Run();
    if forall j :: NothingAt(toks, j, schema) {
      NeverFails(toks, 0, clock, schema, Env(random, params, map[]));
    }
    if out.Failed? {
      return Failed(out.why), [];
    }
    pieces := run.value.pieces;
    Accounted(sql, toks, clock, schema, Env(random, params, map[]), run.value);
    return Done(Result(Text(out.value), rw.params, rw.sequence)), pieces;
  }

  lemma Accounted(sql: string, toks: seq<Token>, clock: Clock, schema: Option<Schema>, env: Env, r: Run)
    requires toks == TokensFrom(sql, 0) && RunFrom(toks, 0, clock, schema, env) == Done(r)
    ensures ArePieces(r.pieces, toks, 0, schema) && Text(Sources(r.pieces)) == sql
    ensures StartIsPlain(toks, schema) ==> Clean(Emitted(r.pieces))
    ensures (forall j :: NothingAt(toks, j, schema)) ==> Text(Emitted(r.pieces)) == sql
  {
    hide RunFrom, Emitted, Sources, ArePieces, StartIsPlain, Clean, NothingAt, TokensFrom, AllProper;
    RunIsVerbatim(toks, 0, clock, schema, env, r);
    Lossless(sql, 0);
    TokensAreProper(sql, 0);
    assert toks[0..] == toks && sql[0..] == sql;
    if StartIsPlain(toks, schema) {
      PiecesAreClean(r.pieces, toks, 0, schema);
    }
    if forall j :: NothingAt(toks, j, schema) {
      NothingChanges(r.pieces, toks, 0, schema);
    }
  }
}
