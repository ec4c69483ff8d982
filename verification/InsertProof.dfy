/**
 The rewritten INSERT statement as a whole: parsed again, it inserts the old rows, each with its id; it is the old
 statement with tokens put in; and it is clean. A statement is taken apart into its head, its column list, what lies
 between, the VALUES token and the rows, and each part is followed through the rewriting.
 */
module InsertProof {
  import opened Tokenizer
  import opened Calls
  import opened Quoting
  import opened Inserts
  import opened InsertLaws
  import opened InsertClean

  // ---------- Suffixes ----------

  predicate IsSuffix(u: seq<Token>, s: seq<Token>) {
    |u| <= |s| && u == s[|s| - |u|..]
  }

  lemma SuffixOfSuffix(u: seq<Token>, t: seq<Token>, s: seq<Token>)
    requires IsSuffix(u, t) && IsSuffix(t, s)
    ensures IsSuffix(u, s)
  {
    assert s[|s| - |u|..] == s[|s| - |t|..][|t| - |u|..];
  }

  lemma SolidSuffix(s: seq<Token>, n: nat)
    requires n <= |s|
    ensures IsSuffix(Solid(s[n..]), s)
  {
    SolidIs(s[n..]);
    SuffixOfSuffix(Solid(s[n..]), s[n..], s);
  }

  lemma ClauseSuffix(s: seq<Token>, keyword: string)
    ensures IsSuffix(SkipClause(s, keyword), s)
  {
    if BeginsKeyword(s, keyword) {
      var w := Solid(s[1..]);
      SolidSuffix(s, 1);
      if w == [] {
      } else {
        SolidSuffix(w, 1);
        SuffixOfSuffix(SkipClause(s, keyword), w, s);
      }
    }
  }

  lemma TableSuffix(s: seq<Token>)
    requires TableName(s).Named?
    ensures IsSuffix(TableName(s).rest, s)
  {
    var after := Solid(s[1..]);
    SolidSuffix(s, 1);
    if BeginsWith(after, ".") {
      var last := Solid(after[1..]);
      SolidSuffix(after, 1);
      SolidSuffix(last, 1);
      SuffixOfSuffix(last, after, s);
      SuffixOfSuffix(TableName(s).rest, last, s);
    }
  }

  lemma HeadSuffix(s: seq<Token>)
    requires s != [] && InsertHead(s).Named?
    ensures IsSuffix(InsertHead(s).rest, s)
  {
    var a := Solid(s[1..]);
    var into := SkipClause(a, "OR");
    var b := Solid(into[1..]);
    var t := TableName(b);
    var c := Solid(t.rest);
    SolidSuffix(s, 1);
    ClauseSuffix(a, "OR");
    SuffixOfSuffix(into, a, s);
    SolidSuffix(into, 1);
    SuffixOfSuffix(b, into, s);
    TableSuffix(b);
    SuffixOfSuffix(t.rest, b, s);
    SolidSuffix(t.rest, 0);
    assert t.rest[0..] == t.rest;
    SuffixOfSuffix(c, t.rest, s);
    ClauseSuffix(c, "AS");
    SuffixOfSuffix(SkipClause(c, "AS"), c, s);
  }

  // ---------- Parsing does not look beyond the next solid token ----------

  /** Two continuations that begin with the same solid token. */
  predicate SameStart(u: seq<Token>, v: seq<Token>) {
    u != [] && v != [] && u[0] == v[0] && !IsSkippable(u[0])
  }

  lemma {:induction false} SolidThen(y: seq<Token>, u: seq<Token>)
    requires u != [] && !IsSkippable(u[0])
    ensures Solid(y + u) == Solid(y) + u
  {
    if y == [] {
      assert y + u == u;
    } else {
      assert (y + u)[1..] == y[1..] + u;
      SolidThen(y[1..], u);
    }
  }

  lemma SolidTail(y: seq<Token>, u: seq<Token>)
    requires y != [] && u != [] && !IsSkippable(u[0])
    ensures (y + u)[0] == y[0] && Solid((y + u)[1..]) == Solid(y[1..]) + u
  {
    assert (y + u)[1..] == y[1..] + u;
    SolidThen(y[1..], u);
  }

  lemma EmptyThen(y: seq<Token>, u: seq<Token>)
    ensures y == [] ==> y + u == u
  {}

  lemma ClauseSwaps(y: seq<Token>, u: seq<Token>, v: seq<Token>, keyword: string) returns (z: seq<Token>)
    requires SameStart(u, v) && |SkipClause(y + u, keyword)| >= |u|
    ensures SkipClause(y + u, keyword) == z + u && SkipClause(y + v, keyword) == z + v
  {
    z := y;
    if y == [] {
      assert y + u == u && y + v == v;
    } else if BeginsKeyword(y, keyword) {
      SolidTail(y, u);
      SolidTail(y, v);
      var w := Solid(y[1..]);
      EmptyThen(w, u);
      SolidTail(w, u);
      SolidTail(w, v);
      z := Solid(w[1..]);
    }
  }

  lemma TableSwaps(y: seq<Token>, u: seq<Token>, v: seq<Token>) returns (z: seq<Token>)
    requires SameStart(u, v) && TableName(y + u).Named? && |TableName(y + u).rest| >= |u|
    ensures TableName(y + u) == Named(TableName(y + u).name, z + u)
    ensures TableName(y + v) == Named(TableName(y + u).name, z + v)
  {
    EmptyThen(y, u);
    SolidTail(y, u);
    SolidTail(y, v);
    z := Solid(y[1..]);
    if BeginsWith(z, ".") {
      SolidTail(z, u);
      SolidTail(z, v);
      z := QualifiedSwaps(Solid(z[1..]), u, v);
    } else if z == [] {
      assert z + u == u && z + v == v;
    }
  }

  lemma QualifiedSwaps(w: seq<Token>, u: seq<Token>, v: seq<Token>) returns (z: seq<Token>)
    requires SameStart(u, v) && |Solid((w + u)[1..])| >= |u|
    ensures w != [] && Solid((w + u)[1..]) == z + u && Solid((w + v)[1..]) == z + v && (w + u)[0] == (w + v)[0]
  {
    EmptyThen(w, u);
    SolidTail(w, u);
    SolidTail(w, v);
    z := Solid(w[1..]);
  }

  /** The head of the statement is parsed the same whatever follows the next solid token. */
  lemma HeadSwaps(head: seq<Token>, u: seq<Token>, v: seq<Token>, table: string)
    requires SameStart(u, v) && head != [] && InsertHead(head + u) == Named(table, u)
    ensures InsertHead(head + v) == Named(table, v)
  {
    SolidTail(head, u);
    SolidTail(head, v);
    var a := Solid(head[1..]);
    var into := ClauseSwaps(a, u, v, "OR");
    var b := QualifiedSwaps(into, u, v);
    var c := TableSwaps(b, u, v);
    SolidThen(c, u);
    SolidThen(c, v);
    var d := ClauseSwaps(Solid(c), u, v, "AS");
    assert d + u == u;
    assert d == [];
    assert d + v == v;
  }

  // ---------- The parts of a statement ----------

  datatype Parts = Parts(head: seq<Token>, list: seq<Token>, gap: seq<Token>, values: Token, rows: seq<Token>,
                         rest: seq<Token>)

  /** What comes after the column list. */
  function AfterList(p: Parts): seq<Token> {
    p.gap + ([p.values] + (p.rows + p.rest))
  }

  function Whole(p: Parts): seq<Token> {
    p.head + (p.list + AfterList(p))
  }

  predicate ArePartsOf(p: Parts, s: seq<Token>, table: string, rows: seq<seq<Token>>) {
    && s == Whole(p) && p.head != [] && IsGroup(p.list) && !IsSkippable(p.list[0])
    && AllSkippable(p.gap) && IsKeyword(p.values, "VALUES")
    && ValuesRows(p.rows + p.rest) == Rows(rows, p.rest)
    && InsertHead(s) == Named(table, p.list + AfterList(p))
  }

  lemma RowsOf(w: seq<Token>) returns (rows: seq<Token>, rest: seq<Token>)
    requires AllProper(w) && ValuesRows(w).Rows?
    ensures w == rows + rest && rest == ValuesRows(w).rest
  {
    RowsRestIsSuffix(w);
    rest := ValuesRows(w).rest;
    rows := w[..|w| - |rest|];
  }

  lemma AfterRowSuffix(s: seq<Token>)
    requires GroupLength(Solid(s)).Some?
    ensures IsSuffix(Solid(Solid(s)[GroupLength(Solid(s)).value..]), s)
  {
    var a := Solid(s);
    assert s[0..] == s;
    SolidSuffix(s, 0);
    SolidSuffix(a, GroupLength(a).value);
    SuffixOfSuffix(Solid(a[GroupLength(a).value..]), a, s);
  }

  lemma {:induction false} RowsRestIsSuffix(s: seq<Token>)
    requires AllProper(s) && ValuesRows(s).Rows?
    ensures IsSuffix(ValuesRows(s).rest, s)
    decreases |s|
  {
    var b := Solid(Solid(s)[GroupLength(Solid(s)).value..]);
    AfterRowSuffix(s);
    if BeginsWith(b, ",") {
      ProperSuffix(s, |s| - |b| + 1);
      assert b[1..] == s[|s| - |b| + 1..];
      RowsRestIsSuffix(b[1..]);
      SuffixOfSuffix(ValuesRows(s).rest, b[1..], s);
    }
  }

  lemma AfterHead(u: seq<Token>) returns (list: seq<Token>, gap: seq<Token>, v: seq<Token>)
    requires AllProper(u) && GroupLength(u).Some?
    ensures u == list + (gap + v) && IsGroup(list) && |list| == GroupLength(u).value && !IsSkippable(list[0])
    ensures list == u[..GroupLength(u).value] && v == Solid(u[|list|..])
    ensures AllSkippable(gap) && AllProper(v)
  {
    list := u[..GroupLength(u).value];
    GroupStands(u);
    ProperSuffix(u, |list|);
    gap, v := SkipsThenSolid(u[|list|..]);
    assert u == list + u[|list|..];
    assert IsProper(u[0]);
  }

  /** What the parser has seen. */
  lemma ParsedIs(s: seq<Token>)
    requires s != [] && ParseInsert(s).Values? && ParseInsert(s).list.Some?
    ensures var q := ParseInsert(s); var u := InsertHead(s).rest;
            && InsertHead(s).Named? && InsertHead(s).name == q.table && GroupLength(u).Some?
            && q.list == Some(u[..GroupLength(u).value]) && q.before == |s| - |u|
            && var v := Solid(u[GroupLength(u).value..]);
               && BeginsKeyword(v, "VALUES") && ValuesRows(v[1..]).Rows?
               && ValuesRows(v[1..]).rows == q.rows && q.end == |s| - |ValuesRows(v[1..]).rest|
  {}

  lemma PartsOf(s: seq<Token>) returns (p: Parts)
    requires s != [] && AllProper(s) && ParseInsert(s).Values? && ParseInsert(s).list.Some?
    ensures var q := ParseInsert(s);
            && ArePartsOf(p, s, q.table, q.rows)
            && q.list == Some(p.list) && q.before == |p.head| && q.end == |s| - |p.rest|
  {
    hide ParseInsert, InsertHead, ValuesRows, GroupLength, AllSkippable;
    ParsedIs(s);
    var u := InsertHead(s).rest;
    HeadSuffix(s);
    HeadIsLonger(s);
    ProperSuffix(s, |s| - |u|);
    var list, gap, v := AfterHead(u);
    ProperSuffix(v, 1);
    var rows, rest := RowsOf(v[1..]);
    p := Parts(s[..|s| - |u|], list, gap, v[0], rows, rest);
    assert [p.values] + v[1..] == v;
  }

  lemma HeadIsLonger(s: seq<Token>)
    requires s != [] && InsertHead(s).Named?
    ensures |InsertHead(s).rest| < |s|
  {
    assert |Solid(s[1..])| < |s|;
  }

  lemma GroupOpens(list: seq<Token>, rest: seq<Token>)
    requires IsGroup(list)
    ensures |list| >= 2 && BeginsWith(list + rest, "(") && GroupLength(list + rest).Some?
  {
    GroupThen(list, rest);
  }

  lemma ValuesIsSolid(t: Token)
    requires IsKeyword(t, "VALUES")
    ensures !IsSkippable(t) && !IsKeyword(t, "DEFAULT")
  {
    assert |"VALUES"| == 6 && |"DEFAULT"| == 7;
  }

  /** Parts parse as themselves. */
  lemma PartsParse(p: Parts, s: seq<Token>, table: string, rows: seq<seq<Token>>)
    requires ArePartsOf(p, s, table, rows)
    ensures ParseInsert(s) == Values(table, Some(p.list), |p.head|, rows, |s| - |p.rest|)
  {
    hide ValuesRows, Solid, GroupLength, IsKeyword, AllSkippable, InsertHead;
    var u := p.list + AfterList(p);
    var later := [p.values] + (p.rows + p.rest);
    GroupThen(p.list, AfterList(p));
    GroupOpens(p.list, AfterList(p));
    ValuesIsSolid(p.values);
    SolidSkips(p.gap, later);
    assert later[1..] == p.rows + p.rest;
    assert Solid(u[|p.list|..]) == later;
  }

  // ---------- The rewritten statement ----------

  lemma GapIsCopied(gap: seq<Token>)
    requires AllSkippable(gap) && AllProper(gap)
    ensures IsCopied(gap) && NoneOpens(gap)
  {}

  /** The rewritten statement, part by part. */
  function NewParts(p: Parts, column: string, ids: seq<int>): Parts
    requires p.list != []
  {
    p.(list := WithExtra(p.list, ColumnTokens(column)),
       rows := AddIds(p.rows + p.rest, |p.rows|, ids))
  }

  /** Without the tokens after the statement. */
  function Statement(p: Parts): seq<Token> {
    p.head + (p.list + (p.gap + ([p.values] + p.rows)))
  }

  lemma StatementThen(p: Parts)
    ensures Statement(p) + p.rest == Whole(p)
    ensures Whole(p)[..|Whole(p)| - |p.rest|] == Statement(p) && Whole(p)[|Whole(p)| - |p.rest|..] == p.rest
  {
    var a, b := [p.values] + p.rows, [p.values] + (p.rows + p.rest);
    assert a + p.rest == b;
    assert p.gap + a + p.rest == p.gap + b;
    assert Statement(p) + p.rest == Whole(p);
  }

  lemma RebuiltTail(p: Parts, column: string, ids: seq<int>, n: nat, out: seq<Token>)
    requires IsCopied(p.gap) && IsKeyword(p.values, "VALUES")
    requires n == |p.gap| + 1 + |p.rows| && out == AddIds(p.rows + p.rest, |p.rows|, ids)
    ensures n <= |AfterList(p)| && Rebuild(AfterList(p), n, column, ids) == p.gap + ([p.values] + out)
  {
    hide Rebuild, AddIds, IsCopied;
    var later := [p.values] + (p.rows + p.rest);
    RebuildValues(p.values, p.rows + p.rest, |p.rows|, column, ids);
    RebuildCopies(p.gap, later, 1 + |p.rows|, n, column, ids, [p.values] + out);
  }

  lemma RebuiltIs(p: Parts, column: string, ids: seq<int>, n: nat, m: nat)
    requires IsCopied(p.head) && p.list != [] && IsGroup(p.list) && IsCopied(p.gap) && IsKeyword(p.values, "VALUES")
    requires n == |Whole(p)| - |p.rest| && m == |p.gap| + 1 + |p.rows|
    ensures Rebuild(Whole(p), n, column, ids) == Statement(NewParts(p, column, ids))
  {
    hide Rebuild, AddIds, IsCopied, WithExtra, IsGroup;
    var out := AddIds(p.rows + p.rest, |p.rows|, ids);
    RebuiltTail(p, column, ids, m, out);
    RebuildList(p.list, AfterList(p), m, column, ids);
    var tail := Rebuild(p.list + AfterList(p), |p.list| + m, column, ids);
    RebuildCopies(p.head, p.list + AfterList(p), |p.list| + m, n, column, ids, tail);
  }

  lemma ColumnIsQuiet(column: string)
    ensures HasNoParenthesis(ColumnTokens(column))
  {
    assert QuoteIdent(column)[0] == '"';
  }

  /** The new parts are the parts of what they make. */
  lemma NewPartsOf(p: Parts, s: seq<Token>, table: string, rows: seq<seq<Token>>, column: string, ids: seq<int>)
    requires p.list != [] && ArePartsOf(p, s, table, rows) && AllProper(s) && |ids| == |rows|
    ensures var q := NewParts(p, column, ids); var again := ValuesRows(q.rows + q.rest);
            again.Rows? && ArePartsOf(q, Whole(q), table, again.rows) && RowsGain(rows, again.rows, ids)
  {
    hide ValuesRows, AddIds, InsertHead, AllSkippable, WithExtra;
    var q := NewParts(p, column, ids);
    ColumnIsQuiet(column);
    ExtraCloses(p.list, ColumnTokens(column));
    RowsAreProper(p, s);
    RowsRewritten(p.rows + p.rest, ids);
    RewritesIs(p.rows, p.rest, rows, ids);
    SameGroupStart(p.list, ColumnTokens(column), AfterList(p), AfterList(q));
    HeadSwaps(p.head, p.list + AfterList(p), q.list + AfterList(q), table);
  }

  lemma SameGroupStart(list: seq<Token>, extra: seq<Token>, a: seq<Token>, b: seq<Token>)
    requires IsGroup(list) && !IsSkippable(list[0])
    ensures SameStart(list + a, WithExtra(list, extra) + b) && !IsSkippable(WithExtra(list, extra)[0])
  {
    assert |list| >= 2;
    assert WithExtra(list, extra)[0] == list[0];
  }

  lemma RewritesIs(rows: seq<Token>, rest: seq<Token>, parsed: seq<seq<Token>>, ids: seq<int>)
    requires Rewrites(rows + rest, ids) && ValuesRows(rows + rest) == Rows(parsed, rest)
    ensures var again := ValuesRows(AddIds(rows + rest, |rows|, ids) + rest);
            again.Rows? && again == Rows(again.rows, rest) && RowsGain(parsed, again.rows, ids)
  {
    assert |rows + rest| - |rest| == |rows|;
  }

  lemma RowsAreProper(p: Parts, s: seq<Token>)
    requires s == Whole(p) && AllProper(s)
    ensures AllProper(p.rows + p.rest)
  {
    var i := |p.head| + |p.list| + |p.gap| + 1;
    assert s[i..] == p.rows + p.rest;
    ProperSuffix(s, i);
  }

  // ---------- The theorem ----------

  lemma {:induction false} IdsAreConsecutive(next: int, count: nat, k: nat)
    requires k < count
    ensures |Ids(next, count)| == count && Ids(next, count)[k] == next + k
    decreases count
  {
    if k > 0 {
      IdsAreConsecutive(next + 1, count - 1, k - 1);
    } else if count > 1 {
      IdsAreConsecutive(next + 1, count - 1, 0);
    }
  }

  lemma {:induction false} RowsAreGroups(s: seq<Token>, k: nat)
    requires ValuesRows(s).Rows? && k < |ValuesRows(s).rows|
    ensures IsGroup(ValuesRows(s).rows[k])
    decreases |s|
  {
    var a := Solid(s);
    GroupStands(a);
    if k > 0 {
      RowsAreGroups(Solid(a[GroupLength(a).value..])[1..], k - 1);
    }
  }

  predicate HasId(row: seq<Token>, more: seq<Token>, id: int) {
    |row| >= 2 && |more| >= 2 && ValuesOf(more) == ValuesOf(row) + [[Token(Space, " ")] + DecimalTokens(id)]
  }

  /** Each row has one value more: the ids are consecutive from the next free one on. */
  predicate RowsHaveIds(rows: seq<seq<Token>>, more: seq<seq<Token>>, next: int) {
    |more| == |rows| && forall k :: 0 <= k < |rows| ==> HasId(rows[k], more[k], next + k)
  }

  lemma GainedIds(s: seq<Token>, rows: seq<seq<Token>>, more: seq<seq<Token>>, next: int)
    requires ValuesRows(s).Rows? && rows == ValuesRows(s).rows && RowsGain(rows, more, Ids(next, |rows|))
    ensures RowsHaveIds(rows, more, next)
  {
    forall k | 0 <= k < |rows| ensures HasId(rows[k], more[k], next + k) {
      RowsAreGroups(s, k);
      IdsAreConsecutive(next, |rows|, k);
      assert RowGains(rows[k], more[k], next + k);
      RowExtended(rows[k], next + k);
    }
  }

  /** What an accepted INSERT is rewritten to: the tokens before its column list hold no parenthesis and no VALUES. */
  predicate HasPlainHead(s: seq<Token>)
    requires s != []
  {
    var p := ParseInsert(s);
    p.Values? && p.before <= |s| && IsCopied(s[..p.before])
  }

  /** These tokens are an INSERT into the table, of the columns and then one more, and of the rows, each with its id
      from `next` on. */
  predicate InsertsRows(s: seq<Token>, end: nat, table: string, columns: seq<string>, column: string,
                        rows: seq<seq<Token>>, next: int)
  {
    s != []
    && var q := ParseInsert(s);
       && q.Values? && q.list.Some? && |q.list.value| >= 2 && q.table == table && q.end == end
       && ListColumns(q.list.value) == columns + [column]
       && RowsHaveIds(rows, q.rows, next)
  }

  /** Preallocation: an accepted statement becomes one that parses to the same table, to the old columns and then the
      auto-increment column, and to the old rows, each with its id, the ids consecutive from the next free one. */
  lemma IdsPreallocated(schema: Schema, s: seq<Token>)
    requires s != [] && AllProper(s) && Accepts(schema, s) && HasPlainHead(s)
    ensures var p := ParseInsert(s); var w := RewriteInsert(schema, s);
            && w.Rewriting? && w.end == p.end <= |s| && w.table == p.table && w.next == schema.next[p.table]
            && InsertsRows(w.tokens + s[p.end..], |w.tokens|, p.table, ListColumns(p.list.value),
                           UnquoteIdent(QuoteIdent(AutoColumn(schema, p.table))), p.rows, w.next)
  {
    hide InsertsRows, Rebuild, RebuildDefault, ParseInsert, ListColumns, RowsHave, ContainsCall, AllProper, IsCopied;
    var p := ParseInsert(s);
    var parts := PartsOf(s);
    Rewritten(parts, s, p.table, p.rows, AutoColumn(schema, p.table), schema.next[p.table]);
  }

  lemma IdsCount(next: int, count: nat)
    ensures |Ids(next, count)| == count
  {
    if count > 0 {
      IdsAreConsecutive(next, count, 0);
    }
  }

  lemma PartsAreCopied(p: Parts, s: seq<Token>)
    requires s == Whole(p) && AllProper(s) && AllSkippable(p.gap)
    ensures IsCopied(p.gap) && s[..|p.head|] == p.head
  {
    var i := |p.head| + |p.list|;
    assert s[i..][..|p.gap|] == p.gap;
    ProperSuffix(s, i);
    assert AllProper(s[i..][..|p.gap|]);
    GapIsCopied(p.gap);
  }

  lemma Rewritten(p: Parts, s: seq<Token>, table: string, rows: seq<seq<Token>>, column: string, next: int)
    requires p.list != [] && ArePartsOf(p, s, table, rows) && AllProper(s) && IsCopied(s[..|p.head|])
    ensures var end := |s| - |p.rest|; var out := Rebuild(s, end, column, Ids(next, |rows|));
            InsertsRows(out + s[end..], |out|, table, ListColumns(p.list), UnquoteIdent(QuoteIdent(column)), rows, next)
  {
    hide Rebuild, AddIds, InsertsRows, ValuesRows, InsertHead, WithExtra;
    var ids := Ids(next, |rows|);
    IdsCount(next, |rows|);
    PartsAreCopied(p, s);
    StatementThen(p);
    RebuiltIs(p, column, ids, |s| - |p.rest|, |p.gap| + 1 + |p.rows|);
    var q := NewParts(p, column, ids);
    StatementThen(q);
    NewInserts(p, s, table, rows, column, next, ids, q);
  }

  lemma NewInserts(p: Parts, s: seq<Token>, table: string, rows: seq<seq<Token>>, column: string, next: int,
                   ids: seq<int>, q: Parts)
    requires p.list != [] && ArePartsOf(p, s, table, rows) && AllProper(s) && ids == Ids(next, |rows|) && |ids| == |rows|
    requires q == NewParts(p, column, ids)
    ensures InsertsRows(Whole(q), |Statement(q)|, table, ListColumns(p.list), UnquoteIdent(QuoteIdent(column)), rows, next)
  {
    hide AddIds, ValuesRows, InsertHead, ParseInsert, RowsHaveIds, Columns;
    NewPartsOf(p, s, table, rows, column, ids);
    var again := ValuesRows(q.rows + q.rest).rows;
    PartsParse(q, Whole(q), table, again);
    StatementThen(q);
    ColumnsExtended(p.list, column);
    GainedIds(p.rows + p.rest, rows, again, next);
  }

  // ---------- Nothing else changes, and nothing nondeterministic comes in ----------

  lemma PartsArePadded(p: Parts, s: seq<Token>, table: string, rows: seq<seq<Token>>, column: string, ids: seq<int>)
    requires p.list != [] && ArePartsOf(p, s, table, rows) && AllProper(s) && |ids| == |rows|
    ensures Padded(Statement(p), Statement(NewParts(p, column, ids)))
  {
    hide Padded, AddIds, WithExtra, ValuesRows, InsertHead;
    var q := NewParts(p, column, ids);
    RowsAreProper(p, s);
    RowsArePadded(p.rows + p.rest, ids);
    PrefixIs(p.rows + p.rest, p.rows, p.rest);
    PaddedPrefix([p.values], p.rows, q.rows);
    PaddedPrefix(p.gap, [p.values] + p.rows, [p.values] + q.rows);
    ExtraIsQuiet(column, 0);
    PaddedGroup(p.list, ColumnTokens(column), p.gap + ([p.values] + p.rows), p.gap + ([p.values] + q.rows));
    PaddedPrefix(p.head, p.list + (p.gap + ([p.values] + p.rows)), q.list + (p.gap + ([p.values] + q.rows)));
  }

  lemma RebuiltIsPadded(p: Parts, s: seq<Token>, table: string, rows: seq<seq<Token>>, column: string, next: int)
    requires p.list != [] && ArePartsOf(p, s, table, rows) && AllProper(s) && IsCopied(s[..|p.head|])
    ensures var end := |s| - |p.rest|; Padded(s[..end], Rebuild(s, end, column, Ids(next, |rows|)))
  {
    hide Rebuild, Padded, AddIds, ValuesRows, InsertHead, WithExtra;
    var ids := Ids(next, |rows|);
    IdsCount(next, |rows|);
    PartsAreCopied(p, s);
    StatementThen(p);
    RebuiltIs(p, column, ids, |s| - |p.rest|, |p.gap| + 1 + |p.rows|);
    PartsArePadded(p, s, table, rows, column, ids);
  }

  /** The rewritten statement is the old one, token for token, with tokens put in. */
  lemma RestIsVerbatim(schema: Schema, s: seq<Token>)
    requires s != [] && AllProper(s) && Accepts(schema, s) && HasPlainHead(s)
    ensures var w := RewriteInsert(schema, s);
            w.Rewriting? && w.end == ParseInsert(s).end && Padded(s[..w.end], w.tokens)
  {
    hide Rebuild, RebuildDefault, ParseInsert, ListColumns, RowsHave, ContainsCall, IsCopied, Padded, AllProper;
    var p := ParseInsert(s);
    var parts := PartsOf(s);
    RebuiltIsPadded(parts, s, p.table, p.rows, AutoColumn(schema, p.table), schema.next[p.table]);
  }

  lemma NoCallsNoTriggers(s: seq<Token>, end: nat)
    requires end <= |s| && !ContainsCall(s, end)
    ensures NoTriggers(s[..end], s[end..])
  {
    forall i: nat ensures NoTriggerAt(s[..end], s[end..], i) {
      if i < end {
        assert s[..end][i..] + s[end..] == s[i..];
      }
    }
  }

  /** An accepted statement becomes one without nondeterministic expressions, whatever follows it is rewritten to. */
  lemma InsertIsClean(schema: Schema, s: seq<Token>, out: seq<Token>)
    requires s != [] && AllProper(s) && Accepts(schema, s) && HasPlainHead(s)
    requires Similar(s[ParseInsert(s).end..], out) && Clean(out) && AllProper(out)
    ensures Clean(RewriteInsert(schema, s).tokens + out)
  {
    hide ParseInsert, RewriteInsert, Clean, Padded, Similar, ListColumns, RowsHave, NoTriggers, HasPlainHead;
    RestIsVerbatim(schema, s);
    var w := RewriteInsert(schema, s);
    NoCallsNoTriggers(s, w.end);
    assert s[..w.end] + s[w.end..] == s;
    PaddedIsProper(s[..w.end], w.tokens);
    PaddedIsClean(s[..w.end], w.tokens, s[w.end..], out);
  }
}
