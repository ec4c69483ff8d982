/** INSERT statements that omit the auto-increment column: parsing them, and adding the column and the ids. */
module Inserts {
  // Positions are lengths from the INSERT keyword on.

  import opened Tokenizer
  import opened Calls
  import opened Quoting

  datatype TableInfo = TableInfo(columns: seq<string>, autoIncrement: string)

  /** What the store says about its tables; a table it does not know, or cannot read, is missing. */
  datatype Schema = Schema(info: map<string, TableInfo>, next: map<string, int>)

  // ---------- Parsing ----------

  predicate BeginsWith(s: seq<Token>, text: string) {
    s != [] && s[0].text == text
  }

  predicate BeginsKeyword(s: seq<Token>, keyword: string) {
    s != [] && IsKeyword(s[0], keyword)
  }

  function SkipOne(s: seq<Token>): (r: seq<Token>)
    ensures |r| <= |s|
  {
    if s == [] then [] else s[1..]
  }

  /** A name, or a quoted name without its quotes. */
  function IdentText(t: Token): Option<string> {
    if t.kind == Ident then Some(t.text)
    else if t.kind == Quoted && |t.text| >= 2 then Some(UnquoteIdent(t.text))
    else None
  }

  datatype Named = NoName | Named(name: string, rest: seq<Token>)

  /** [schema.]table */
  function TableName(s: seq<Token>): (r: Named)
    ensures r.Named? ==> |r.rest| <= |s|
  {
    if s == [] || IdentText(s[0]).None? then NoName
    else
      var after := Solid(s[1..]);
      if !BeginsWith(after, ".") then Named(IdentText(s[0]).value, after)
      else
        var last := Solid(after[1..]);
        if last == [] || IdentText(last[0]).None? then NoName
        else Named(IdentText(last[0]).value, Solid(last[1..]))
  }

  /** Past a keyword and the token after it, if the keyword is there. */
  function SkipClause(s: seq<Token>, keyword: string): (r: seq<Token>)
    ensures |r| <= |s|
  {
    if BeginsKeyword(s, keyword) then Solid(SkipOne(Solid(s[1..]))) else s
  }

  /** INSERT [OR action] INTO table [AS alias] */
  function InsertHead(s: seq<Token>): (r: Named)
    requires s != []
    ensures r.Named? ==> |r.rest| <= |s|
  {
    var into := SkipClause(Solid(s[1..]), "OR");
    if !BeginsKeyword(into, "INTO") then NoName
    else
      var t := TableName(Solid(into[1..]));
      if t.NoName? then NoName else Named(t.name, SkipClause(Solid(t.rest), "AS"))
  }

  /** The length of a group in parentheses, if these tokens begin with one. */
  function GroupLength(s: seq<Token>): (r: Option<nat>)
    ensures r.Some? ==> 2 <= r.value <= |s|
  {
    if !BeginsWith(s, "(") then None
    else
      var r := Closing(s[1..], 1);
      if r.Some? then Some(1 + r.value) else None
  }

  /** The tokens begin with a group of `n` tokens. */
  predicate HasGroup(s: seq<Token>, n: nat) {
    GroupLength(s).Some? && GroupLength(s).value == n
  }

  predicate IsGroup(s: seq<Token>) {
    HasGroup(s, |s|)
  }

  /** The depth comes to zero with the `n`th token. */
  predicate ClosesAt(s: seq<Token>, depth: int, n: nat) {
    Closing(s, depth).Some? && Closing(s, depth).value == n
  }

  /** The name that a token adds to a column list. */
  function ColumnAt(t: Token, depth: int): seq<string> {
    if depth == 0 && t.text != "(" && t.text != ")" && t.text != "," && !IsSkippable(t) && IdentText(t).Some?
    then [IdentText(t).value] else []
  }

  /** The names at the top level of a column list, without its parentheses. */
  function Columns(inside: seq<Token>, depth: int): seq<string> {
    if inside == [] then [] else ColumnAt(inside[0], depth) + Columns(inside[1..], DepthAfter(inside[0], depth))
  }

  datatype Rows = NoRows | Rows(rows: seq<seq<Token>>, rest: seq<Token>)

  /** (..), (..), ... and what follows. */
  function ValuesRows(s: seq<Token>): (r: Rows)
    ensures r.Rows? ==> |r.rows| >= 1 && |r.rest| < |s|
    ensures r.Rows? ==> forall k :: 0 <= k < |r.rows| ==> |r.rows[k]| >= 2
    decreases |s|
  {
    var a := Solid(s);
    if GroupLength(a).None? then NoRows
    else
      var n := GroupLength(a).value;
      var b := Solid(a[n..]);
      if !BeginsWith(b, ",") then Rows([a[..n]], b)
      else
        var r := ValuesRows(b[1..]);
        if r.NoRows? then NoRows else Rows([a[..n]] + r.rows, r.rest)
  }

  /** The expressions of a row, or of any list: what lies between the commas at the top level. */
  function Split(inside: seq<Token>, depth: int, current: seq<Token>): (r: seq<seq<Token>>)
    ensures |r| >= 1
  {
    if inside == [] then [current]
    else if inside[0].text == "," && depth == 0 then [current] + Split(inside[1..], 0, [])
    else Split(inside[1..], DepthAfter(inside[0], depth), current + [inside[0]])
  }

  function ValuesOf(row: seq<Token>): seq<seq<Token>>
    requires |row| >= 2
  {
    Split(row[1..|row| - 1], 0, [])
  }

  // ---------- The rewritten statement ----------

  /** A group with more tokens before its closing parenthesis. */
  function WithExtra(group: seq<Token>, extra: seq<Token>): seq<Token>
    requires |group| >= 1
  {
    group[..|group| - 1] + extra + [group[|group| - 1]]
  }

  const COMMA := [Token(Punct, ","), Token(Space, " ")]

  function ColumnTokens(column: string): seq<Token> {
    COMMA + [Token(Quoted, QuoteIdent(column))]
  }

  function IdTokens(id: int): seq<Token> {
    COMMA + DecimalTokens(id)
  }

  function Beyond(n: nat, left: nat): nat {
    if n < left then left - n else 0
  }

  /** The second phase, over the next `left` tokens: an id into each group, as long as there are ids. */
  function AddIds(s: seq<Token>, left: nat, ids: seq<int>): seq<Token>
    requires left <= |s|
    decreases left
  {
    if left == 0 then []
    else if GroupLength(s).Some? then
      var n := GroupLength(s).value;
      (if ids == [] then s[..n] else WithExtra(s[..n], IdTokens(ids[0])))
      + AddIds(s[n..], Beyond(n, left), if ids == [] then [] else ids[1..])
    else [s[0]] + AddIds(s[1..], left - 1, ids)
  }

  /** The first phase: the column into each group before VALUES. */
  function Rebuild(s: seq<Token>, left: nat, column: string, ids: seq<int>): seq<Token>
    requires left <= |s|
    decreases left
  {
    if left == 0 then []
    else if GroupLength(s).Some? then
      var n := GroupLength(s).value;
      WithExtra(s[..n], ColumnTokens(column)) + Rebuild(s[n..], Beyond(n, left), column, ids)
    else if IsKeyword(s[0], "VALUES") then [s[0]] + AddIds(s[1..], left - 1, ids)
    else [s[0]] + Rebuild(s[1..], left - 1, column, ids)
  }

  /** DEFAULT VALUES with the column and the id written out. */
  function DefaultTokens(column: string, id: int): seq<Token> {
    [Token(Punct, "("), Token(Quoted, QuoteIdent(column)), Token(Punct, ")"), Token(Space, " "),
     Token(Ident, "VALUES"), Token(Space, " "), Token(Punct, "(")] + DecimalTokens(id) + [Token(Punct, ")")]
  }

  function RebuildDefault(s: seq<Token>, left: nat, column: string, id: int): seq<Token>
    requires left <= |s|
    decreases left
  {
    if left == 0 then []
    else if IsKeyword(s[0], "DEFAULT") then
      var values := Solid(s[1..]);
      var n := |s| - |values| + 1;
      DefaultTokens(column, id)
      + if n < left && n <= |s| then RebuildDefault(s[n..], left - n, column, id) else []
    else [s[0]] + RebuildDefault(s[1..], left - 1, column, id)
  }

  // ---------- Whole statements ----------

  datatype Parsed =
    | NoInsert
    | Default(table: string, end: nat)
    | Values(table: string, list: Option<seq<Token>>, before: nat, rows: seq<seq<Token>>, end: nat)

  /** DEFAULT VALUES, or VALUES and rows, in a statement of `size` tokens. */
  function ParseBody(table: string, list: Option<seq<Token>>, before: nat, v: seq<Token>, size: nat): (r: Parsed)
    requires |v| <= size
    ensures r.Default? || r.Values? ==> 1 <= r.end <= size
  {
    if BeginsKeyword(v, "DEFAULT") then
      var w := Solid(v[1..]);
      if BeginsKeyword(w, "VALUES") then Default(table, size - |w| + 1) else NoInsert
    else if !BeginsKeyword(v, "VALUES") then NoInsert
    else
      var r := ValuesRows(v[1..]);
      if r.NoRows? then NoInsert else Values(table, list, before, r.rows, size - |r.rest|)
  }

  /** From after the table name: an optional column list, and DEFAULT VALUES or VALUES rows. */
  function ParseInsert(s: seq<Token>): (r: Parsed)
    requires s != []
    ensures r.Default? || r.Values? ==> 1 <= r.end <= |s|
  {
    var h := InsertHead(s);
    if h.NoName? then NoInsert
    else
      var u := h.rest;
      if BeginsWith(u, "(") then
        if GroupLength(u).None? then NoInsert
        else
          var n := GroupLength(u).value;
          ParseBody(h.name, Some(u[..n]), |s| - |u|, Solid(u[n..]), |s|)
      else ParseBody(h.name, None, |s| - |u|, Solid(u), |s|)
  }

  /** Whether a nondeterministic call or clock name begins among the first `end` tokens. */
  predicate ContainsCall(s: seq<Token>, end: nat)
    requires end <= |s|
  {
    exists i :: 0 <= i < end && (IsClockName(s[i]) || (IsCallName(s[i]) && CallLength(s[i..]).Some?))
  }

  function ListColumns(list: seq<Token>): seq<string>
    requires |list| >= 2
  {
    Columns(list[1..|list| - 1], 0)
  }

  predicate RowsHave(rows: seq<seq<Token>>, count: nat) {
    forall k :: 0 <= k < |rows| ==> |rows[k]| >= 2 && |ValuesOf(rows[k])| == count
  }

  function Ids(next: int, count: nat): seq<int>
    decreases count
  {
    if count == 0 then [] else [next] + Ids(next + 1, count - 1)
  }

  function AutoColumn(schema: Schema, table: string): string {
    if table in schema.info then schema.info[table].autoIncrement else ""
  }

  /** Whether the rewriter adds the column and ids. */
  predicate Accepts(schema: Schema, s: seq<Token>)
    requires s != []
  {
    var p := ParseInsert(s);
    && p.Values? && p.list.Some? && |p.list.value| >= 2
    && AutoColumn(schema, p.table) != "" && p.table in schema.next
    && !ContainsCall(s, p.end)
    && AutoColumn(schema, p.table) !in ListColumns(p.list.value)
    && RowsHave(p.rows, |ListColumns(p.list.value)|)
  }

  predicate AcceptsDefault(schema: Schema, s: seq<Token>)
    requires s != []
  {
    var p := ParseInsert(s);
    p.Default? && AutoColumn(schema, p.table) != "" && p.table in schema.next
  }

  datatype Rewriting = Pass | Rewriting(tokens: seq<Token>, end: nat, table: string, next: int)

  /** What becomes of a statement: replaced up to `end`, or left to pass. */
  function RewriteInsert(schema: Schema, s: seq<Token>): (r: Rewriting)
    requires s != []
    ensures r.Rewriting? ==> 1 <= r.end <= |s|
  {
    var p := ParseInsert(s);
    if Accepts(schema, s) then
      var next := schema.next[p.table];
      Rewriting(Rebuild(s, p.end, AutoColumn(schema, p.table), Ids(next, |p.rows|)), p.end, p.table, next)
    else if AcceptsDefault(schema, s) then
      var next := schema.next[p.table];
      Rewriting(RebuildDefault(s, p.end, AutoColumn(schema, p.table), next), p.end, p.table, next)
    else Pass
  }
}
