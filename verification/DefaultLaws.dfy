/**
 When the DEFAULT VALUES form of a rewritten INSERT brings in a nondeterministic expression: the column list that is
 written for DEFAULT makes a call of a name before it.
 */
module DefaultLaws {
  import opened Tokenizer
  import opened Calls
  import opened Quoting
  import opened Inserts
  import opened InsertClean
  import opened InsertLaws
  import opened InsertProof

  // ---------- What is written for DEFAULT VALUES ----------

  predicate IsNameless(s: seq<Token>) {
    forall k :: 0 <= k < |s| ==> !IsCallName(s[k]) && !IsClockName(s[k])
  }

  /** The names that the rewriter looks for begin with N, R or C. */
  lemma NamelessHead(t: Token)
    requires t.kind == Ident ==> t.text != "" && UpperChar(t.text[0]) !in "NRC"
    ensures !IsCallName(t) && !IsClockName(t)
  {
    assert "NRC"[0] == 'N' && "NRC"[1] == 'R' && "NRC"[2] == 'C';
    if t.kind == Ident {
      assert Upper(t.text)[0] == UpperChar(t.text[0]);
    }
  }

  lemma DefaultTokensNameless(column: string, id: int)
    ensures IsNameless(DefaultTokens(column, id))
  {
    var d := DefaultTokens(column, id);
    var n := Digits(if id < 0 then -id else id);
    assert "VALUES"[0] == 'V';
    hide IsCallName, IsClockName, QuoteIdent;
    forall k | 0 <= k < |d| ensures !IsCallName(d[k]) && !IsClockName(d[k]) {
      assert d[k].kind == Ident ==> d[k].text == "VALUES" || d[k].text == n;
      NamelessHead(d[k]);
    }
  }

  /** It is a group, and then another. */
  lemma DefaultTokensAre(column: string, id: int, out: seq<Token>, depth: nat)
    requires depth >= 1
    ensures Closes(DefaultTokens(column, id) + out, depth) <==> Closes(out, depth)
    ensures AllProper(DefaultTokens(column, id))
  {
    var n := DecimalTokens(id);
    var d := DefaultTokens(column, id);
    var last := [Token(Punct, ")")] + out;
    var values := [Token(Space, " "), Token(Ident, "VALUES"), Token(Space, " ")];
    assert QuoteIdent(column)[0] == '"';
    hide DecimalTokens, QuoteIdent, Closing;
    assert d + out == [d[0]] + ([d[1]] + ([d[2]] + (values + ([d[6]] + (n + last)))));
    ClosesNext(d[0], [d[1]] + ([d[2]] + (values + ([d[6]] + (n + last)))), depth);
    ClosesNext(d[1], [d[2]] + (values + ([d[6]] + (n + last))), depth + 1);
    ClosesNext(d[2], values + ([d[6]] + (n + last)), depth + 1);
    OthersClose(values, [d[6]] + (n + last), depth);
    ClosesNext(d[6], n + last, depth);
    DecimalsClose(id, last, depth + 1);
    ClosesNext(Token(Punct, ")"), out, depth + 1);
  }

  /** Tokens that are no parentheses. */
  predicate NoParentheses(s: seq<Token>) {
    forall k :: 0 <= k < |s| ==> s[k].text != "(" && s[k].text != ")"
  }

  lemma {:induction false} OthersClose(s: seq<Token>, rest: seq<Token>, depth: nat)
    requires NoParentheses(s) && depth >= 1
    ensures Closes(s + rest, depth) <==> Closes(rest, depth)
  {
    if s == [] {
      assert s + rest == rest;
    } else {
      OthersClose(s[1..], rest, depth);
      ClosesNext(s[0], s[1..] + rest, depth);
      assert s + rest == [s[0]] + (s[1..] + rest);
    }
  }

  lemma DecimalsClose(id: int, rest: seq<Token>, depth: nat)
    requires depth >= 1
    ensures Closes(DecimalTokens(id) + rest, depth) <==> Closes(rest, depth)
  {
    var n := DecimalTokens(id);
    var d := Digits(if id < 0 then -id else id);
    assert '0' <= d[0] <= '9';
    OthersClose(n, rest, depth);
  }

  // ---------- Where DEFAULT is ----------

  /** VALUES is the first solid token after the DEFAULT at `d`, and the statement ends with it. */
  predicate ValuesAfter(s: seq<Token>, end: nat, d: nat) {
    d < |s| && IsKeyword(s[d], "DEFAULT")
    && var w := Solid(s[d + 1..]); BeginsKeyword(w, "VALUES") && end == |s| - |w| + 1
  }

  lemma DefaultBody(table: string, list: Option<seq<Token>>, before: nat, v: seq<Token>, size: nat)
    requires |v| <= size && ParseBody(table, list, before, v, size).Default?
    ensures BeginsKeyword(v, "DEFAULT")
    ensures var w := Solid(v[1..]);
            BeginsKeyword(w, "VALUES") && ParseBody(table, list, before, v, size).end == size - |w| + 1
  {
    hide BeginsKeyword, ValuesRows;
  }

  /** What the body of the statement begins with. */
  lemma BodyIs(s: seq<Token>) returns (v: seq<Token>)
    requires s != [] && ParseInsert(s).Default?
    ensures IsSuffix(v, s) && BeginsKeyword(v, "DEFAULT")
    ensures var w := Solid(v[1..]); BeginsKeyword(w, "VALUES") && ParseInsert(s).end == |s| - |w| + 1
  {
    hide ParseBody, BeginsKeyword, Solid;
    var h := InsertHead(s);
    var u := h.rest;
    HeadSuffix(s);
    if BeginsWith(u, "(") {
      var n := GroupLength(u).value;
      v := Solid(u[n..]);
      SolidSuffix(u, n);
      DefaultBody(h.name, Some(u[..n]), |s| - |u|, v, |s|);
    } else {
      v := Solid(u);
      assert u[0..] == u;
      SolidSuffix(u, 0);
      DefaultBody(h.name, None, |s| - |u|, v, |s|);
    }
    SuffixOfSuffix(v, u, s);
  }

  lemma DefaultParse(s: seq<Token>) returns (d: nat)
    requires s != [] && ParseInsert(s).Default?
    ensures ValuesAfter(s, ParseInsert(s).end, d)
  {
    hide ParseInsert, IsKeyword;
    var v := BodyIs(s);
    d := |s| - |v|;
    assert s[d + 1..] == v[1..] && s[d] == v[0];
  }

  /** The first `left` tokens, without the solid token that comes after each DEFAULT and what lies between. */
  function Kept(s: seq<Token>, left: nat): seq<Token>
    requires left <= |s|
    decreases left
  {
    if left == 0 then []
    else if IsKeyword(s[0], "DEFAULT") then
      var n := |s| - |Solid(s[1..])| + 1;
      [s[0]] + if n < left && n <= |s| then Kept(s[n..], left - n) else []
    else [s[0]] + Kept(s[1..], left - 1)
  }

  // ---------- Names and triggers ----------

  /** A name that a group after it, empty or not, makes a call to replace. */
  predicate OpensCall(t: Token) {
    IsKeyword(t, "NOW") || IsKeyword(t, "RANDOMBLOB")
  }

  /** The first solid token is DEFAULT. */
  predicate DefaultHead(g: seq<Token>) {
    BeginsKeyword(Solid(g), "DEFAULT")
  }

  /** No such name comes right before a DEFAULT. */
  predicate NamesFree(g: seq<Token>) {
    g == [] || (!(OpensCall(g[0]) && DefaultHead(g[1..])) && NamesFree(g[1..]))
  }

  /** No trigger begins in the first part. */
  predicate NoneBefore(a: seq<Token>, rest: seq<Token>) {
    forall k :: 0 <= k < |a| ==> !TriggerAt(a, rest, k)
  }

  predicate TriggerAt(a: seq<Token>, rest: seq<Token>, k: nat)
    requires k < |a|
  {
    IsTrigger(a[k..] + rest)
  }

  lemma NamesDiffer(t: Token)
    ensures OpensCall(t) <==> IsCallName(t) && !IsKeyword(t, "RANDOM")
    ensures IsClockName(t) ==> !IsCallName(t)
  {
    assert |"NOW"| == 3 && |"RANDOM"| == 6 && |"RANDOMBLOB"| == 10;
    assert "NOW"[0] == 'N' && "RANDOM"[0] == 'R' && "RANDOMBLOB"[0] == 'R' && "CURRENT_TIMESTAMP"[0] == 'C'
        && "CURRENT_DATE"[0] == 'C' && "CURRENT_TIME"[0] == 'C';
  }

  lemma {:induction false} CleanParts(a: seq<Token>, rest: seq<Token>)
    requires Clean(rest)
    ensures Clean(a + rest) <==> NoneBefore(a, rest)
  {
    if a == [] {
      assert a + rest == rest;
    } else {
      CleanParts(a[1..], rest);
      assert a + rest == [a[0]] + (a[1..] + rest) && (a + rest)[1..] == a[1..] + rest;
      assert a[0..] == a;
      assert TriggerAt(a, rest, 0) <==> IsTrigger(a + rest);
      forall k | 0 < k < |a| ensures TriggerAt(a, rest, k) <==> TriggerAt(a[1..], rest, k - 1) {
        assert a[k..] == a[1..][k - 1..];
      }
      if NoneBefore(a, rest) {
        forall k | 0 <= k < |a[1..]| ensures !TriggerAt(a[1..], rest, k) {
          assert !TriggerAt(a, rest, k + 1);
        }
      }
    }
  }

  /** What is written begins with a group of one name. */
  lemma DefaultOpens(column: string, id: int, out: seq<Token>)
    ensures var x := DefaultTokens(column, id) + out;
            x != [] && x[0].text == "(" && !IsSkippable(x[0]) && CallOpen(x) && !EmptyOpen(x)
  {
    var d := DefaultTokens(column, id);
    var rest := d[3..] + out;
    assert QuoteIdent(column)[0] == '"';
    assert d + out == [d[0]] + ([d[1]] + ([d[2]] + rest));
    HeadNext(d[0], [d[1]] + ([d[2]] + rest));
    HeadNext(d[1], [d[2]] + rest);
    ClosesNext(d[1], [d[2]] + rest, 1);
    ClosesNext(d[2], rest, 1);
  }

  lemma KeywordIsNoParenthesis(t: Token, keyword: string)
    requires IsKeyword(t, keyword) && |keyword| >= 2
    ensures t.text != "(" && t.text != ")" && !IsSkippable(t)
  {}

  lemma {:induction false} NamelessCleans(s: seq<Token>, rest: seq<Token>)
    requires IsNameless(s)
    ensures Clean(s + rest) <==> Clean(rest)
  {
    if s == [] {
      assert s + rest == rest;
    } else {
      NamelessCleans(s[1..], rest);
      assert (s + rest)[1..] == s[1..] + rest && (s + rest)[0] == s[0];
    }
  }

  lemma DefaultIsNoName(t: Token)
    requires IsKeyword(t, "DEFAULT")
    ensures !IsCallName(t) && !IsClockName(t) && !OpensCall(t) && t.text != "(" && t.text != ")" && !IsSkippable(t)
  {
    KeywordIsNoParenthesis(t, "DEFAULT");
    NamesDiffer(t);
    assert |"DEFAULT"| == 7 && |"NOW"| == 3 && |"RANDOM"| == 6 && |"RANDOMBLOB"| == 10;
    assert "DEFAULT"[0] == 'D' && "CURRENT_TIMESTAMP"[0] == 'C' && "CURRENT_DATE"[0] == 'C' && "CURRENT_TIME"[0] == 'C';
  }

  // ---------- What the groups written do to triggers ----------

  /** Before `out`, `f` is `g` with groups for the DEFAULTs: parentheses close alike, and heads are alike but for the
      groups. */
  ghost predicate HeadsStand(f: seq<Token>, g: seq<Token>, out: seq<Token>) {
    && AllProper(f + out) && AllProper(g + out)
    && (forall depth :: depth >= 1 ==> ClosesAlike(g + out, f + out, depth))
    && (CloseHead(f + out) <==> CloseHead(g + out))
    && (if DefaultHead(g) then CallOpen(f + out) && !EmptyOpen(f + out) && !CallOpen(g + out)
        else (CallOpen(f + out) <==> CallOpen(g + out)) && (EmptyOpen(f + out) <==> EmptyOpen(g + out)))
  }

  /** The triggers of `f` are those of `g`, and the names right before a group. */
  predicate TriggersStand(f: seq<Token>, g: seq<Token>, out: seq<Token>) {
    Clean(f + out) <==> Clean(g + out) && NamesFree(g)
  }

  lemma HeadsCopy(t: Token, f: seq<Token>, g: seq<Token>, out: seq<Token>)
    requires IsProper(t) && !IsKeyword(t, "DEFAULT") && HeadsStand(f, g, out)
    ensures HeadsStand([t] + f, [t] + g, out)
  {
    var x, y := f + out, g + out;
    assert [t] + f + out == [t] + x && [t] + g + out == [t] + y;
    forall depth: nat | depth >= 1 ensures ClosesAlike([t] + y, [t] + x, depth) {
      ClosesNext(t, x, depth);
      ClosesNext(t, y, depth);
      if !(t.text == ")" && depth == 1) {
        assert ClosesAlike(y, x, DepthAfter(t, depth));
      }
    }
    assert ClosesAlike(y, x, 1);
    HeadNext(t, x);
    HeadNext(t, y);
    assert ([t] + g)[1..] == g;
    assert DefaultHead([t] + g) <==> IsSkippable(t) && DefaultHead(g);
    ProperCopy(t, x);
    ProperCopy(t, y);
  }

  lemma ProperCopy(t: Token, x: seq<Token>)
    requires IsProper(t) && AllProper(x)
    ensures AllProper([t] + x)
  {}

  lemma TriggersCopy(t: Token, f: seq<Token>, g: seq<Token>, out: seq<Token>)
    requires IsProper(t) && HeadsStand(f, g, out) && TriggersStand(f, g, out)
    ensures TriggersStand([t] + f, [t] + g, out)
  {
    var x, y := f + out, g + out;
    assert [t] + f + out == [t] + x && [t] + g + out == [t] + y;
    assert ([t] + x)[1..] == x && ([t] + y)[1..] == y && ([t] + g)[1..] == g;
    ProperCopy(t, x);
    ProperCopy(t, y);
    TriggerIs([t] + x);
    TriggerIs([t] + y);
    NamesDiffer(t);
    hide CallOpen, EmptyOpen, CloseHead, DefaultHead, TriggerLength, OpensCall, IsCallName, IsClockName, AllProper;
    assert IsTrigger([t] + x) <==> IsTrigger([t] + y) || (OpensCall(t) && DefaultHead(g));
  }

  lemma HeadsDefault(t: Token, f: seq<Token>, g: seq<Token>, column: string, id: int, out: seq<Token>)
    requires IsKeyword(t, "DEFAULT") && HeadsStand(f, g, out)
    ensures HeadsStand(DefaultTokens(column, id) + f, [t] + g, out)
  {
    var d, x, y := DefaultTokens(column, id), f + out, g + out;
    assert d + f + out == d + x && [t] + g + out == [t] + y;
    DefaultIsNoName(t);
    DefaultOpens(column, id, x);
    DefaultTokensAre(column, id, x, 1);
    ProperBoth(d, x);
    ProperCopy(t, y);
    HeadNext(t, y);
    assert Solid([t] + g) == [t] + g;
    hide DefaultTokens, CallOpen, EmptyOpen;
    forall depth: nat | depth >= 1 ensures ClosesAlike([t] + y, d + x, depth) {
      DefaultTokensAre(column, id, x, depth);
      ClosesNext(t, y, depth);
      assert ClosesAlike(y, x, depth);
    }
    assert !CloseHead(d + x);
  }

  lemma TriggersDefault(t: Token, f: seq<Token>, g: seq<Token>, column: string, id: int, out: seq<Token>)
    requires IsKeyword(t, "DEFAULT") && TriggersStand(f, g, out)
    ensures TriggersStand(DefaultTokens(column, id) + f, [t] + g, out)
  {
    var d, x, y := DefaultTokens(column, id), f + out, g + out;
    assert d + f + out == d + x && [t] + g + out == [t] + y && ([t] + y)[1..] == y && ([t] + g)[1..] == g;
    DefaultIsNoName(t);
    DefaultTokensNameless(column, id);
    NamelessCleans(d, x);
  }

  lemma KeptNext(s: seq<Token>, left: nat)
    requires 0 < left <= |s| && !IsKeyword(s[0], "DEFAULT")
    ensures Kept(s, left) == [s[0]] + Kept(s[1..], left - 1)
  {
    hide IsKeyword;
  }

  lemma RebuiltNext(s: seq<Token>, left: nat, column: string, id: int)
    requires 0 < left <= |s| && !IsKeyword(s[0], "DEFAULT")
    ensures RebuildDefault(s, left, column, id) == [s[0]] + RebuildDefault(s[1..], left - 1, column, id)
  {
    hide DefaultTokens, IsKeyword;
  }

  /** Where the rebuilding goes on after a DEFAULT at the beginning. */
  function After(s: seq<Token>, left: nat): (n: nat)
    requires 0 < left <= |s|
    ensures 0 < n <= left
  {
    var n := |s| - |Solid(s[1..])| + 1;
    if n < left && n <= |s| then n else left
  }

  lemma DefaultNext(s: seq<Token>, left: nat, column: string, id: int)
    requires 0 < left <= |s| && IsKeyword(s[0], "DEFAULT")
    ensures var n := After(s, left);
            && Kept(s, left) == [s[0]] + Kept(s[n..], left - n)
            && RebuildDefault(s, left, column, id)
               == DefaultTokens(column, id) + RebuildDefault(s[n..], left - n, column, id)
  {
    hide DefaultTokens, IsKeyword;
  }

  lemma NothingKept(s: seq<Token>, column: string, id: int, out: seq<Token>)
    requires AllProper(out)
    ensures HeadsStand(RebuildDefault(s, 0, column, id), Kept(s, 0), out)
    ensures TriggersStand(RebuildDefault(s, 0, column, id), Kept(s, 0), out)
  {
    assert [] + out == out;
  }

  /** What is rebuilt stands for what is kept, whatever follows. */
  lemma {:induction false} RebuiltStands(s: seq<Token>, left: nat, column: string, id: int, out: seq<Token>)
    requires left <= |s| && AllProper(s) && AllProper(out)
    ensures HeadsStand(RebuildDefault(s, left, column, id), Kept(s, left), out)
    ensures TriggersStand(RebuildDefault(s, left, column, id), Kept(s, left), out)
    decreases left
  {
    hide *;
    if left == 0 {
      NothingKept(s, column, id, out);
    } else if IsKeyword(s[0], "DEFAULT") {
      var n := After(s, left);
      ProperSuffix(s, n);
      RebuiltStands(s[n..], left - n, column, id, out);
      DefaultNext(s, left, column, id);
      HeadsDefault(s[0], RebuildDefault(s[n..], left - n, column, id), Kept(s[n..], left - n), column, id, out);
      TriggersDefault(s[0], RebuildDefault(s[n..], left - n, column, id), Kept(s[n..], left - n), column, id, out);
    } else {
      ProperSuffix(s, 1);
      ProperFirst(s);
      RebuiltStands(s[1..], left - 1, column, id, out);
      KeptNext(s, left);
      RebuiltNext(s, left, column, id);
      HeadsCopy(s[0], RebuildDefault(s[1..], left - 1, column, id), Kept(s[1..], left - 1), out);
      TriggersCopy(s[0], RebuildDefault(s[1..], left - 1, column, id), Kept(s[1..], left - 1), out);
    }
  }

  lemma ProperFirst(s: seq<Token>)
    requires s != [] && AllProper(s)
    ensures IsProper(s[0])
  {}

  // ---------- How what is kept ends ----------

  /** The last token is DEFAULT or VALUES. */
  predicate EndsClause(g: seq<Token>) {
    g != [] && (IsKeyword(g[|g| - 1], "DEFAULT") || IsKeyword(g[|g| - 1], "VALUES"))
  }

  lemma {:induction false} KeptAll(s: seq<Token>, left: nat)
    requires left <= |s| && forall k :: 0 <= k < left ==> !IsKeyword(s[k], "DEFAULT")
    ensures Kept(s, left) == s[..left]
    decreases left
  {
    if left > 0 {
      assert forall k :: 0 <= k < left - 1 ==> s[1..][k] == s[k + 1];
      KeptAll(s[1..], left - 1);
      assert s[..left] == [s[0]] + s[1..][..left - 1];
    }
  }

  /** From just after DEFAULT to VALUES. */
  lemma GapEnds(s: seq<Token>, end: nat, d: nat)
    requires ValuesAfter(s, end, d)
    ensures d + 1 < end <= |s| && EndsClause(Kept(s[d + 1..], end - d - 1))
  {
    var rest := s[d + 1..];
    var w := Solid(rest);
    SolidIs(rest);
    var m := end - d - 1;
    assert rest[m - 1] == w[0];
    KeywordsDistinct(w[0]);
    forall k | 0 <= k < m ensures !IsKeyword(rest[k], "DEFAULT") {
      if k < m - 1 {
        assert IsSkippable(rest[k]);
      }
    }
    KeptAll(rest, m);
    assert rest[..m][m - 1] == rest[m - 1];
  }

  lemma KeywordsDistinct(t: Token)
    requires IsKeyword(t, "VALUES")
    ensures !IsKeyword(t, "DEFAULT")
  {
    assert |"VALUES"| == 6 && |"DEFAULT"| == 7;
  }

  lemma LaterValues(s: seq<Token>, end: nat, d: nat, n: nat)
    requires ValuesAfter(s, end, d) && n <= d
    ensures n < end && ValuesAfter(s[n..], end - n, d - n)
  {
    GapEnds(s, end, d);
    assert s[n..][d - n + 1..] == s[d + 1..] && s[n..][d - n] == s[d];
  }

  lemma EndsLater(t: Token, g: seq<Token>)
    requires EndsClause(g)
    ensures EndsClause([t] + g)
  {}

  /** After a DEFAULT before the clause's, the rebuilding goes on no later than after the clause's. */
  lemma GoesOn(s: seq<Token>, end: nat, d: nat)
    requires ValuesAfter(s, end, d) && d > 0 && end <= |s|
    ensures After(s, end) <= d + 1
  {
    GapEnds(s, end, d);
    SolidIs(s[1..]);
    KeywordIsNoParenthesis(s[d], "DEFAULT");
    assert s[1..][d - 1] == s[d];
  }

  lemma {:induction false} KeptEnds(s: seq<Token>, end: nat, d: nat)
    requires ValuesAfter(s, end, d)
    ensures end <= |s| && EndsClause(Kept(s, end))
    decreases d
  {
    hide *;
    GapEnds(s, end, d);
    if d == 0 {
      EndsAtOnce(s, end);
    } else if IsKeyword(s[0], "DEFAULT") {
      var n := After(s, end);
      GoesOn(s, end, d);
      DefaultNext(s, end, "", 0);
      if n <= d {
        LaterValues(s, end, d, n);
        KeptEnds(s[n..], end - n, d - n);
      }
      EndsLater(s[0], Kept(s[n..], end - n));
    } else {
      LaterValues(s, end, d, 1);
      KeptEnds(s[1..], end - 1, d - 1);
      KeptNext(s, end);
      EndsLater(s[0], Kept(s[1..], end - 1));
    }
  }

  lemma EndsAtOnce(s: seq<Token>, end: nat)
    requires ValuesAfter(s, end, 0) && end <= |s|
    ensures EndsClause(Kept(s, end))
  {
    assert Kept(s, end) == [s[0]];
  }

  // ---------- The theorem ----------

  /** What keeps a DEFAULT VALUES form clean: without the token that comes after each DEFAULT, it holds no trigger, and
      no NOW or RANDOMBLOB right before a DEFAULT. */
  predicate KeepsClean(s: seq<Token>, end: nat)
    requires end <= |s|
  {
    NoneBefore(Kept(s, end), s[end..]) && NamesFree(Kept(s, end))
  }

  /** Tokens that look alike to what comes before them. */
  ghost predicate LookAlike(x: seq<Token>, y: seq<Token>) {
    && (forall depth :: depth >= 1 ==> ClosesAlike(x, y, depth))
    && (CallOpen(x) <==> CallOpen(y)) && (EmptyOpen(x) <==> EmptyOpen(y)) && (CloseHead(x) <==> CloseHead(y))
  }

  lemma AlikeNext(t: Token, x: seq<Token>, y: seq<Token>)
    requires IsProper(t) && LookAlike(x, y)
    ensures LookAlike([t] + x, [t] + y)
  {
    forall depth: nat | depth >= 1 ensures ClosesAlike([t] + x, [t] + y, depth) {
      ClosesNext(t, x, depth);
      ClosesNext(t, y, depth);
      if !(t.text == ")" && depth == 1) {
        assert ClosesAlike(x, y, DepthAfter(t, depth));
      }
    }
    assert ClosesAlike(x, y, 1);
    HeadNext(t, x);
    HeadNext(t, y);
  }

  /** After a solid token that is no parenthesis, only the closing of parentheses matters. */
  lemma AlikeAfter(t: Token, x: seq<Token>, y: seq<Token>)
    requires !IsSkippable(t) && t.text != "(" && t.text != ")"
    requires forall depth :: depth >= 1 ==> ClosesAlike(x, y, depth)
    ensures LookAlike([t] + x, [t] + y)
  {
    forall depth: nat | depth >= 1 ensures ClosesAlike([t] + x, [t] + y, depth) {
      ClosesNext(t, x, depth);
      ClosesNext(t, y, depth);
      assert ClosesAlike(x, y, depth);
    }
    HeadNext(t, x);
    HeadNext(t, y);
  }

  lemma AlikeTriggers(t: Token, x: seq<Token>, y: seq<Token>)
    requires AllProper([t] + x) && AllProper([t] + y) && LookAlike(x, y)
    ensures IsTrigger([t] + x) <==> IsTrigger([t] + y)
  {
    assert ([t] + x)[1..] == x && ([t] + y)[1..] == y;
    TriggerIs([t] + x);
    TriggerIs([t] + y);
  }

  lemma ClauseIsNoName(t: Token)
    requires IsKeyword(t, "DEFAULT") || IsKeyword(t, "VALUES")
    ensures !IsCallName(t) && !IsClockName(t) && t.text != "(" && t.text != ")" && !IsSkippable(t)
  {
    if IsKeyword(t, "DEFAULT") {
      DefaultIsNoName(t);
    } else {
      KeywordIsNoParenthesis(t, "VALUES");
      assert |"VALUES"| == 6 && |"NOW"| == 3 && |"RANDOM"| == 6 && |"RANDOMBLOB"| == 10;
      assert "VALUES"[0] == 'V' && "RANDOM"[0] == 'R' && "CURRENT_TIMESTAMP"[0] == 'C' && "CURRENT_DATE"[0] == 'C'
          && "CURRENT_TIME"[0] == 'C';
    }
  }

  lemma LastOff(g: seq<Token>)
    requires EndsClause(g)
    ensures g == g[..|g| - 1] + [g[|g| - 1]]
    ensures var t := g[|g| - 1];
            !IsCallName(t) && !IsClockName(t) && t.text != "(" && t.text != ")" && !IsSkippable(t)
  {
    ClauseIsNoName(g[|g| - 1]);
  }

  lemma NoNameCleans(t: Token, x: seq<Token>)
    requires !IsCallName(t) && !IsClockName(t)
    ensures Clean([t] + x) <==> Clean(x)
  {
    assert ([t] + x)[1..] == x;
  }

  /** A first part that ends with such a token holds the same triggers before what closes alike. */
  lemma NoneBeforeAlike(g: seq<Token>, rest: seq<Token>, out: seq<Token>)
    requires EndsClause(g) && Similar(rest, out) && Clean(out) && AllProper(g + rest) && AllProper(g + out)
    ensures Clean(g + out) <==> NoneBefore(g, rest)
  {
    LastOff(g);
    var a, t := g[..|g| - 1], g[|g| - 1];
    assert forall depth: nat :: depth >= 1 ==> ClosesAlike(rest, out, depth);
    AlikeAfter(t, rest, out);
    assert g + out == a + ([t] + out) && g + rest == a + ([t] + rest);
    hide Similar, EndsClause, LookAlike, Clean, TriggerLength, IsCallName, IsClockName, AllProper;
    NoNameCleans(t, out);
    SameTriggers(a, [t] + rest, [t] + out);
    CleanParts(a, [t] + out);
    TriggersSplit(a, t, rest);
  }

  lemma {:induction false} SameTriggers(a: seq<Token>, x: seq<Token>, y: seq<Token>)
    requires LookAlike(x, y) && AllProper(a + x) && AllProper(a + y)
    ensures NoneBefore(a, x) <==> NoneBefore(a, y)
  {
    hide LookAlike, TriggerLength;
    forall k | 0 <= k < |a| ensures TriggerAt(a, x, k) <==> TriggerAt(a, y, k) {
      SameTrigger(a, x, y, k);
    }
  }

  lemma SameTrigger(a: seq<Token>, x: seq<Token>, y: seq<Token>, k: nat)
    requires LookAlike(x, y) && AllProper(a + x) && AllProper(a + y) && k < |a|
    ensures TriggerAt(a, x, k) <==> TriggerAt(a, y, k)
  {
    var p := a[k + 1..];
    assert a[k..] + x == [a[k]] + (p + x) == (a + x)[k..];
    assert a[k..] + y == [a[k]] + (p + y) == (a + y)[k..];
    assert p + x == (a + x)[k + 1..] && p + y == (a + y)[k + 1..];
    ProperSuffix(a + x, k);
    ProperSuffix(a + y, k);
    ProperSuffix(a + x, k + 1);
    ProperSuffix(a + y, k + 1);
    hide LookAlike, AllProper, TriggerLength;
    AlikePrefix(p, x, y);
    AlikeTriggers(a[k], p + x, p + y);
  }

  lemma {:induction false} AlikePrefix(p: seq<Token>, x: seq<Token>, y: seq<Token>)
    requires LookAlike(x, y) && AllProper(p + x) && AllProper(p + y)
    ensures LookAlike(p + x, p + y)
  {
    if p == [] {
      assert p + x == x && p + y == y;
    } else {
      assert p + x == [p[0]] + (p[1..] + x) && p + y == [p[0]] + (p[1..] + y);
      ProperNext(p[0], p[1..] + x);
      ProperNext(p[0], p[1..] + y);
      hide LookAlike, AllProper;
      AlikePrefix(p[1..], x, y);
      AlikeNext(p[0], p[1..] + x, p[1..] + y);
    }
  }

  lemma TriggersSplit(a: seq<Token>, t: Token, rest: seq<Token>)
    requires !IsCallName(t) && !IsClockName(t)
    ensures NoneBefore(a + [t], rest) <==> NoneBefore(a, [t] + rest)
  {
    hide IsCallName, IsClockName;
    var g := a + [t];
    forall k | 0 <= k < |a| ensures TriggerAt(g, rest, k) <==> TriggerAt(a, [t] + rest, k) {
      assert g[k..] + rest == a[k..] + ([t] + rest);
    }
    assert g[|a|..] + rest == [t] + rest;
    assert !TriggerAt(g, rest, |a|);
  }

  lemma {:induction false} KeptIsProper(s: seq<Token>, left: nat)
    requires left <= |s| && AllProper(s)
    ensures AllProper(Kept(s, left))
    decreases left
  {
    if left > 0 {
      if IsKeyword(s[0], "DEFAULT") {
        DefaultNext(s, left, "", 0);
        KeptIsProper(s[After(s, left)..], left - After(s, left));
      } else {
        KeptIsProper(s[1..], left - 1);
      }
    }
  }

  /** An INSERT ... DEFAULT VALUES is rewritten to clean tokens, before whatever follows is rewritten to, exactly if,
      without the token that comes after each DEFAULT, it holds no trigger, and neither NOW nor RANDOMBLOB is the last
      solid token before a DEFAULT. */
  lemma DefaultCleanExactly(schema: Schema, s: seq<Token>, out: seq<Token>)
    requires s != [] && AllProper(s) && AcceptsDefault(schema, s)
    requires Similar(s[ParseInsert(s).end..], out) && Clean(out) && AllProper(out)
    ensures var w := RewriteInsert(schema, s);
            && w.Rewriting? && w.end == ParseInsert(s).end
            && (Clean(w.tokens + out) <==> KeepsClean(s, w.end))
  {
    hide ParseInsert, Rebuild, RebuildDefault, ContainsCall, RowsHave, ListColumns, Similar, AllProper, Clean, NoneBefore,
      NamesFree, Kept, EndsClause, ValuesAfter;
    var w, end := RewriteInsert(schema, s), ParseInsert(s).end;
    var d := DefaultParse(s);
    KeptEnds(s, end, d);
    RebuiltStands(s, end, AutoColumn(schema, w.table), w.next, out);
    ProperSuffix(s, end);
    KeptIsProper(s, end);
    ProperBoth(Kept(s, end), s[end..]);
    ProperBoth(Kept(s, end), out);
    NoneBeforeAlike(Kept(s, end), s[end..], out);
  }

  lemma ProperBoth(a: seq<Token>, b: seq<Token>)
    requires AllProper(a) && AllProper(b)
    ensures AllProper(a + b)
  {}

  // ---------- A table named NOW ----------

  /** INSERT INTO NOW DEFAULT VALUES */
  const INTO_NOW: seq<Token> :=
    [Token(Ident, "INSERT"), Token(Space, " "), Token(Ident, "INTO"), Token(Space, " "), Token(Ident, "NOW"),
     Token(Space, " "), Token(Ident, "DEFAULT"), Token(Space, " "), Token(Ident, "VALUES")]

  const NOW_SCHEMA := Schema(map["NOW" := TableInfo(["id"], "id")], map["NOW" := 1])

  lemma UpperNext(c: char, s: string)
    ensures Upper([c] + s) == [UpperChar(c)] + Upper(s)
  {
    assert ([c] + s)[1..] == s;
  }

  lemma UpperOfShort()
    ensures Upper("") == "" && Upper("INTO") == "INTO" && Upper("NOW") == "NOW"
  {
    assert "INTO"[1..] == "NTO" && "NTO"[1..] == "TO" && "TO"[1..] == "O";
    assert "NOW"[1..] == "OW" && "OW"[1..] == "W";
  }

  lemma UpperOfDefault()
    ensures Upper("DEFAULT") == "DEFAULT"
  {
    UpperOfShort();
    hide Upper;
    UpperNext('T', "");
    UpperNext('L', "T");
    UpperNext('U', "LT");
    UpperNext('A', "ULT");
    UpperNext('F', "AULT");
    UpperNext('E', "FAULT");
    UpperNext('D', "EFAULT");
    assert ['T'] + "" == "T" && ['L'] + "T" == "LT" && ['U'] + "LT" == "ULT" && ['A'] + "ULT" == "AULT";
    assert ['F'] + "AULT" == "FAULT" && ['E'] + "FAULT" == "EFAULT" && ['D'] + "EFAULT" == "DEFAULT";
  }

  lemma UpperOfValues()
    ensures Upper("VALUES") == "VALUES"
  {
    UpperOfShort();
    hide Upper;
    UpperNext('S', "");
    UpperNext('E', "S");
    UpperNext('U', "ES");
    UpperNext('L', "UES");
    UpperNext('A', "LUES");
    UpperNext('V', "ALUES");
    assert ['S'] + "" == "S" && ['E'] + "S" == "ES" && ['U'] + "ES" == "UES" && ['L'] + "UES" == "LUES";
    assert ['A'] + "LUES" == "ALUES" && ['V'] + "ALUES" == "VALUES";
  }

  /** INSERT INTO table DEFAULT VALUES, with one space or comment between any two. */
  predicate IsPlainDefault(s: seq<Token>) {
    && |s| == 9 && IsSkippable(s[1]) && IsSkippable(s[3]) && IsSkippable(s[5]) && IsSkippable(s[7])
    && IsKeyword(s[2], "INTO") && s[4].kind == Ident && s[4].text != "." && !IsSkippable(s[4])
    && IsKeyword(s[6], "DEFAULT") && IsKeyword(s[8], "VALUES")
  }

  /** What is solid after a space. */
  lemma SolidFrom(s: seq<Token>, k: nat)
    requires k + 1 < |s| && IsSkippable(s[k]) && !IsSkippable(s[k + 1])
    ensures Solid(s[k..]) == s[k + 1..] == Solid(s[k + 1..])
  {
    assert s[k..][1..] == s[k + 1..] && s[k + 1..][0] == s[k + 1];
  }

  lemma SuffixParts(s: seq<Token>, k: nat)
    requires k < |s|
    ensures s[k..] != [] && s[k..][0] == s[k] && s[k..][1..] == s[k + 1..]
  {}

  lemma PlainHead(s: seq<Token>)
    requires IsPlainDefault(s)
    ensures InsertHead(s) == Named(s[4].text, s[6..])
  {
    KeywordIsNoParenthesis(s[2], "INTO");
    KeywordIsNoParenthesis(s[6], "DEFAULT");
    assert !IsKeyword(s[2], "OR") && !IsKeyword(s[6], "AS") && s[6].text != ".";
    SolidFrom(s, 1);
    SolidFrom(s, 3);
    SolidFrom(s, 5);
    SuffixParts(s, 2);
    SuffixParts(s, 4);
    SuffixParts(s, 6);
    hide IsKeyword, Solid;
    assert SkipClause(s[2..], "OR") == s[2..];
    assert TableName(s[4..]) == Named(s[4].text, s[6..]);
    assert SkipClause(s[6..], "AS") == s[6..];
  }

  lemma PlainParses(s: seq<Token>)
    requires IsPlainDefault(s)
    ensures ParseInsert(s) == Default(s[4].text, 9)
  {
    PlainHead(s);
    KeywordIsNoParenthesis(s[6], "DEFAULT");
    KeywordIsNoParenthesis(s[8], "VALUES");
    SolidFrom(s, 5);
    SolidFrom(s, 7);
    SuffixParts(s, 6);
    SuffixParts(s, 8);
    hide IsKeyword, Solid, InsertHead;
    assert ParseBody(s[4].text, None, |s| - |s[6..]|, s[6..], |s|) == Default(s[4].text, 9);
  }

  lemma KeywordsOfNow()
    ensures IsPlainDefault(INTO_NOW) && IsKeyword(INTO_NOW[4], "NOW")
    ensures forall k :: 0 <= k < 9 && IsKeyword(INTO_NOW[k], "DEFAULT") ==> k == 6
  {
    UpperOfShort();
    UpperOfDefault();
    UpperOfValues();
    hide Upper;
  }

  lemma NowAccepted()
    ensures ParseInsert(INTO_NOW) == Default("NOW", 9) && AcceptsDefault(NOW_SCHEMA, INTO_NOW)
  {
    KeywordsOfNow();
    PlainParses(INTO_NOW);
    hide ParseInsert, IsKeyword;
  }

  lemma {:induction false} NotFree(g: seq<Token>, k: nat)
    requires k < |g| && OpensCall(g[k]) && DefaultHead(g[k + 1..])
    ensures !NamesFree(g)
  {
    if k > 0 {
      assert g[1..][k - 1 + 1..] == g[k + 1..];
      NotFree(g[1..], k - 1);
    }
  }

  /** Up to the first DEFAULT all is kept. */
  lemma {:induction false} KeptFirst(s: seq<Token>, left: nat, d: nat)
    requires d < left <= |s| && IsKeyword(s[d], "DEFAULT") && forall k :: 0 <= k < d ==> !IsKeyword(s[k], "DEFAULT")
    ensures |Kept(s, left)| > d && Kept(s, left)[..d + 1] == s[..d + 1]
    decreases d
  {
    hide IsKeyword;
    if d == 0 {
      DefaultNext(s, left, "", 0);
    } else {
      KeptNext(s, left);
      assert forall k :: 0 <= k < d ==> s[1..][k] == s[k + 1];
      KeptFirst(s[1..], left - 1, d - 1);
      assert s[..d + 1] == [s[0]] + s[1..][..d];
    }
  }

  /** The table's name is the last solid token before DEFAULT. */
  lemma NameEnds(s: seq<Token>)
    requires IsPlainDefault(s) && IsKeyword(s[4], "NOW")
    ensures OpensCall(s[..7][4]) && DefaultHead(s[..7][5..])
  {
    var a := s[..7];
    hide IsKeyword;
    assert a[4] == s[4] && a[5] == s[5] && a[6] == s[6];
    KeywordIsNoParenthesis(a[6], "DEFAULT");
    SolidFrom(a, 5);
  }

  lemma NameIsNotFree(s: seq<Token>)
    requires IsPlainDefault(s) && IsKeyword(s[4], "NOW")
    requires forall k :: 0 <= k < 9 && IsKeyword(s[k], "DEFAULT") ==> k == 6
    ensures !NamesFree(Kept(s, 9))
  {
    NameEnds(s);
    var g := Kept(s, 9);
    hide Kept, IsKeyword, NamesFree, OpensCall, DefaultHead, IsPlainDefault;
    KeptFirst(s, 9, 6);
    assert g == g[..7] + g[7..];
    NotFreeLonger(g[..7], g[7..], 4);
  }

  /** What comes later does not free a name. */
  lemma NotFreeLonger(a: seq<Token>, b: seq<Token>, k: nat)
    requires k < |a| && OpensCall(a[k]) && DefaultHead(a[k + 1..])
    ensures !NamesFree(a + b)
  {
    assert (a + b)[k + 1..] == a[k + 1..] + b;
    SolidLonger(a[k + 1..], b);
    NotFree(a + b, k);
  }

  lemma {:induction false} SolidLonger(a: seq<Token>, b: seq<Token>)
    requires Solid(a) != []
    ensures Solid(a + b) == Solid(a) + b
  {
    assert (a + b)[1..] == a[1..] + b;
    if IsSkippable(a[0]) {
      SolidLonger(a[1..], b);
    }
  }

  lemma ShortIsNoClock(t: Token)
    requires |t.text| < 12
    ensures !IsClockName(t)
  {}

  lemma NowIsClean()
    ensures Clean(INTO_NOW) && AllProper(INTO_NOW)
  {
    hide IsClockName;
    forall k | 0 <= k < 9 ensures !IsClockName(INTO_NOW[k]) {
      ShortIsNoClock(INTO_NOW[k]);
    }
    NoParenthesesIsClean(INTO_NOW);
  }

  lemma {:induction false} NoParenthesesIsClean(s: seq<Token>)
    requires NoParentheses(s) && forall k :: 0 <= k < |s| ==> !IsClockName(s[k])
    ensures Clean(s)
  {
    if s != [] {
      NoParenthesesIsClean(s[1..]);
      SolidIs(s[1..]);
    }
  }

  lemma NothingSimilar()
    ensures Similar([], []) && Clean([]) && AllProper([])
  {}

  /** A whole statement without nondeterministic expressions, rewritten, holds one: the column list written for DEFAULT
      VALUES makes the name of the table a call. */
  lemma DefaultBringsCall()
    ensures var w := RewriteInsert(NOW_SCHEMA, INTO_NOW);
            && Clean(INTO_NOW) && w.Rewriting? && w.end == |INTO_NOW| && !Clean(w.tokens)
  {
    hide RewriteInsert, Clean, NamesFree, NoneBefore, AllProper, ParseInsert, Similar, AcceptsDefault, Kept;
    var s := INTO_NOW;
    NowAccepted();
    NowIsClean();
    KeywordsOfNow();
    NameIsNotFree(s);
    NothingSimilar();
    assert s[9..] == [];
    DefaultCleanExactly(NOW_SCHEMA, s, []);
    var w := RewriteInsert(NOW_SCHEMA, s);
    assert w.tokens + [] == w.tokens;
  }
}
