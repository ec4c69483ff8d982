/** Parameters in a pass: what leaves them alone, and what one RANDOMBLOB(?) takes. */
module RewriteParams {
  import opened Tokenizer
  import opened Calls
  import opened Quoting
  import opened Inserts
  import opened InsertClean
  import opened InsertProof
  import opened RewriteRun
  import opened RewriteLaws

  lemma {:induction false} QuestionsAppend(a: seq<Token>, b: seq<Token>)
    ensures Questions(a + b) == Questions(a) + Questions(b)
  {
    if a == [] {
      assert a + b == b;
    } else {
      assert (a + b)[1..] == a[1..] + b;
      QuestionsAppend(a[1..], b);
    }
  }

  /** Only a token of its own is a placeholder. */
  predicate MarksAreTokens(toks: seq<Token>) {
    forall k :: 0 <= k < |toks| && toks[k].text == "?" ==> toks[k].kind == Punct
  }

  lemma {:induction false} TokenizedMarks(sql: string, i: nat)
    requires i <= |sql|
    ensures MarksAreTokens(TokensFrom(sql, i))
    decreases |sql| - i
  {
    if i < |sql| {
      var j := TokenEnd(sql, i);
      TokenizedMarks(sql, j);
      assert sql[i..j][0] == sql[i];
    }
  }

  /** The length argument of the call at a position is a placeholder. */
  predicate TakesParameter(toks: seq<Token>, i: nat) {
    && i < |toks| && IsKeyword(toks[i], "RANDOMBLOB") && IsTrigger(toks[i..])
    && var arg := Argument(toks[i..]); arg != [] && arg[0] == Token(Punct, "?")
  }

  /** The number of the placeholder that is the length argument. */
  function PlaceholderAt(toks: seq<Token>, i: nat): nat
    requires i < |toks|
  {
    Questions(toks[..|toks| - |Argument(toks[i..])|])
  }

  // ---------- A pass without lengths to take ----------

  predicate NoPlaceholderIn(toks: seq<Token>, i: nat) {
    i < |toks| && IsTrigger(toks[i..]) ==> Questions(toks[i..i + TriggerLength(toks[i..])]) == 0
  }

  lemma {:induction false} QuestionsAt(s: seq<Token>, k: nat)
    requires k < |s| && s[k] == Token(Punct, "?")
    ensures Questions(s) >= 1
  {
    if k > 0 {
      QuestionsAt(s[1..], k - 1);
    }
  }

  /** The length argument lies within its call. */
  lemma ArgumentIsInside(s: seq<Token>)
    requires s != [] && AllProper(s) && CallLength(s).Some? && Argument(s) != [] && Argument(s)[0].text == "?"
    ensures |s| - |Argument(s)| < CallLength(s).value && s[|s| - |Argument(s)|] == Argument(s)[0]
  {
    var group := Solid(s[1..]);
    SolidSuffix(s, 1);
    SolidSuffix(group, 1);
    SuffixOfSuffix(Argument(s), group, s);
    ClosesAfterSolid(group[1..]);
  }

  lemma {:induction false} ClosesAfterSolid(s: seq<Token>)
    requires AllProper(s) && Closing(s, 1).Some?
    ensures Solid(s) != [] && |s| - |Solid(s)| < Closing(s, 1).value
  {
    if IsSkippable(s[0]) {
      assert IsProper(s[0]);
      ProperSuffix(s, 1);
      ClosesAfterSolid(s[1..]);
    }
  }

  lemma QuestionInCall(toks: seq<Token>, i: nat)
    requires AllProper(toks) && TakesParameter(toks, i)
    ensures Questions(toks[i..i + TriggerLength(toks[i..])]) >= 1
  {
    var s := toks[i..];
    ProperSuffix(toks, i);
    ArgumentIsInside(s);
    var call := toks[i..i + TriggerLength(s)];
    assert call[|s| - |Argument(s)|] == Token(Punct, "?");
    QuestionsAt(call, |s| - |Argument(s)|);
  }

  lemma StepKeepsParams(toks: seq<Token>, i: nat, clock: Clock, schema: Option<Schema>, env: Env, p: Piece, env': Env)
    requires AllProper(toks) && MarksAreTokens(toks) && i < |toks|
    requires Step(toks, i, clock, schema, env) == Done((p, env')) && NoPlaceholderIn(toks, i)
    ensures env'.params == env.params
  {
    if !InsertAt(toks, i, schema).Rewriting? && IsKeyword(toks[i], "RANDOMBLOB") && IsTrigger(toks[i..]) {
      OtherArgument(toks, i);
    }
  }

  lemma OtherArgument(toks: seq<Token>, i: nat)
    requires AllProper(toks) && MarksAreTokens(toks) && i < |toks|
    requires IsKeyword(toks[i], "RANDOMBLOB") && IsTrigger(toks[i..]) && NoPlaceholderIn(toks, i)
    ensures var arg := Argument(toks[i..]); arg == [] || arg[0].text != "?" || arg[0].kind == Ident
  {
    var s := toks[i..];
    var arg := Argument(s);
    if arg != [] && arg[0].text == "?" {
      ProperSuffix(toks, i);
      ArgumentIsInside(s);
      assert toks[i + (|s| - |arg|)] == arg[0];
      QuestionInCall(toks, i);
    }
  }

  lemma KeywordsDiffer(t: Token)
    requires IsKeyword(t, "RANDOMBLOB")
    ensures !IsKeyword(t, "INSERT") && !IsKeyword(t, "NOW") && !IsClockName(t) && !IsKeyword(t, "RANDOM")
  {
    assert |"RANDOMBLOB"| == 10 && |"INSERT"| == 6 && |"RANDOM"| == 6 && |"NOW"| == 3;
    assert "RANDOMBLOB"[0] == 'R' && "CURRENT_TIMESTAMP"[0] == 'C' && "CURRENT_DATE"[0] == 'C'
           && "CURRENT_TIME"[0] == 'C';
  }

  // ---------- Whole passes ----------

  /** No trigger from here on holds a placeholder. */
  ghost predicate NoneFrom(toks: seq<Token>, i: nat) {
    forall j :: j >= i ==> NoPlaceholderIn(toks, j)
  }

  /** A pass that replaces no placeholder leaves the parameters alone. */
  lemma {:induction false} ParamsKept(toks: seq<Token>, i: nat, clock: Clock, schema: Option<Schema>, env: Env, r: Run)
    requires AllProper(toks) && MarksAreTokens(toks)
    requires i <= |toks| && RunFrom(toks, i, clock, schema, env) == Done(r) && NoneFrom(toks, i)
    ensures r.env.params == env.params
    decreases |toks| - i
  {
    hide Step, AllProper, MarksAreTokens, NoPlaceholderIn;
    if i < |toks| {
      var p, env', rest := RunNext(toks, i, clock, schema, env, r);
      StepKeepsParams(toks, i, clock, schema, env, p, env');
      ParamsKept(toks, i + |p.source|, clock, schema, env', rest);
    }
  }

  /** The one trigger that holds a placeholder is the RANDOMBLOB(?) at `k`. */
  ghost predicate OnlyLengthAt(toks: seq<Token>, k: nat) {
    TakesParameter(toks, k) && forall j :: j != k ==> NoPlaceholderIn(toks, j)
  }

  lemma OnlyThere(toks: seq<Token>, k: nat, i: nat)
    requires OnlyLengthAt(toks, k)
    ensures TakesParameter(toks, k) && k < |toks|
    ensures i != k ==> NoPlaceholderIn(toks, i)
    ensures i > k ==> NoneFrom(toks, i)
  {}

  /** The place is in no INSERT ... DEFAULT VALUES that is rewritten. */
  predicate InNoDefault(toks: seq<Token>, k: nat, schema: Option<Schema>) {
    forall j :: 0 <= j <= k && j < |toks| ==> EndsBefore(toks, j, k, schema)
  }

  predicate EndsBefore(toks: seq<Token>, j: nat, k: nat, schema: Option<Schema>)
    requires j < |toks|
  {
    var w := InsertAt(toks, j, schema);
    w.Rewriting? && AcceptsDefault(schema.value, toks[j..]) ==> j + w.end <= k
  }

  /** An INSERT of rows that is rewritten holds no call, and so no length. */
  lemma RowsHoldNoLength(toks: seq<Token>, i: nat, k: nat, schema: Schema)
    requires i <= k < |toks| && Accepts(schema, toks[i..]) && k < i + RewriteInsert(schema, toks[i..]).end
    ensures !TakesParameter(toks, k)
  {
    hide ParseInsert, Rebuild, RebuildDefault, RowsHave, ListColumns;
    KeywordsDifferIf(toks, k);
    assert toks[i..][k - i] == toks[k] && toks[i..][k - i..] == toks[k..];
  }

  lemma KeywordsDifferIf(toks: seq<Token>, k: nat)
    ensures TakesParameter(toks, k) ==> IsCallName(toks[k]) && CallLength(toks[k..]).Some?
  {
    if TakesParameter(toks, k) { KeywordsDiffer(toks[k]); }
  }

  lemma {:induction false} QuestionsWithin(s: seq<Token>, t: seq<Token>, at: nat)
    requires at + |t| <= |s| && t == s[at..at + |t|]
    ensures Questions(t) <= Questions(s)
  {
    assert s == s[..at] + (t + s[at + |t|..]);
    QuestionsAppend(s[..at], t + s[at + |t|..]);
    QuestionsAppend(t, s[at + |t|..]);
  }

  lemma NoneIn(toks: seq<Token>, i: nat)
    requires i < |toks| && NoPlaceholderIn(toks, i) && IsTrigger(toks[i..])
    ensures Questions(toks[i..i + TriggerLength(toks[i..])]) == 0
  {}

  lemma RewritingEnds(toks: seq<Token>, i: nat, k: nat, schema: Option<Schema>)
    requires InNoDefault(toks, k, schema) && TakesParameter(toks, k) && i < k < |toks|
    requires InsertAt(toks, i, schema).Rewriting?
    ensures i + InsertAt(toks, i, schema).end <= k
  {
    hide TakesParameter, ParseInsert, Rebuild, RebuildDefault, Accepts, AcceptsDefault, AtStart;
    if Accepts(schema.value, toks[i..]) {
      if k < i + InsertAt(toks, i, schema).end {
        RowsHoldNoLength(toks, i, k, schema.value);
      }
    } else {
      assert EndsBefore(toks, i, k, schema);
    }
  }

  lemma LengthIsNotCovered(toks: seq<Token>, i: nat, k: nat, n: nat)
    requires AllProper(toks) && TakesParameter(toks, k) && i < k < |toks| && n == TriggerLength(toks[i..])
    requires IsTrigger(toks[i..]) && Questions(toks[i..i + n]) == 0
    ensures i + n <= k
  {
    if i + n > k {
      LengthInside(toks, i, k, n);
    }
  }

  lemma LengthInside(toks: seq<Token>, i: nat, k: nat, n: nat)
    requires AllProper(toks) && TakesParameter(toks, k) && i < k < i + n && n == TriggerLength(toks[i..])
    requires IsTrigger(toks[i..])
    ensures Questions(toks[i..i + n]) >= 1
  {
    NestedCall(toks, i, k, n);
    var m := TriggerLength(toks[k..]);
    QuestionInCall(toks, k);
    SliceOfSlice(toks, i, n, k, m);
    QuestionsWithin(toks[i..i + n], toks[k..k + m], k - i);
  }

  lemma SliceOfSlice<T>(s: seq<T>, i: nat, n: nat, k: nat, m: nat)
    requires i <= k && k + m <= i + n <= |s|
    ensures s[i..i + n][k - i..k - i + m] == s[k..k + m]
  {
    var part := s[i..i + n][k - i..k - i + m];
    forall x | 0 <= x < m ensures part[x] == s[k..k + m][x] {
      assert s[i..i + n][k - i + x] == s[k + x];
    }
  }

  predicate ClosesAfter(s: seq<Token>, depth: nat, n: nat) {
    Closing(s, depth).Some? && Closing(s, depth).value == n
  }

  /** Part of the way to the closing parenthesis, it is still to come. */
  lemma {:induction false} StillCloses(s: seq<Token>, depth: nat, n: nat, t: nat) returns (e: nat)
    requires depth >= 1 && ClosesAfter(s, depth, n) && t < n
    ensures e >= 1 && t <= |s| && ClosesAfter(s[t..], e, n - t)
    decreases t
  {
    e := depth;
    if t == 0 {
      assert s[0..] == s;
    } else {
      e := StillCloses(s[1..], DepthAfter(s[0], depth), n - 1, t - 1);
      assert s[1..][t - 1..] == s[t..];
    }
  }

  /** From deeper inside, it takes longer. */
  lemma {:induction false} DeeperIsLater(s: seq<Token>, a: nat, n: nat, b: nat, m: nat)
    requires 1 <= a < b && ClosesAfter(s, a, n) && ClosesAfter(s, b, m)
    ensures n < m
  {
    if !(s[0].text == ")" && a == 1) {
      DeeperIsLater(s[1..], DepthAfter(s[0], a), n - 1, DepthAfter(s[0], b), m - 1);
    }
  }

  lemma {:induction false} SolidClosesAfter(s: seq<Token>, depth: nat, n: nat)
    requires AllProper(s) && ClosesAfter(s, depth, n) && depth >= 1
    ensures |s| - |Solid(s)| < n && ClosesAfter(Solid(s), depth, n - (|s| - |Solid(s)|))
  {
    if IsSkippable(s[0]) {
      assert IsProper(s[0]);
      ProperSuffix(s, 1);
      SolidClosesAfter(s[1..], depth, n - 1);
    }
  }

  /** A call ends before the group around it. */
  lemma CallEndsFirst(s: seq<Token>, depth: nat, n: nat)
    requires s != [] && AllProper(s) && IsCallName(s[0]) && CallLength(s).Some?
    requires depth >= 1 && ClosesAfter(s, depth, n)
    ensures CallLength(s).value < n
  {
    NameIsNoParenthesis(s[0]);
    ProperSuffix(s, 1);
    SolidClosesAfter(s[1..], depth, n - 1);
    var group := Solid(s[1..]);
    var m := n - 1 - (|s[1..]| - |group|);
    DeeperIsLater(group[1..], 1, Closing(group[1..], 1).value, depth + 1, m - 1);
  }

  /** The depth at a name inside a call is at least one, and the parenthesis that ends the call is still to come. */
  lemma InsideCall(s: seq<Token>, at: nat, n: nat) returns (depth: nat)
    requires s != [] && CallLength(s).Some? && n == CallLength(s).value && 0 < at < n && IsCallName(s[at])
    ensures depth >= 1 && ClosesAfter(s[at..], depth, n - at)
  {
    var group := Solid(s[1..]);
    var open := |s| - |group|;
    SolidIs(s[1..]);
    assert s[open..] == group && group[0] == s[open];
    NotInHead(s, open, at);
    assert group[1..] == s[open + 1..];
    depth := StillCloses(group[1..], 1, n - open - 1, at - open - 1);
    assert group[1..][at - open - 1..] == s[at..];
  }

  /** A call that begins inside another ends inside it. */
  lemma NestedCall(toks: seq<Token>, i: nat, k: nat, n: nat)
    requires AllProper(toks) && TakesParameter(toks, k) && i < k < i + n && n == TriggerLength(toks[i..])
    requires IsTrigger(toks[i..])
    ensures k + TriggerLength(toks[k..]) <= i + n
  {
    hide Closing, Solid, EmptyArgs, AllProper;
    KeywordsDiffer(toks[k]);
    assert toks[i..][k - i] == toks[k] && toks[i..][k - i..] == toks[k..];
    var depth := InsideCall(toks[i..], k - i, n);
    ProperSuffix(toks, k);
    CallEndsFirst(toks[k..], depth, n - (k - i));
  }

  lemma HeadIsSkippable(s: seq<Token>, open: nat, at: nat)
    requires s != [] && open == |s| - |Solid(s[1..])| && 0 < at < open <= |s|
    ensures IsSkippable(s[at])
  {
    SolidIs(s[1..]);
    assert s[1..][at - 1] == s[at];
  }

  /** Between the name and the parenthesis there is no other name. */
  lemma NotInHead(s: seq<Token>, open: nat, at: nat)
    requires s != [] && open == |s| - |Solid(s[1..])| < |s| && 0 < at < |s|
    requires s[open].text == "(" && IsCallName(s[at])
    ensures at > open
  {
    NameIsNoParenthesis(s[at]);
    if at < open {
      HeadIsSkippable(s, open, at);
    }
  }
}
