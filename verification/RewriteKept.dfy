/**
 When a pass keeps the placeholders and the parameters of a statement together: exactly if at most one length is a
 placeholder, and no replaced call takes another placeholder with it.
 */
module RewriteKept {
  import opened Tokenizer
  import opened Calls
  import opened Quoting
  import opened Inserts
  import opened InsertClean
  import opened InsertProof
  import opened DefaultLaws
  import opened RewriteRun
  import opened RewriteLaws
  import opened RewriteParams
  import opened RewriteBindings

  // ---------- Bindings ----------

  /** What the turn at a position copies. */
  function CopiedAt(toks: seq<Token>, i: nat, schema: Option<Schema>): seq<nat>
    requires i < |toks|
  {
    if !InsertAt(toks, i, schema).Rewriting? && IsTrigger(toks[i..]) then []
    else Range(Questions(toks[..i]), Questions(toks[..i + Span(toks, i, schema)]))
  }

  /** The numbers of the placeholders that a pass, from here on, copies. */
  function Copied(toks: seq<Token>, i: nat, schema: Option<Schema>): seq<nat>
    requires i <= |toks|
    decreases |toks| - i
  {
    if i == |toks| then [] else CopiedAt(toks, i, schema) + Copied(toks, i + Span(toks, i, schema), schema)
  }

  /** A trigger that is replaced holds no placeholder but a length. */
  predicate HoldsOnlyLength(toks: seq<Token>, i: nat, schema: Option<Schema>) {
    i < |toks| && !InsertAt(toks, i, schema).Rewriting? && IsTrigger(toks[i..]) ==>
      Questions(toks[i..i + TriggerLength(toks[i..])]) == if TakesParameter(toks, i) then 1 else 0
  }

  /** Every trigger that the pass comes to, from here on, holds no placeholder but a length. */
  predicate HoldOnlyLengths(toks: seq<Token>, i: nat, schema: Option<Schema>)
    requires i <= |toks|
    decreases |toks| - i
  {
    i == |toks|
    || (HoldsOnlyLength(toks, i, schema) && HoldOnlyLengths(toks, i + Span(toks, i, schema), schema))
  }

  /** With a parameter for each placeholder: every length is its own placeholder's parameter, and of the parameters
      left the first belongs to the first placeholder copied, and so on. */
  predicate BindingsKept(toks: seq<Token>, schema: Option<Schema>) {
    var asked := Asked(toks, 0, schema);
    Shifted(asked, 0) == asked && Left(0, Questions(toks), Shifted(asked, 0)) == Copied(toks, 0, schema)
  }

  lemma {:induction false} AskedLater(toks: seq<Token>, i: nat, schema: Option<Schema>)
    requires AllProper(toks) && i <= |toks|
    ensures forall k :: 0 <= k < |Asked(toks, i, schema)| ==> Asked(toks, i, schema)[k] >= Questions(toks[..i])
    decreases |toks| - i
  {
    hide AllProper, TakesParameter, PlaceholderAt, InsertAt;
    if i < |toks| {
      var j := i + Span(toks, i, schema);
      QuestionsUpTo(toks, i, j);
      AskedLater(toks, j, schema);
      if TurnTakes(toks, i, schema) {
        PlaceholderIsWithin(toks, i);
      }
    }
  }

  /** Every placeholder is copied or taken for a length. */
  lemma {:induction false} CopiedIsLeft(toks: seq<Token>, i: nat, schema: Option<Schema>)
    requires AllProper(toks) && i <= |toks| && HoldOnlyLengths(toks, i, schema)
    ensures Copied(toks, i, schema) == Left(Questions(toks[..i]), Questions(toks), Asked(toks, i, schema))
    decreases |toks| - i
  {
    hide *;
    if i == |toks| {
      NothingCopied(toks, schema);
    } else {
      HoldsHere(toks, i, schema);
      CopiedIsLeft(toks, i + Span(toks, i, schema), schema);
      CopiedHere(toks, i, schema);
    }
  }

  lemma HoldsHere(toks: seq<Token>, i: nat, schema: Option<Schema>)
    requires i < |toks|
    ensures HoldOnlyLengths(toks, i, schema)
            <==> HoldsOnlyLength(toks, i, schema) && HoldOnlyLengths(toks, i + Span(toks, i, schema), schema)
  {
    hide HoldsOnlyLength, Span;
  }

  lemma NothingCopied(toks: seq<Token>, schema: Option<Schema>)
    ensures Copied(toks, |toks|, schema) == Left(Questions(toks[..|toks|]), Questions(toks), Asked(toks, |toks|, schema))
  {
    assert toks[..|toks|] == toks;
  }

  lemma CopiedHere(toks: seq<Token>, i: nat, schema: Option<Schema>)
    requires AllProper(toks) && i < |toks| && HoldsOnlyLength(toks, i, schema)
    requires var j := i + Span(toks, i, schema);
             Copied(toks, j, schema) == Left(Questions(toks[..j]), Questions(toks), Asked(toks, j, schema))
    ensures Copied(toks, i, schema) == Left(Questions(toks[..i]), Questions(toks), Asked(toks, i, schema))
  {
    hide *;
    var j := i + Span(toks, i, schema);
    QuestionsRise(toks, i, j);
    AskedLater(toks, j, schema);
    AskedNext(toks, i, schema, 0);
    if TurnTakes(toks, i, schema) {
      LengthIsAll(toks, i, schema);
      LeftAsked(Questions(toks[..i]), Questions(toks), Asked(toks, j, schema));
    } else {
      LeftUnasked(Questions(toks[..i]), Questions(toks[..j]), Questions(toks), Asked(toks, j, schema));
      SpanOfOther(toks, i, schema);
    }
  }

  lemma QuestionsRise(toks: seq<Token>, i: nat, j: nat)
    requires i <= j <= |toks|
    ensures Questions(toks[..i]) <= Questions(toks[..j]) <= Questions(toks)
  {
    QuestionsUpTo(toks, i, j);
    QuestionsUpTo(toks, j, |toks|);
    assert toks[..|toks|] == toks;
  }

  lemma LeftAsked(a: nat, b: nat, later: seq<nat>)
    requires a < b && forall k :: 0 <= k < |later| ==> later[k] >= a + 1
    ensures Left(a, b, [a] + later) == Left(a + 1, b, later)
  {
    LeftSplits(a, a + 1, b, [a] + later);
    LeftOne(a, b, later);
  }

  lemma LeftUnasked(a: nat, m: nat, b: nat, later: seq<nat>)
    requires a <= m <= b && forall k :: 0 <= k < |later| ==> later[k] >= m
    ensures Left(a, b, later) == Range(a, m) + Left(m, b, later)
  {
    LeftSplits(a, m, b, later);
    NoneTaken(a, m, later);
  }

  lemma TurnTakesIs(toks: seq<Token>, i: nat, schema: Option<Schema>)
    requires TurnTakes(toks, i, schema)
    ensures TakesParameter(toks, i) && i < |toks| && IsTrigger(toks[i..]) && !InsertAt(toks, i, schema).Rewriting?
    ensures Span(toks, i, schema) == TriggerLength(toks[i..])
  {
    hide InsertAt, TriggerLength, Argument;
  }

  /** The call of a length holds one placeholder. */
  lemma LengthIsAll(toks: seq<Token>, i: nat, schema: Option<Schema>)
    requires AllProper(toks) && HoldsOnlyLength(toks, i, schema) && TurnTakes(toks, i, schema)
    ensures var j := i + Span(toks, i, schema);
            && PlaceholderAt(toks, i) == Questions(toks[..i]) && Questions(toks[..j]) == Questions(toks[..i]) + 1
            && Copied(toks, i, schema) == Copied(toks, j, schema)
  {
    hide AllProper, TakesParameter, PlaceholderAt, InsertAt, TriggerLength, Questions, Range, Copied;
    TurnTakesIs(toks, i, schema);
    PlaceholderIsWithin(toks, i);
    var j := i + Span(toks, i, schema);
    QuestionsUpTo(toks, i, j);
    CopiedNext(toks, i, schema);
    assert [] + Copied(toks, j, schema) == Copied(toks, j, schema);
  }

  lemma CopiedNext(toks: seq<Token>, i: nat, schema: Option<Schema>)
    requires i < |toks|
    ensures Copied(toks, i, schema) == CopiedAt(toks, i, schema) + Copied(toks, i + Span(toks, i, schema), schema)
  {
    hide CopiedAt, Span;
  }

  lemma LeftOne(a: nat, b: nat, later: seq<nat>)
    requires forall k :: 0 <= k < |later| ==> later[k] >= a + 1
    ensures Left(a, a + 1, [a] + later) == [] && Left(a + 1, b, [a] + later) == Left(a + 1, b, later)
  {
    assert ([a] + later)[0] == a;
    forall x: nat | a + 1 <= x < b ensures x in [a] + later <==> x in later {
      if x in later {
        var k :| 0 <= k < |later| && later[k] == x;
        assert ([a] + later)[k + 1] == x;
      }
    }
    LeftSame(a + 1, b, [a] + later, later);
  }

  lemma {:induction false} NoneTaken(a: nat, b: nat, taken: seq<nat>)
    requires forall k :: 0 <= k < |taken| ==> taken[k] >= b
    ensures Left(a, b, taken) == Range(a, b)
    decreases b - a
  {
    if a < b { NoneTaken(a + 1, b, taken); }
  }

  /** A turn that takes no length copies its placeholders, or has none. */
  lemma SpanOfOther(toks: seq<Token>, i: nat, schema: Option<Schema>)
    requires i < |toks| && HoldsOnlyLength(toks, i, schema) && !TurnTakes(toks, i, schema)
    ensures var j := i + Span(toks, i, schema);
            Copied(toks, i, schema) == Range(Questions(toks[..i]), Questions(toks[..j])) + Copied(toks, j, schema)
  {
    hide TakesParameter, InsertAt, TriggerLength, Questions, Copied;
    CopiedNext(toks, i, schema);
    QuestionsUpTo(toks, i, i + Span(toks, i, schema));
  }

  /** A turn copies or takes no more placeholders than it comes over, and as many exactly if it drops none. */
  lemma TurnCounts(toks: seq<Token>, i: nat, schema: Option<Schema>)
    requires AllProper(toks) && i < |toks|
    ensures var here := |CopiedAt(toks, i, schema)| + (if TurnTakes(toks, i, schema) then 1 else 0);
            var over := Questions(toks[..i + Span(toks, i, schema)]) - Questions(toks[..i]);
            here <= over && (here == over <==> HoldsOnlyLength(toks, i, schema))
  {
    hide AllProper, PlaceholderAt, InsertAt, TriggerLength, Questions, TakesParameter, CopiedAt;
    QuestionsUpTo(toks, i, i + Span(toks, i, schema));
    CopiedCount(toks, i, schema);
    if TurnTakes(toks, i, schema) {
      TurnTakesIs(toks, i, schema);
      PlaceholderIsWithin(toks, i);
    }
    TriggerTakes(toks, i);
  }

  lemma TriggerTakes(toks: seq<Token>, i: nat)
    ensures TakesParameter(toks, i) ==> i < |toks| && IsTrigger(toks[i..])
  {}

  /** So it is from any place to the end. */
  lemma {:induction false} PassCounts(toks: seq<Token>, i: nat, schema: Option<Schema>)
    requires AllProper(toks) && i <= |toks|
    ensures var here := |Copied(toks, i, schema)| + |Asked(toks, i, schema)|;
            var over := Questions(toks) - Questions(toks[..i]);
            here <= over && (here == over <==> HoldOnlyLengths(toks, i, schema))
    decreases |toks| - i
  {
    hide *;
    if i == |toks| {
      NothingToCount(toks, schema);
    } else {
      PassCounts(toks, i + Span(toks, i, schema), schema);
      TurnCounts(toks, i, schema);
      HoldsHere(toks, i, schema);
      CopiedNext(toks, i, schema);
      AskedNext(toks, i, schema, 0);
    }
  }

  lemma NothingToCount(toks: seq<Token>, schema: Option<Schema>)
    ensures Copied(toks, |toks|, schema) == [] && Asked(toks, |toks|, schema) == []
    ensures HoldOnlyLengths(toks, |toks|, schema) && toks[..|toks|] == toks
  {}

  lemma {:induction false} AskedBelow(toks: seq<Token>, i: nat, schema: Option<Schema>)
    requires AllProper(toks) && i <= |toks|
    ensures AllBelow(Asked(toks, i, schema), Questions(toks))
    decreases |toks| - i
  {
    hide *;
    if i == |toks| {
      NothingToCount(toks, schema);
      BelowNext(0, [], Questions(toks));
    } else {
      AskedBelow(toks, i + Span(toks, i, schema), schema);
      AskedNext(toks, i, schema, 0);
      if TurnTakes(toks, i, schema) {
        TurnTakesIs(toks, i, schema);
        PlaceholderIsWithin(toks, i);
        QuestionsRise(toks, i, i + TriggerLength(toks[i..]));
        BelowNext(PlaceholderAt(toks, i), Asked(toks, i + Span(toks, i, schema), schema), Questions(toks));
      }
    }
  }

  lemma BelowNext(q: nat, later: seq<nat>, n: nat)
    ensures AllBelow([], n)
    ensures q < n && AllBelow(later, n) ==> AllBelow([q] + later, n)
  {}

  /** With at most one length, the bindings are kept exactly if no placeholder is dropped. */
  lemma KeptIfNoneDropped(toks: seq<Token>, schema: Option<Schema>)
    requires AllProper(toks) && |Asked(toks, 0, schema)| <= 1
    ensures Left(0, Questions(toks), Asked(toks, 0, schema)) == Copied(toks, 0, schema)
            <==> HoldOnlyLengths(toks, 0, schema)
  {
    assert toks[..0] == [] && Questions(toks[..0]) == 0;
    hide AllProper, Asked, Copied, HoldOnlyLengths, Questions;
    PassCounts(toks, 0, schema);
    AskedBelow(toks, 0, schema);
    LeftCount(Questions(toks), Asked(toks, 0, schema));
    if HoldOnlyLengths(toks, 0, schema) {
      CopiedIsLeft(toks, 0, schema);
    }
  }

  /** All bindings are kept exactly if at most one length is a placeholder and no replaced expression that the pass
      comes to holds another placeholder. */
  lemma BindingsKeptExactly(toks: seq<Token>, schema: Option<Schema>)
    requires AllProper(toks)
    ensures BindingsKept(toks, schema) <==> |Asked(toks, 0, schema)| <= 1 && HoldOnlyLengths(toks, 0, schema)
  {
    var asked := Asked(toks, 0, schema);
    hide AllProper, Asked, Copied, HoldOnlyLengths, Questions, Left;
    if |asked| >= 2 {
      assert Shifted(asked, 0)[1] == asked[1] + 1;
    } else {
      KeptIfNoneDropped(toks, schema);
      assert Shifted(asked, 0) == asked;
    }
  }

  // ---------- What is emitted ----------

  /** Putting quiet tokens in adds no placeholder. */
  lemma {:induction false} PaddedAsks(a: seq<Token>, b: seq<Token>)
    requires Padded(a, b)
    ensures Questions(a) == Questions(b)
    decreases |b|
  {
    if a != [] && b != [] && a[0] == b[0] && Padded(a[1..], b[1..]) {
      PaddedAsks(a[1..], b[1..]);
    } else if b != [] {
      PaddedAsks(a, b[1..]);
    }
  }

  /** What is written for DEFAULT VALUES asks for the parameters that what is kept asks for. */
  lemma {:induction false} RebuiltAsks(s: seq<Token>, left: nat, column: string, id: int)
    requires left <= |s|
    ensures Questions(RebuildDefault(s, left, column, id)) == Questions(Kept(s, left))
    decreases left
  {
    hide *;
    if left == 0 {
      NothingRebuilt(s, column, id);
    } else if IsKeyword(s[0], "DEFAULT") {
      var n := After(s, left);
      RebuiltAsks(s[n..], left - n, column, id);
      DefaultNext(s, left, column, id);
      DefaultAsksNothing(s[0], column, id);
      QuestionsAppend(DefaultTokens(column, id), RebuildDefault(s[n..], left - n, column, id));
      QuestionsAppend([s[0]], Kept(s[n..], left - n));
    } else {
      RebuiltAsks(s[1..], left - 1, column, id);
      KeptNext(s, left);
      RebuiltNext(s, left, column, id);
      QuestionsAppend([s[0]], RebuildDefault(s[1..], left - 1, column, id));
      QuestionsAppend([s[0]], Kept(s[1..], left - 1));
    }
  }

  lemma NothingRebuilt(s: seq<Token>, column: string, id: int)
    ensures RebuildDefault(s, 0, column, id) == [] && Kept(s, 0) == []
  {}

  lemma DefaultAsksNothing(t: Token, column: string, id: int)
    requires IsKeyword(t, "DEFAULT")
    ensures Questions(DefaultTokens(column, id)) == 0 && Questions([t]) == 0
  {
    var d := DefaultTokens(column, id);
    forall k | 0 <= k < |d| ensures d[k] != Token(Punct, "?") {
    }
    NoQuestions(d);
    NoQuestions([t]);
  }

  /** An INSERT that is rewritten keeps its placeholders: it is plain, or, in the DEFAULT VALUES form, no placeholder
      comes right after a DEFAULT. */
  predicate KeepsPlaceholders(schema: Schema, s: seq<Token>)
    requires s != [] && RewriteInsert(schema, s).Rewriting?
  {
    var end := RewriteInsert(schema, s).end;
    if Accepts(schema, s) then HasPlainHead(s) else Questions(Kept(s, end)) == Questions(s[..end])
  }

  predicate PlaceholdersStay(toks: seq<Token>, i: nat, schema: Option<Schema>) {
    i < |toks| && InsertAt(toks, i, schema).Rewriting? ==> KeepsPlaceholders(schema.value, toks[i..])
  }

  ghost predicate AllStay(toks: seq<Token>, schema: Option<Schema>) {
    forall i :: PlaceholdersStay(toks, i, schema)
  }

  lemma RewritingAsks(toks: seq<Token>, i: nat, schema: Option<Schema>)
    requires AllProper(toks) && i < |toks| && PlaceholdersStay(toks, i, schema) && InsertAt(toks, i, schema).Rewriting?
    ensures var w := InsertAt(toks, i, schema); Questions(w.tokens) == Questions(toks[i..i + w.end])
  {
    hide RewriteInsert, KeepsPlaceholders, AllProper, AtStart, Questions;
    ProperSuffix(toks, i);
    RewriteAsks(schema.value, toks[i..]);
    var end := InsertAt(toks, i, schema).end;
    assert toks[i..][..end] == toks[i..i + end];
  }

  lemma RewriteAsks(schema: Schema, s: seq<Token>)
    requires s != [] && AllProper(s) && RewriteInsert(schema, s).Rewriting? && KeepsPlaceholders(schema, s)
    ensures var w := RewriteInsert(schema, s); Questions(w.tokens) == Questions(s[..w.end])
  {
    hide RewriteInsert, AllProper, Questions, Accepts, HasPlainHead, Kept;
    if Accepts(schema, s) {
      RowsAsk(schema, s);
    } else {
      DefaultAsks(schema, s);
    }
  }

  lemma RowsAsk(schema: Schema, s: seq<Token>)
    requires s != [] && AllProper(s) && Accepts(schema, s) && HasPlainHead(s)
    ensures var w := RewriteInsert(schema, s); w.Rewriting? && Questions(w.tokens) == Questions(s[..w.end])
  {
    RestIsVerbatim(schema, s);
    hide *;
    var w := RewriteInsert(schema, s);
    PaddedAsks(s[..w.end], w.tokens);
  }

  lemma DefaultAsks(schema: Schema, s: seq<Token>)
    requires s != [] && !Accepts(schema, s) && RewriteInsert(schema, s).Rewriting?
    ensures var w := RewriteInsert(schema, s); Questions(w.tokens) == Questions(Kept(s, w.end))
  {
    hide ParseInsert, Rebuild, RebuildDefault, Questions, Kept, Accepts;
    var w := RewriteInsert(schema, s);
    RebuiltAsks(s, w.end, AutoColumn(schema, w.table), w.next);
  }

  /** A pass emits the placeholders it copies, and no others. */
  lemma {:induction false} CopiedIsEmitted(toks: seq<Token>, i: nat, clock: Clock, schema: Option<Schema>, env: Env,
                                           r: Run)
    requires AllProper(toks) && AllStay(toks, schema)
    requires i <= |toks| && RunFrom(toks, i, clock, schema, env) == Done(r)
    ensures Questions(Emitted(r.pieces)) == |Copied(toks, i, schema)|
    decreases |toks| - i
  {
    hide *;
    if i == |toks| {
      NothingEmitted(toks, clock, schema, env);
    } else {
      var p, env', rest := RunNext(toks, i, clock, schema, env, r);
      var j := i + |p.source|;
      CopiedIsEmitted(toks, j, clock, schema, env', rest);
      StepSpans(toks, i, clock, schema, env, p, env');
      StaysHere(toks, i, schema);
      EmittedHere(toks, i, clock, schema, env, p, env');
      EmittedNext(p, rest.pieces);
      QuestionsAppend(p.emitted, Emitted(rest.pieces));
    }
  }

  lemma StaysHere(toks: seq<Token>, i: nat, schema: Option<Schema>)
    requires AllStay(toks, schema)
    ensures PlaceholdersStay(toks, i, schema)
  {
    hide PlaceholdersStay;
  }

  lemma NothingEmitted(toks: seq<Token>, clock: Clock, schema: Option<Schema>, env: Env)
    ensures RunFrom(toks, |toks|, clock, schema, env) == Done(Run([], env))
    ensures Questions(Emitted([])) == |Copied(toks, |toks|, schema)|
  {}

  lemma StepEmits(toks: seq<Token>, i: nat, clock: Clock, schema: Option<Schema>, env: Env, p: Piece, env': Env)
    requires i < |toks| && Step(toks, i, clock, schema, env) == Done((p, env'))
    ensures if InsertAt(toks, i, schema).Rewriting? then p.emitted == InsertAt(toks, i, schema).tokens
            else if IsTrigger(toks[i..]) then Questions(p.emitted) == 0
            else p.emitted == p.source == [toks[i]]
  {
    hide Literal, InsertAt, Questions;
    if !InsertAt(toks, i, schema).Rewriting? && IsTrigger(toks[i..]) {
      LiteralAsksNothing(toks, i, clock, env);
    }
  }

  lemma EmittedHere(toks: seq<Token>, i: nat, clock: Clock, schema: Option<Schema>, env: Env, p: Piece, env': Env)
    requires AllProper(toks) && i < |toks| && Step(toks, i, clock, schema, env) == Done((p, env'))
    requires |p.source| == Span(toks, i, schema) && PlaceholdersStay(toks, i, schema)
    ensures |Copied(toks, i, schema)| == Questions(p.emitted) + |Copied(toks, i + |p.source|, schema)|
  {
    hide *;
    StepEmits(toks, i, clock, schema, env, p, env');
    CopiedNext(toks, i, schema);
    CopiedCount(toks, i, schema);
    if InsertAt(toks, i, schema).Rewriting? {
      RewritingAsks(toks, i, schema);
    } else if !IsTrigger(toks[i..]) {
      assert toks[i..i + 1] == [toks[i]];
    }
  }

  lemma CopiedCount(toks: seq<Token>, i: nat, schema: Option<Schema>)
    requires i < |toks|
    ensures var j := i + Span(toks, i, schema);
            && |CopiedAt(toks, i, schema)|
               == (if !InsertAt(toks, i, schema).Rewriting? && IsTrigger(toks[i..]) then 0 else Questions(toks[i..j]))
            && (InsertAt(toks, i, schema).Rewriting? ==> j == i + InsertAt(toks, i, schema).end)
  {
    hide InsertAt, TriggerLength, Questions;
    QuestionsUpTo(toks, i, i + Span(toks, i, schema));
  }

  lemma LiteralAsksNothing(toks: seq<Token>, i: nat, clock: Clock, env: Env)
    requires i < |toks| && Literal(toks, i, clock, env).Done?
    ensures Questions(Literal(toks, i, clock, env).value.0) == 0
  {
    var lit := Literal(toks, i, clock, env).value.0;
    forall k | 0 <= k < |lit| ensures lit[k] != Token(Punct, "?") {
    }
    NoQuestions(lit);
  }

  lemma {:induction false} NoQuestions(s: seq<Token>)
    requires forall k :: 0 <= k < |s| ==> s[k] != Token(Punct, "?")
    ensures Questions(s) == 0
  {
    if s != [] {
      assert s[0] != Token(Punct, "?");
      NoQuestions(s[1..]);
    }
  }

  // ---------- Two lengths ----------

  /** RANDOMBLOB(?),RANDOMBLOB(?),? */
  const TWO_LENGTHS: seq<Token> :=
    [Token(Ident, "RANDOMBLOB"), Token(Punct, "("), Token(Punct, "?"), Token(Punct, ")"), Token(Punct, ","),
     Token(Ident, "RANDOMBLOB"), Token(Punct, "("), Token(Punct, "?"), Token(Punct, ")"), Token(Punct, ","),
     Token(Punct, "?")]

  /** RANDOMBLOB(?) at a position, token by token. */
  predicate IsLengthCall(toks: seq<Token>, i: nat) {
    && i + 3 < |toks| && toks[i] == Token(Ident, "RANDOMBLOB") && toks[i + 1] == Token(Punct, "(")
    && toks[i + 2] == Token(Punct, "?") && toks[i + 3] == Token(Punct, ")")
  }

  lemma UpperOfName()
    ensures Upper("RANDOMBLOB") == "RANDOMBLOB"
  {
    hide Upper;
    UpperNext('B', "");
    UpperNext('O', "B");
    UpperNext('L', "OB");
    UpperNext('B', "LOB");
    UpperNext('M', "BLOB");
    UpperNext('O', "MBLOB");
    UpperNext('D', "OMBLOB");
    UpperNext('N', "DOMBLOB");
    UpperNext('A', "NDOMBLOB");
    UpperNext('R', "ANDOMBLOB");
    UpperOfShort();
    assert ['B'] + "" == "B" && ['O'] + "B" == "OB" && ['L'] + "OB" == "LOB" && ['B'] + "LOB" == "BLOB"
        && ['M'] + "BLOB" == "MBLOB";
    assert ['O'] + "MBLOB" == "OMBLOB" && ['D'] + "OMBLOB" == "DOMBLOB" && ['N'] + "DOMBLOB" == "NDOMBLOB"
        && ['A'] + "NDOMBLOB" == "ANDOMBLOB" && ['R'] + "ANDOMBLOB" == "RANDOMBLOB";
  }

  lemma LengthCloses(toks: seq<Token>, i: nat)
    requires IsLengthCall(toks, i)
    ensures CallLength(toks[i..]) == Option.Some(4) && Argument(toks[i..]) == toks[i + 2..]
  {
    var s := toks[i..];
    assert s[1..] == toks[i + 1..] && s[1..][1..] == toks[i + 2..] && toks[i + 2..][1..] == toks[i + 3..];
    assert Closing(toks[i + 3..], 1) == Option.Some(1);
    assert Closing(toks[i + 2..], 1) == Option.Some(2);
    assert Solid(s[1..]) == s[1..] && Solid(toks[i + 2..]) == toks[i + 2..];
  }

  lemma LengthTriggers(toks: seq<Token>, i: nat)
    requires IsLengthCall(toks, i)
    ensures TriggerLength(toks[i..]) == 4
  {
    LengthName(toks, i);
    LengthCloses(toks, i);
    hide CallLength, IsKeyword, EmptyArgs;
    assert toks[i..][0] == toks[i];
  }

  lemma LengthCall(toks: seq<Token>, i: nat)
    requires IsLengthCall(toks, i)
    ensures TakesParameter(toks, i) && TriggerLength(toks[i..]) == 4 && Argument(toks[i..]) == toks[i + 2..]
    ensures PlaceholderAt(toks, i) == Questions(toks[..i + 2])
  {
    LengthName(toks, i);
    LengthCloses(toks, i);
    LengthTriggers(toks, i);
    hide CallLength, Argument, IsKeyword, Questions, TriggerLength;
    assert toks[i + 2..][0] == toks[i + 2] && |toks| - |toks[i + 2..]| == i + 2;
  }

  lemma LengthName(toks: seq<Token>, i: nat)
    requires IsLengthCall(toks, i)
    ensures IsKeyword(toks[i], "RANDOMBLOB") && !IsKeyword(toks[i], "INSERT") && !IsKeyword(toks[i], "NOW")
    ensures !IsClockName(toks[i]) && !IsKeyword(toks[i], "RANDOM")
  {
    UpperOfName();
    KeywordsDiffer(toks[i]);
  }

  lemma LengthStep(toks: seq<Token>, i: nat, clock: Clock, schema: Option<Schema>, env: Env, n: int, left: seq<Value>)
    requires IsLengthCall(toks, i) && BlobLength(toks, i, env.params) == Done((n, left)) && 0 <= n <= |env.random|
    ensures !InsertAt(toks, i, schema).Rewriting?
    ensures Step(toks, i, clock, schema, env)
            == Done((Piece(toks[i..i + 4], BlobTokens(env.random[..n])), Drawn(env, n).(params := left)))
  {
    LengthCall(toks, i);
    LengthName(toks, i);
    hide BlobLength, TriggerLength, BlobTokens, RewriteInsert, IsKeyword, TakesParameter, Argument, PlaceholderAt, Upper;
    assert Literal(toks, i, clock, env) == Done((BlobTokens(env.random[..n]), Drawn(env, n).(params := left)));
  }

  lemma CopyStep(toks: seq<Token>, i: nat, clock: Clock, schema: Option<Schema>, env: Env)
    requires i < |toks| && toks[i].kind == Punct
    ensures Step(toks, i, clock, schema, env) == Done((Piece([toks[i]], [toks[i]]), env))
    ensures !TurnTakes(toks, i, schema) && Span(toks, i, schema) == 1
  {
    hide RewriteInsert;
    assert !IsTrigger(toks[i..]);
  }

  lemma RunOn(toks: seq<Token>, i: nat, clock: Clock, schema: Option<Schema>, env: Env, p: Piece, env': Env)
    requires i < |toks| && Step(toks, i, clock, schema, env) == Done((p, env')) && i + |p.source| <= |toks|
    requires RunFrom(toks, i + |p.source|, clock, schema, env').Done?
    ensures RunFrom(toks, i, clock, schema, env).Done?
    ensures RunFrom(toks, i, clock, schema, env).value.env == RunFrom(toks, i + |p.source|, clock, schema, env').value.env
  {
    hide Step;
  }

  lemma CopyOn(toks: seq<Token>, i: nat, clock: Clock, schema: Option<Schema>, env: Env)
    requires i < |toks| && toks[i].kind == Punct && RunFrom(toks, i + 1, clock, schema, env).Done?
    ensures RunFrom(toks, i, clock, schema, env).Done?
    ensures RunFrom(toks, i, clock, schema, env).value.env == RunFrom(toks, i + 1, clock, schema, env).value.env
    ensures Asked(toks, i, schema) == Asked(toks, i + 1, schema)
  {
    hide Step, TurnTakes, Span, Asked;
    CopyStep(toks, i, clock, schema, env);
    RunOn(toks, i, clock, schema, env, Piece([toks[i]], [toks[i]]), env);
    AskedNext(toks, i, schema, 0);
  }

  lemma LengthOn(toks: seq<Token>, i: nat, clock: Clock, schema: Option<Schema>, env: Env, n: int, left: seq<Value>)
    requires IsLengthCall(toks, i) && BlobLength(toks, i, env.params) == Done((n, left)) && 0 <= n <= |env.random|
    requires RunFrom(toks, i + 4, clock, schema, Drawn(env, n).(params := left)).Done?
    ensures RunFrom(toks, i, clock, schema, env).Done?
    ensures RunFrom(toks, i, clock, schema, env).value.env
            == RunFrom(toks, i + 4, clock, schema, Drawn(env, n).(params := left)).value.env
    ensures Asked(toks, i, schema) == [Questions(toks[..i + 2])] + Asked(toks, i + 4, schema)
  {
    hide Step, Asked, BlobLength, TakesParameter, InsertAt, PlaceholderAt, BlobTokens, TriggerLength, Argument;
    LengthStep(toks, i, clock, schema, env, n, left);
    LengthCall(toks, i);
    RunOn(toks, i, clock, schema, env, Piece(toks[i..i + 4], BlobTokens(env.random[..n])),
          Drawn(env, n).(params := left));
    AskedNext(toks, i, schema, 0);
  }

  lemma QuestionsOfTwo()
    ensures Questions(TWO_LENGTHS[..2]) == 0 && Questions(TWO_LENGTHS[..7]) == 1
  {
    var t := TWO_LENGTHS;
    assert t[..0] == [];
    QuestionsOne(t, 0);
    QuestionsOne(t, 1);
    QuestionsOne(t, 2);
    QuestionsOne(t, 3);
    QuestionsOne(t, 4);
    QuestionsOne(t, 5);
    QuestionsOne(t, 6);
  }

  lemma LengthOfCall(toks: seq<Token>, i: nat, params: seq<Value>, q: nat)
    requires IsLengthCall(toks, i) && Questions(toks[..i + 2]) == q < |params| && params[q].Int?
    ensures BlobLength(toks, i, params) == Done((params[q].i, Without(params, q)))
  {
    LengthCall(toks, i);
    hide *;
    BlobLengthIs(toks, i, params);
    IntIs(params[q]);
  }

  lemma IntIs(v: Value)
    requires v.Int?
    ensures ValueToInt64(v) == Option.Some(v.i)
  {}

  lemma LengthsOfTwo(a: int, b: int, c: int)
    ensures BlobLength(TWO_LENGTHS, 0, [Int(a), Int(b), Int(c)]) == Done((a, [Int(b), Int(c)]))
    ensures BlobLength(TWO_LENGTHS, 5, [Int(b), Int(c)]) == Done((c, [Int(b)]))
  {
    hide Questions, BlobLength;
    QuestionsOfTwo();
    LengthOfCall(TWO_LENGTHS, 0, [Int(a), Int(b), Int(c)], 0);
    LengthOfCall(TWO_LENGTHS, 5, [Int(b), Int(c)], 1);
    assert Without([Int(a), Int(b), Int(c)], 0) == [Int(b), Int(c)];
    assert Without([Int(b), Int(c)], 1) == [Int(b)];
  }

  /** A statement with two such calls, and a placeholder after them: the second blob is of the length of the third
      parameter, and the third placeholder is left with the second parameter. */
  lemma TwoLengthsMisbind(a: int, b: int, c: int, clock: Clock, schema: Option<Schema>, env: Env)
    requires 0 <= a && 0 <= c && a + c <= |env.random| && env.params == [Int(a), Int(b), Int(c)]
    ensures var run := RunFrom(TWO_LENGTHS, 0, clock, schema, env);
            run.Done? && run.value.env.params == [Int(b)]
    ensures Asked(TWO_LENGTHS, 0, schema) == [0, 1] && !BindingsKept(TWO_LENGTHS, schema)
  {
    hide BlobLength, Asked, RunFrom, Questions, Copied, Left;
    var t := TWO_LENGTHS;
    var one := Drawn(env, a).(params := [Int(b), Int(c)]);
    var two := Drawn(one, c).(params := [Int(b)]);
    LengthsOfTwo(a, b, c);
    QuestionsOfTwo();
    RunEnds(t, clock, schema, two);
    CopyOn(t, 10, clock, schema, two);
    CopyOn(t, 9, clock, schema, two);
    LengthOn(t, 5, clock, schema, one, c, [Int(b)]);
    CopyOn(t, 4, clock, schema, one);
    LengthOn(t, 0, clock, schema, env, a, [Int(b), Int(c)]);
    assert Shifted([0, 1], 0)[1] == 2;
  }

  lemma RunEnds(toks: seq<Token>, clock: Clock, schema: Option<Schema>, env: Env)
    ensures RunFrom(toks, |toks|, clock, schema, env) == Done(Run([], env)) && Asked(toks, |toks|, schema) == []
  {}

  // ---------- A placeholder that vanishes ----------

  /** NOW(?),? */
  const DROPPED: seq<Token> :=
    [Token(Ident, "NOW"), Token(Punct, "("), Token(Punct, "?"), Token(Punct, ")"), Token(Punct, ","), Token(Punct, "?")]

  lemma NowCall()
    ensures TriggerLength(DROPPED) == 4 && IsKeyword(DROPPED[0], "NOW") && !IsKeyword(DROPPED[0], "INSERT")
    ensures !TakesParameter(DROPPED, 0)
  {
    var s := DROPPED;
    UpperOfShort();
    assert s[1..][1..] == s[2..] && s[2..][1..] == s[3..];
    assert Closing(s[3..], 1) == Option.Some(1);
    assert Closing(s[2..], 1) == Option.Some(2);
    assert Solid(s[1..]) == s[1..];
    assert CallLength(s) == Option.Some(4);
    assert s[0..] == s;
  }

  lemma QuestionsOfDropped()
    ensures Questions(DROPPED[..4]) == 1 && Questions(DROPPED[..5]) == 1
  {
    var t := DROPPED;
    assert t[..0] == [];
    QuestionsOne(t, 0);
    QuestionsOne(t, 1);
    QuestionsOne(t, 2);
    QuestionsOne(t, 3);
    QuestionsOne(t, 4);
  }

  lemma NowStep(clock: Clock, schema: Option<Schema>, env: Env)
    ensures Step(DROPPED, 0, clock, schema, env) == Done((Piece(DROPPED[..4], StringTokens(clock.now)), env))
    ensures !InsertAt(DROPPED, 0, schema).Rewriting? && Span(DROPPED, 0, schema) == 4 && IsTrigger(DROPPED[0..])
  {
    NowCall();
    assert DROPPED[0..] == DROPPED && DROPPED[0..4] == DROPPED[..4];
    hide TriggerLength, RewriteInsert, IsKeyword;
  }

  /** Punctuation at the end is copied. */
  lemma TailRuns(toks: seq<Token>, clock: Clock, schema: Option<Schema>, env: Env)
    requires |toks| >= 2 && toks[|toks| - 2].kind == Punct && toks[|toks| - 1].kind == Punct
    ensures var run := RunFrom(toks, |toks| - 2, clock, schema, env); run.Done? && run.value.env == env
    ensures Asked(toks, |toks| - 2, schema) == []
  {
    hide *;
    RunEnds(toks, clock, schema, env);
    CopyOn(toks, |toks| - 1, clock, schema, env);
    CopyOn(toks, |toks| - 2, clock, schema, env);
  }

  lemma NowRuns(clock: Clock, schema: Option<Schema>, env: Env)
    ensures var run := RunFrom(DROPPED, 0, clock, schema, env);
            run.Done? && run.value.env == env
    ensures Asked(DROPPED, 0, schema) == []
  {
    var t, now := DROPPED, Piece(DROPPED[..4], StringTokens(clock.now));
    assert |t| == 6 && t[4].kind == Punct && t[5].kind == Punct && |now.source| == 4;
    NowStep(clock, schema, env);
    NowTakesNone(schema);
    hide *;
    TailRuns(t, clock, schema, env);
    RunOn(t, 0, clock, schema, env, now, env);
    AskedNext(t, 0, schema, 0);
  }

  lemma NowTakesNone(schema: Option<Schema>)
    ensures !TurnTakes(DROPPED, 0, schema)
  {
    NowCall();
    hide TakesParameter, TriggerLength;
  }

  lemma NowDrops(schema: Option<Schema>)
    ensures !HoldsOnlyLength(DROPPED, 0, schema)
  {
    NowCall();
    QuestionsOfDropped();
    NowStep(Clock("", "", "", ""), schema, Env([], [], map[]));
    assert DROPPED[0..] == DROPPED && DROPPED[0..4] == DROPPED[..4];
    hide TakesParameter, TriggerLength, Questions, InsertAt;
  }

  /** The placeholder within NOW(...) goes with the call, and its parameter stays: the placeholder that is left, the
      second, is bound to the first parameter, though no length is a placeholder. */
  lemma NowDropsPlaceholder(clock: Clock, schema: Option<Schema>, env: Env)
    ensures var run := RunFrom(DROPPED, 0, clock, schema, env);
            run.Done? && run.value.env == env
    ensures Asked(DROPPED, 0, schema) == [] && Copied(DROPPED, 0, schema) == [1]
    ensures !BindingsKept(DROPPED, schema)
  {
    assert |DROPPED| == 6;
    hide *;
    NowRuns(clock, schema, env);
    DroppedCopies(schema);
    DroppedProper();
    NowDrops(schema);
    HoldsHere(DROPPED, 0, schema);
    BindingsKeptExactly(DROPPED, schema);
  }

  lemma DroppedProper()
    ensures AllProper(DROPPED)
  {}

  lemma DroppedCopies(schema: Option<Schema>)
    ensures Copied(DROPPED, 0, schema) == [1]
  {
    var t := DROPPED;
    hide Copied, Questions;
    QuestionsOfDropped();
    NowStep(Clock("", "", "", ""), schema, Env([], [], map[]));
    CopyStep(t, 4, Clock("", "", "", ""), schema, Env([], [], map[]));
    CopyStep(t, 5, Clock("", "", "", ""), schema, Env([], [], map[]));
    QuestionsOne(t, 5);
    CopiedNext(t, 0, schema);
    CopiedNext(t, 4, schema);
    CopiedNext(t, 5, schema);
    NothingToCount(t, schema);
    assert CopiedAt(t, 0, schema) == [] && CopiedAt(t, 4, schema) == Range(1, 1) == [];
    assert CopiedAt(t, 5, schema) == Range(1, 2) == [1];
  }
}
