/**
 Which parameter each RANDOMBLOB(?) of a pass takes, for any number of them and whatever INSERT the pass rewrites, and
 when the placeholders that are left keep their own parameters.
 */
module RewriteBindings {
  import opened Tokenizer
  import opened Calls
  import opened Quoting
  import opened Inserts
  import opened InsertProof
  import opened DefaultLaws
  import opened RewriteRun
  import opened RewriteLaws
  import opened RewriteParams

  // ---------- Lists with places taken out ----------

  function Range(a: nat, b: nat): (r: seq<nat>)
    ensures |r| == if a <= b then b - a else 0
    ensures forall k :: 0 <= k < |r| ==> r[k] == a + k
    decreases b - a
  {
    if a >= b then [] else [a] + Range(a + 1, b)
  }

  /** The numbers from `a` on and below `b` that are not taken. */
  function Left(a: nat, b: nat, taken: seq<nat>): seq<nat>
    decreases b - a
  {
    if a >= b then [] else (if a in taken then [] else [a]) + Left(a + 1, b, taken)
  }

  function Pick<T>(s: seq<T>, places: seq<nat>): (r: seq<T>)
    requires forall k :: 0 <= k < |places| ==> places[k] < |s|
    ensures |r| == |places| && forall k :: 0 <= k < |r| ==> r[k] == s[places[k]]
  {
    if places == [] then [] else [s[places[0]]] + Pick(s, places[1..])
  }

  /** What is left of a list without the places taken. */
  function LeftOf<T>(s: seq<T>, taken: seq<nat>): seq<T> {
    LeftIsBelow(0, |s|, taken);
    Pick(s, Left(0, |s|, taken))
  }

  lemma {:induction false} LeftIsBelow(a: nat, b: nat, taken: seq<nat>)
    ensures forall k :: 0 <= k < |Left(a, b, taken)| ==> a <= Left(a, b, taken)[k] < b
    decreases b - a
  {
    if a < b { LeftIsBelow(a + 1, b, taken); }
  }

  lemma {:induction false} LeftSplits(a: nat, m: nat, b: nat, taken: seq<nat>)
    requires a <= m <= b
    ensures Left(a, b, taken) == Left(a, m, taken) + Left(m, b, taken)
    decreases m - a
  {
    if a < m { LeftSplits(a + 1, m, b, taken); }
  }

  /** Taken places outside a stretch do not matter in it. */
  lemma {:induction false} LeftSame(a: nat, b: nat, taken: seq<nat>, taken': seq<nat>)
    requires forall x: nat :: a <= x < b ==> (x in taken <==> x in taken')
    ensures Left(a, b, taken) == Left(a, b, taken')
    decreases b - a
  {
    if a < b { LeftSame(a + 1, b, taken, taken'); }
  }

  lemma {:induction false} LeftIsRange(a: nat, b: nat, taken: seq<nat>)
    requires forall k :: 0 <= k < |taken| ==> taken[k] < a
    ensures Left(a, b, taken) == Range(a, b)
    decreases b - a
  {
    if a < b { LeftIsRange(a + 1, b, taken); }
  }

  predicate Rising(taken: seq<nat>) {
    forall j, k :: 0 <= j < k < |taken| ==> taken[j] < taken[k]
  }

  predicate AllBelow(taken: seq<nat>, x: nat) {
    forall k :: 0 <= k < |taken| ==> taken[k] < x
  }

  lemma LeftFrom(x: nat, b: nat, taken: seq<nat>)
    requires x < b && AllBelow(taken, x)
    ensures Left(x, b, taken + [x]) == Range(x + 1, b)
    ensures Left(x, b, taken) == [x] + Range(x + 1, b)
  {
    LeftIsRange(x + 1, b, taken + [x]);
    LeftIsRange(x + 1, b, taken);
    assert (taken + [x])[|taken|] == x;
  }

  lemma LeftWith(a: nat, x: nat, b: nat, taken: seq<nat>)
    requires a <= x < b && AllBelow(taken, x)
    ensures Left(a, b, taken + [x]) == Left(a, x, taken) + Range(x + 1, b)
    ensures Left(a, b, taken) == Left(a, x, taken) + ([x] + Range(x + 1, b))
  {
    hide Left, Range;
    LeftSplits(a, x, b, taken + [x]);
    LeftSplits(a, x, b, taken);
    LeftSame(a, x, taken + [x], taken);
    LeftFrom(x, b, taken);
  }

  lemma {:induction false} LeftCount(x: nat, taken: seq<nat>)
    requires Rising(taken) && AllBelow(taken, x)
    ensures |taken| <= x && |Left(0, x, taken)| == x - |taken|
    decreases |taken|
  {
    if taken == [] {
      LeftIsRange(0, x, taken);
    } else {
      var less, y := taken[..|taken| - 1], taken[|taken| - 1];
      assert taken == less + [y];
      LeftCount(y, less);
      LeftWith(0, y, x, less);
    }
  }

  /** After the places taken below it, a place is that many nearer to the front; taking it there takes it. */
  lemma TakenIs<T>(s: seq<T>, taken: seq<nat>, x: nat)
    requires Rising(taken) && AllBelow(taken, x)
    ensures |taken| <= x && (x < |s| <==> x - |taken| < |LeftOf(s, taken)|)
    ensures x < |s| ==> LeftOf(s, taken)[x - |taken|] == s[x]
    ensures x < |s| ==> Without(LeftOf(s, taken), x - |taken|) == LeftOf(s, taken + [x])
  {
    LeftCount(x, taken);
    if x < |s| {
      var l, l', at := Left(0, |s|, taken), Left(0, |s|, taken + [x]), x - |taken|;
      LeftWith(0, x, |s|, taken);
      LeftIsBelow(0, |s|, taken);
      LeftIsBelow(0, |s|, taken + [x]);
      hide Left, Range, Rising, AllBelow;
      assert l[at] == x && l[..at] == Left(0, x, taken) && l[at + 1..] == Range(x + 1, |s|);
      PickWithout(s, l, l', at);
    } else {
      NothingBeyond(|s|, taken, x);
    }
  }

  lemma TakenAt<T>(s: seq<T>, taken: seq<nat>, q: nat)
    requires Rising(taken) && AllBelow(taken, q + |taken|)
    ensures q + |taken| < |s| <==> q < |LeftOf(s, taken)|
    ensures q + |taken| < |s| ==> LeftOf(s, taken)[q] == s[q + |taken|]
    ensures q + |taken| < |s| ==> Without(LeftOf(s, taken), q) == LeftOf(s, taken + [q + |taken|])
  {
    hide *;
    TakenIs(s, taken, q + |taken|);
  }

  lemma PickWithout<T>(s: seq<T>, l: seq<nat>, l': seq<nat>, at: nat)
    requires forall k :: 0 <= k < |l| ==> l[k] < |s|
    requires forall k :: 0 <= k < |l'| ==> l'[k] < |s|
    requires at < |l| && l' == Without(l, at)
    ensures Without(Pick(s, l), at) == Pick(s, l')
  {}

  lemma NothingBeyond(n: nat, taken: seq<nat>, x: nat)
    requires Rising(taken) && AllBelow(taken, x) && n <= x
    ensures |Left(0, n, taken)| <= x - |taken|
  {
    LeftSplits(0, n, x, taken);
    LeftCount(x, taken);
  }

  // ---------- One length ----------

  lemma BlobLengthIs(toks: seq<Token>, i: nat, params: seq<Value>)
    requires TakesParameter(toks, i)
    ensures var q := PlaceholderAt(toks, i);
            BlobLength(toks, i, params)
            == if q >= |params| || ValueToInt64(params[q]).None? then Failed(BadLength)
               else Done((ValueToInt64(params[q]).value, Without(params, q)))
  {
    hide Questions, Argument, Without, ValueToInt64, TriggerLength;
  }

  /** RANDOMBLOB(?) after any number of removals before it: it takes the parameter as many places after its own
      placeholder's as have been removed, and fails if there is none. */
  lemma LengthIsTaken(toks: seq<Token>, i: nat, params: seq<Value>, taken: seq<nat>)
    requires TakesParameter(toks, i) && Rising(taken) && AllBelow(taken, PlaceholderAt(toks, i) + |taken|)
    ensures var x := PlaceholderAt(toks, i) + |taken|;
            BlobLength(toks, i, LeftOf(params, taken))
            == if x >= |params| || ValueToInt64(params[x]).None? then Failed(BadLength)
               else Done((ValueToInt64(params[x]).value, LeftOf(params, taken + [x])))
  {
    assert i < |toks|;
    hide *;
    BlobLengthIs(toks, i, LeftOf(params, taken));
    var q := PlaceholderAt(toks, i);
    TakenAt(params, taken, q);
    TakenCases(params, taken, q, LeftOf(params, taken), BlobLength(toks, i, LeftOf(params, taken)));
  }

  lemma TakenCases(params: seq<Value>, taken: seq<nat>, q: nat, left: seq<Value>, length: Outcome<(int, seq<Value>)>)
    requires length == if q >= |left| || ValueToInt64(left[q]).None? then Failed(BadLength)
                       else Done((ValueToInt64(left[q]).value, Without(left, q)))
    requires q + |taken| < |params| <==> q < |left|
    requires q < |left| ==> left[q] == params[q + |taken|] && Without(left, q) == LeftOf(params, taken + [q + |taken|])
    ensures length == if q + |taken| >= |params| || ValueToInt64(params[q + |taken|]).None? then Failed(BadLength)
                      else Done((ValueToInt64(params[q + |taken|]).value, LeftOf(params, taken + [q + |taken|])))
  {
    hide *;
  }

  // ---------- A pass ----------

  /** How many tokens the turn at a position takes up. */
  function Span(toks: seq<Token>, i: nat, schema: Option<Schema>): (n: nat)
    requires i < |toks|
    ensures 1 <= n <= |toks| - i
  {
    var w := InsertAt(toks, i, schema);
    if w.Rewriting? then w.end else if IsTrigger(toks[i..]) then TriggerLength(toks[i..]) else 1
  }

  predicate TurnTakes(toks: seq<Token>, i: nat, schema: Option<Schema>) {
    TakesParameter(toks, i) && !InsertAt(toks, i, schema).Rewriting?
  }

  /** The numbers of the placeholders that a pass, from here on, takes for lengths. */
  function Asked(toks: seq<Token>, i: nat, schema: Option<Schema>): seq<nat>
    requires i <= |toks|
    decreases |toks| - i
  {
    if i == |toks| then []
    else (if TurnTakes(toks, i, schema) then [PlaceholderAt(toks, i)] else [])
         + Asked(toks, i + Span(toks, i, schema), schema)
  }

  /** The parameters that they get, counted in the whole list: each length is one place further off than the one
      before it. */
  function Shifted(asked: seq<nat>, far: nat): (r: seq<nat>)
    ensures |r| == |asked| && forall k :: 0 <= k < |r| ==> r[k] == asked[k] + far + k
  {
    if asked == [] then [] else [asked[0] + far] + Shifted(asked[1..], far + 1)
  }

  /** The lengths that a pass uses, in order. */
  function Used(toks: seq<Token>, i: nat, clock: Clock, schema: Option<Schema>, env: Env): seq<int>
    requires i <= |toks|
    decreases |toks| - i
  {
    if i == |toks| || Step(toks, i, clock, schema, env).Failed? then []
    else
      var (p, env') := Step(toks, i, clock, schema, env).value;
      (if TurnTakes(toks, i, schema) && BlobLength(toks, i, env.params).Done?
       then [BlobLength(toks, i, env.params).value.0] else [])
      + Used(toks, i + |p.source|, clock, schema, env')
  }

  predicate AreLengths(lengths: seq<int>, params: seq<Value>, places: seq<nat>) {
    && |lengths| == |places|
    && forall k :: 0 <= k < |places| ==>
         places[k] < |params| && ValueToInt64(params[places[k]]) == Some(lengths[k])
  }

  lemma StepSpans(toks: seq<Token>, i: nat, clock: Clock, schema: Option<Schema>, env: Env, p: Piece, env': Env)
    requires i < |toks| && Step(toks, i, clock, schema, env) == Done((p, env'))
    ensures |p.source| == Span(toks, i, schema)
  {}

  /** A turn that takes no length leaves the parameters alone. */
  lemma StepLeavesParams(toks: seq<Token>, i: nat, clock: Clock, schema: Option<Schema>, env: Env, p: Piece, env': Env)
    requires MarksAreTokens(toks) && i < |toks|
    requires Step(toks, i, clock, schema, env) == Done((p, env')) && !TurnTakes(toks, i, schema)
    ensures env'.params == env.params
  {
    if !InsertAt(toks, i, schema).Rewriting? && IsKeyword(toks[i], "RANDOMBLOB") && IsTrigger(toks[i..]) {
      ArgumentIsToken(toks, i);
    }
  }

  lemma ArgumentIsToken(toks: seq<Token>, i: nat)
    requires MarksAreTokens(toks) && i < |toks|
    ensures var arg := Argument(toks[i..]);
            |arg| <= |toks| - i && (arg != [] ==> arg[0] == toks[|toks| - |arg|])
            && (arg != [] && arg[0].text == "?" ==> arg[0] == Token(Punct, "?"))
  {
    var s := toks[i..];
    var group := Solid(s[1..]);
    SolidSuffix(s, 1);
    if group != [] {
      SolidSuffix(group, 1);
      SuffixOfSuffix(Argument(s), group, s);
    }
    assert s == toks[|toks| - |s|..];
    SuffixOfSuffix(Argument(s), s, toks);
  }

  /** A turn that takes a length: the blob is of that length, and the list loses it. */
  lemma StepTakes(toks: seq<Token>, i: nat, clock: Clock, schema: Option<Schema>, env: Env, p: Piece, env': Env)
    requires i < |toks| && Step(toks, i, clock, schema, env) == Done((p, env')) && TurnTakes(toks, i, schema)
    ensures var length := BlobLength(toks, i, env.params);
            && length.Done? && env'.params == length.value.1 && 0 <= length.value.0 <= |env.random|
            && p.emitted == BlobTokens(env.random[..length.value.0])
  {
    KeywordsDiffer(toks[i]);
  }

  /** The placeholder of a length lies within its call. */
  lemma PlaceholderIsWithin(toks: seq<Token>, i: nat)
    requires AllProper(toks) && TakesParameter(toks, i)
    ensures Questions(toks[..i]) <= PlaceholderAt(toks, i) < Questions(toks[..i + TriggerLength(toks[i..])])
  {
    var s := toks[i..];
    var arg := Argument(s);
    KeywordsDiffer(toks[i]);
    ProperSuffix(toks, i);
    ArgumentIsInside(s);
    var at, end := |toks| - |arg|, i + TriggerLength(s);
    assert toks[at] == s[|s| - |arg|] == Token(Punct, "?");
    hide Questions, TriggerLength, Argument, AllProper, IsKeyword;
    QuestionsUpTo(toks, i, at);
    QuestionsOne(toks, at);
    QuestionsUpTo(toks, at + 1, end);
  }

  lemma QuestionsUpTo(toks: seq<Token>, a: nat, b: nat)
    requires a <= b <= |toks|
    ensures Questions(toks[..b]) == Questions(toks[..a]) + Questions(toks[a..b])
  {
    assert toks[..b] == toks[..a] + toks[a..b];
    QuestionsAppend(toks[..a], toks[a..b]);
  }

  lemma QuestionsOne(toks: seq<Token>, n: nat)
    requires n < |toks|
    ensures Questions(toks[..n + 1]) == Questions(toks[..n]) + Questions([toks[n]])
    ensures Questions([toks[n]]) == if toks[n].text == "?" && toks[n].kind == Punct then 1 else 0
  {
    QuestionsUpTo(toks, n, n + 1);
    assert toks[n..n + 1] == [toks[n]] && [toks[n]][1..] == [];
  }

  /** The places taken so far lie before those of the placeholders from `i` on. */
  predicate TakenBefore(toks: seq<Token>, i: nat, taken: seq<nat>)
    requires i <= |toks|
  {
    Rising(taken) && AllBelow(taken, Questions(toks[..i]) + |taken|)
  }

  lemma TakenOn(toks: seq<Token>, i: nat, j: nat, taken: seq<nat>)
    requires i <= j <= |toks| && TakenBefore(toks, i, taken)
    ensures TakenBefore(toks, j, taken)
  {
    QuestionsUpTo(toks, i, j);
  }

  lemma UsedNext(toks: seq<Token>, i: nat, clock: Clock, schema: Option<Schema>, env: Env, p: Piece, env': Env)
    requires i < |toks| && Step(toks, i, clock, schema, env) == Done((p, env')) && i + |p.source| <= |toks|
    requires TurnTakes(toks, i, schema) ==> BlobLength(toks, i, env.params).Done?
    ensures Used(toks, i, clock, schema, env)
            == (if TurnTakes(toks, i, schema) then [BlobLength(toks, i, env.params).value.0] else [])
               + Used(toks, i + |p.source|, clock, schema, env')
  {
    hide Step, TurnTakes, BlobLength;
  }

  lemma AskedNext(toks: seq<Token>, i: nat, schema: Option<Schema>, far: nat)
    requires i < |toks|
    ensures var j := i + Span(toks, i, schema);
            var later := Asked(toks, j, schema);
            && Asked(toks, i, schema)
               == (if TurnTakes(toks, i, schema) then [PlaceholderAt(toks, i)] + later else later)
            && Shifted(Asked(toks, i, schema), far)
               == (if TurnTakes(toks, i, schema) then [PlaceholderAt(toks, i) + far] + Shifted(later, far + 1)
                   else Shifted(later, far))
  {
    hide TurnTakes, Span, PlaceholderAt;
    var later := Asked(toks, i + Span(toks, i, schema), schema);
    assert [] + later == later;
  }

  lemma LengthsNext(length: int, lengths: seq<int>, params: seq<Value>, x: nat, places: seq<nat>)
    requires x < |params| && ValueToInt64(params[x]) == Some(length) && AreLengths(lengths, params, places)
    ensures AreLengths([length] + lengths, params, [x] + places)
  {
    hide ValueToInt64;
  }

  /** The lengths are the parameters at the places, and these are gone from the parameters in the end. */
  predicate Takes(used: seq<int>, last: seq<Value>, params: seq<Value>, taken: seq<nat>, places: seq<nat>) {
    AreLengths(used, params, places) && last == LeftOf(params, taken + places)
  }

  lemma TakesMore(length: int, used: seq<int>, last: seq<Value>, params: seq<Value>, taken: seq<nat>, x: nat,
                  places: seq<nat>)
    requires x < |params| && ValueToInt64(params[x]) == Some(length) && Takes(used, last, params, taken + [x], places)
    ensures Takes([length] + used, last, params, taken, [x] + places)
  {
    hide LeftOf, ValueToInt64;
    LengthsNext(length, used, params, x, places);
    Regroup(taken, x, places);
  }

  lemma Regroup(taken: seq<nat>, x: nat, later: seq<nat>)
    ensures taken + ([x] + later) == taken + [x] + later && |taken + [x]| == |taken| + 1
  {}

  lemma OneMore(toks: seq<Token>, i: nat, clock: Clock, schema: Option<Schema>, env: Env, p: Piece, env': Env,
                last: seq<Value>, params: seq<Value>, taken: seq<nat>)
    requires i < |toks| && Step(toks, i, clock, schema, env) == Done((p, env')) && TurnTakes(toks, i, schema)
    requires |p.source| == Span(toks, i, schema) && BlobLength(toks, i, env.params).Done?
    requires var x := PlaceholderAt(toks, i) + |taken|;
             && x < |params| && ValueToInt64(params[x]) == Some(BlobLength(toks, i, env.params).value.0)
             && var j := i + |p.source|;
                Takes(Used(toks, j, clock, schema, env'), last, params, taken + [x],
                      Shifted(Asked(toks, j, schema), |taken| + 1))
    ensures Takes(Used(toks, i, clock, schema, env), last, params, taken, Shifted(Asked(toks, i, schema), |taken|))
  {
    hide *;
    var j, x := i + |p.source|, PlaceholderAt(toks, i) + |taken|;
    AskedNext(toks, i, schema, |taken|);
    UsedNext(toks, i, clock, schema, env, p, env');
    TakesMore(BlobLength(toks, i, env.params).value.0, Used(toks, j, clock, schema, env'), last, params, taken, x,
              Shifted(Asked(toks, j, schema), |taken| + 1));
  }

  lemma NoneMore(toks: seq<Token>, i: nat, clock: Clock, schema: Option<Schema>, env: Env, p: Piece, env': Env,
                 last: seq<Value>, params: seq<Value>, taken: seq<nat>)
    requires i < |toks| && Step(toks, i, clock, schema, env) == Done((p, env')) && !TurnTakes(toks, i, schema)
    requires |p.source| == Span(toks, i, schema)
    requires var j := i + |p.source|;
             Takes(Used(toks, j, clock, schema, env'), last, params, taken, Shifted(Asked(toks, j, schema), |taken|))
    ensures Takes(Used(toks, i, clock, schema, env), last, params, taken, Shifted(Asked(toks, i, schema), |taken|))
  {
    hide *;
    AskedNext(toks, i, schema, |taken|);
    UsedNext(toks, i, clock, schema, env, p, env');
    var later := Used(toks, i + |p.source|, clock, schema, env');
    assert [] + later == later;
  }

  lemma {:induction false} ShiftedTaken(toks: seq<Token>, i: nat, clock: Clock, schema: Option<Schema>, env: Env, r: Run,
                                        params: seq<Value>, taken: seq<nat>)
    requires AllProper(toks) && MarksAreTokens(toks) && i <= |toks| && TakenBefore(toks, i, taken)
    requires RunFrom(toks, i, clock, schema, env) == Done(r) && env.params == LeftOf(params, taken)
    ensures Takes(Used(toks, i, clock, schema, env), r.env.params, params, taken,
                  Shifted(Asked(toks, i, schema), |taken|))
    decreases |toks| - i
  {
    hide *;
    if i == |toks| {
      NoMoreTaken(toks, clock, schema, env, r, params, taken);
    } else {
      var p, env', rest := RunNext(toks, i, clock, schema, env, r);
      var j := i + |p.source|;
      StepSpans(toks, i, clock, schema, env, p, env');
      if TurnTakes(toks, i, schema) {
        TakesOne(toks, i, clock, schema, env, p, env', params, taken);
        ShiftedTaken(toks, j, clock, schema, env', rest, params, taken + [PlaceholderAt(toks, i) + |taken|]);
        OneMore(toks, i, clock, schema, env, p, env', r.env.params, params, taken);
      } else {
        StepLeavesParams(toks, i, clock, schema, env, p, env');
        TakenOn(toks, i, j, taken);
        ShiftedTaken(toks, j, clock, schema, env', rest, params, taken);
        NoneMore(toks, i, clock, schema, env, p, env', r.env.params, params, taken);
      }
    }
  }

  lemma NoMoreTaken(toks: seq<Token>, clock: Clock, schema: Option<Schema>, env: Env, r: Run, params: seq<Value>,
                    taken: seq<nat>)
    requires RunFrom(toks, |toks|, clock, schema, env) == Done(r) && env.params == LeftOf(params, taken)
    ensures Takes(Used(toks, |toks|, clock, schema, env), r.env.params, params, taken,
                  Shifted(Asked(toks, |toks|, schema), |taken|))
  {
    hide LeftOf;
    assert taken + [] == taken;
  }

  /** Every length of a pass, whatever INSERT it rewrites: the first placeholder takes its own parameter, the second
      the one after its own, and so on; the list loses exactly these. */
  lemma ParamsTaken(toks: seq<Token>, clock: Clock, schema: Option<Schema>, env: Env, r: Run)
    requires AllProper(toks) && MarksAreTokens(toks) && RunFrom(toks, 0, clock, schema, env) == Done(r)
    ensures var places := Shifted(Asked(toks, 0, schema), 0);
            && AreLengths(Used(toks, 0, clock, schema, env), env.params, places)
            && r.env.params == LeftOf(env.params, places)
  {
    var places := Shifted(Asked(toks, 0, schema), 0);
    NothingTaken(env.params);
    ShiftedTaken(toks, 0, clock, schema, env, r, env.params, []);
    assert [] + places == places;
  }

  lemma NothingTaken(params: seq<Value>)
    ensures LeftOf(params, []) == params
  {
    LeftIsRange(0, |params|, []);
  }

  lemma TakesOne(toks: seq<Token>, i: nat, clock: Clock, schema: Option<Schema>, env: Env, p: Piece, env': Env,
                 params: seq<Value>, taken: seq<nat>)
    requires AllProper(toks) && i < |toks| && TakenBefore(toks, i, taken) && TurnTakes(toks, i, schema)
    requires Step(toks, i, clock, schema, env) == Done((p, env')) && env.params == LeftOf(params, taken)
    ensures var x := PlaceholderAt(toks, i) + |taken|;
            && x < |params| && env'.params == LeftOf(params, taken + [x])
            && BlobLength(toks, i, env.params).Done?
            && ValueToInt64(params[x]) == Some(BlobLength(toks, i, env.params).value.0)
            && i + |p.source| <= |toks| && TakenBefore(toks, i + |p.source|, taken + [x])
  {
    hide Step, AllProper, LeftOf, BlobLength, InsertAt;
    StepSpans(toks, i, clock, schema, env, p, env');
    StepTakes(toks, i, clock, schema, env, p, env');
    PlaceholderIsWithin(toks, i);
    LengthIsTaken(toks, i, params, taken);
  }

  // ---------- One length ----------

  /** Neither a rewritten INSERT nor a trigger without placeholders covers a length. */
  lemma SpanStops(toks: seq<Token>, i: nat, k: nat, schema: Option<Schema>)
    requires AllProper(toks) && OnlyLengthAt(toks, k) && InNoDefault(toks, k, schema) && i < k < |toks|
    ensures i + Span(toks, i, schema) <= k
  {
    hide TakesParameter, NoPlaceholderIn, RewriteInsert, TriggerLength, AtStart, AllProper, InNoDefault;
    if InsertAt(toks, i, schema).Rewriting? {
      RewritingEnds(toks, i, k, schema);
    } else if IsTrigger(toks[i..]) {
      OnlyThere(toks, k, i);
      NoneIn(toks, i);
      LengthIsNotCovered(toks, i, k, TriggerLength(toks[i..]));
    }
  }

  /** Only there does a turn take a length. */
  lemma OnlyTaken(toks: seq<Token>, k: nat, i: nat, schema: Option<Schema>)
    requires AllProper(toks) && OnlyLengthAt(toks, k) && i < |toks|
    ensures TurnTakes(toks, i, schema) <==> i == k
  {
    hide AllProper;
    OnlyThere(toks, k, i);
    if i == k {
      LengthIsNoInsert(toks, k, schema);
    } else if TakesParameter(toks, i) {
      QuestionInCall(toks, i);
    }
  }

  lemma LengthIsNoInsert(toks: seq<Token>, k: nat, schema: Option<Schema>)
    requires TakesParameter(toks, k)
    ensures !InsertAt(toks, k, schema).Rewriting?
  {
    KeywordsDiffer(toks[k]);
  }

  lemma {:induction false} OneAsked(toks: seq<Token>, i: nat, k: nat, schema: Option<Schema>)
    requires AllProper(toks) && OnlyLengthAt(toks, k) && InNoDefault(toks, k, schema) && i <= |toks|
    ensures k < |toks| && Asked(toks, i, schema) == if i <= k then [PlaceholderAt(toks, k)] else []
    decreases |toks| - i
  {
    hide *;
    OnlyThere(toks, k, k);
    if i == |toks| {
      NothingAsked(toks, schema);
    } else {
      OneAsked(toks, i + Span(toks, i, schema), k, schema);
      OnlyTaken(toks, k, i, schema);
      AskedNext(toks, i, schema, 0);
      if i < k {
        SpanStops(toks, i, k, schema);
      }
    }
  }

  lemma NothingAsked(toks: seq<Token>, schema: Option<Schema>)
    ensures Asked(toks, |toks|, schema) == []
  {}

  /** A pass that replaces one placeholder, as the length of a RANDOMBLOB, removes exactly its parameter: the others
      stay with their placeholders. */
  lemma OneParamTaken(toks: seq<Token>, i: nat, k: nat, clock: Clock, schema: Option<Schema>, env: Env, r: Run)
    requires AllProper(toks) && MarksAreTokens(toks) && OnlyLengthAt(toks, k) && InNoDefault(toks, k, schema)
    requires i <= k < |toks| && RunFrom(toks, i, clock, schema, env) == Done(r)
    ensures PlaceholderAt(toks, k) < |env.params|
    ensures r.env.params == Without(env.params, PlaceholderAt(toks, k))
  {
    var q := PlaceholderAt(toks, k);
    hide *;
    NoneBefore(toks, i);
    OneAsked(toks, i, k, schema);
    NothingTaken(env.params);
    ShiftedTaken(toks, i, clock, schema, env, r, env.params, []);
    OneTaken(Used(toks, i, clock, schema, env), r.env.params, env.params, q);
  }

  lemma NoneBefore(toks: seq<Token>, i: nat)
    requires i <= |toks|
    ensures TakenBefore(toks, i, [])
  {}

  lemma OneTaken(used: seq<int>, last: seq<Value>, params: seq<Value>, q: nat)
    requires Takes(used, last, params, [], Shifted([q], 0))
    ensures q < |params| && last == Without(params, q)
  {
    assert Shifted([q], 0) == [q] && [q][0] == q && [] + [q] == [q];
    assert Rising([]) && AllBelow([], q);
    hide LeftOf, Without, ValueToInt64;
    NothingTaken(params);
    TakenIs(params, [], q);
  }
}
