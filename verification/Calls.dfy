/** Parentheses and calls in a token sequence, and the calls that the rewriter replaces. */
module Calls {
  import opened Tokenizer

  datatype Option<+T> = None | Some(value: T)

  /** The tokens from the first that is neither space nor comment. */
  function Solid(s: seq<Token>): (r: seq<Token>)
    ensures |r| <= |s|
  {
    if s != [] && IsSkippable(s[0]) then Solid(s[1..]) else s
  }

  lemma {:induction false} SolidIs(s: seq<Token>)
    ensures Solid(s) == s[|s| - |Solid(s)|..]
    ensures Solid(s) != [] ==> !IsSkippable(Solid(s)[0])
    ensures forall k :: 0 <= k < |s| - |Solid(s)| ==> IsSkippable(s[k])
  {
    if s != [] && IsSkippable(s[0]) {
      SolidIs(s[1..]);
    }
  }

  function DepthAfter(t: Token, depth: int): int {
    if t.text == "(" then depth + 1 else if t.text == ")" then depth - 1 else depth
  }

  /** How many tokens there are up to the closing parenthesis that brings the depth to zero. */
  function Closing(s: seq<Token>, depth: int): (r: Option<nat>)
    ensures r.Some? ==> 1 <= r.value <= |s|
  {
    if s == [] then None
    else if s[0].text == ")" && depth == 1 then Some(1)
    else
      var r := Closing(s[1..], DepthAfter(s[0], depth));
      if r.Some? then Some(r.value + 1) else None
  }

  /** The length of the call that begins with the first token: its name, and a group in parentheses. */
  function CallLength(s: seq<Token>): (r: Option<nat>)
    ensures r.Some? ==> 3 <= r.value <= |s|
  {
    if s == [] then None
    else
      var group := Solid(s[1..]);
      if group == [] || group[0].text != "(" then None
      else
        var r := Closing(group[1..], 1);
        if r.Some? then Some(|s| - |group| + 1 + r.value) else None
  }

  function SolidCount(s: seq<Token>): nat {
    if s == [] then 0 else (if IsSkippable(s[0]) then 0 else 1) + SolidCount(s[1..])
  }

  /** Between the name and the closing parenthesis there is only the opening one. */
  predicate EmptyArgs(s: seq<Token>, length: nat)
    requires 2 <= length <= |s|
  {
    SolidCount(s[1..length - 1]) <= 1
  }

  /** Spaces and comments are not parentheses. */
  predicate IsProper(t: Token) {
    IsSkippable(t) ==> t.text != "(" && t.text != ")"
  }

  predicate AllProper(s: seq<Token>) {
    forall k :: 0 <= k < |s| ==> IsProper(s[k])
  }

  lemma {:induction false} TokensAreProper(sql: string, i: nat)
    requires i <= |sql|
    ensures AllProper(TokensFrom(sql, i))
    decreases |sql| - i
  {
    if i < |sql| {
      var j := TokenEnd(sql, i);
      TokensAreProper(sql, j);
      assert sql[i..j][0] == sql[i];
    }
  }

  // ---------- Triggers ----------

  predicate IsClockName(t: Token) {
    IsKeyword(t, "CURRENT_TIMESTAMP") || IsKeyword(t, "CURRENT_DATE") || IsKeyword(t, "CURRENT_TIME")
  }

  predicate IsCallName(t: Token) {
    IsKeyword(t, "NOW") || IsKeyword(t, "RANDOM") || IsKeyword(t, "RANDOMBLOB")
  }

  /** The length of the nondeterministic expression that begins here, or zero: NOW(...), RANDOM(), RANDOMBLOB(...),
      and the clock names. */
  function TriggerLength(s: seq<Token>): (n: nat)
    ensures n <= |s|
  {
    if s == [] then 0
    else if IsClockName(s[0]) then 1
    else if !IsCallName(s[0]) || CallLength(s).None? then 0
    else if IsKeyword(s[0], "RANDOM") && !EmptyArgs(s, CallLength(s).value) then 0
    else CallLength(s).value
  }

  predicate IsTrigger(s: seq<Token>) {
    TriggerLength(s) > 0
  }

  /** No nondeterministic expression anywhere. */
  predicate Clean(s: seq<Token>) {
    s == [] || (!IsTrigger(s) && Clean(s[1..]))
  }

  lemma {:induction false} CleanEverywhere(s: seq<Token>, i: nat)
    requires Clean(s) && i <= |s|
    ensures !IsTrigger(s[i..])
  {
    if i > 0 {
      CleanEverywhere(s[1..], i - 1);
      assert s[1..][i - 1..] == s[i..];
    } else {
      assert s[0..] == s;
    }
  }

  // ---------- What decides about triggers ----------

  predicate Closes(s: seq<Token>, depth: nat) {
    Closing(s, depth).Some?
  }

  predicate OpenHead(s: seq<Token>) {
    Solid(s) != [] && Solid(s)[0].text == "("
  }

  predicate CloseHead(s: seq<Token>) {
    Solid(s) != [] && Solid(s)[0].text == ")"
  }

  /** The tokens after a call's name complete the call. */
  predicate CallOpen(s: seq<Token>) {
    OpenHead(s) && Closes(Solid(s)[1..], 1)
  }

  /** ... and its arguments are empty. */
  predicate EmptyOpen(s: seq<Token>) {
    OpenHead(s) && CloseHead(Solid(s)[1..])
  }

  /** Up to the closing parenthesis of a group whose inside holds nothing solid. */
  lemma {:induction false} EmptyInside(s: seq<Token>, n: nat)
    requires AllProper(s) && Closing(s, 1) == Some(n)
    ensures SolidCount(s[..n - 1]) == 0 <==> CloseHead(s)
  {
    if s[0].text != ")" {
      if IsSkippable(s[0]) {
        EmptyInside(s[1..], n - 1);
      }
      assert s[..n - 1][1..] == s[1..][..n - 2];
    }
  }

  lemma {:induction false} SolidCountSkips(s: seq<Token>, n: nat)
    requires |s| - |Solid(s)| < n <= |s|
    ensures SolidCount(s[..n]) == 1 + SolidCount(Solid(s)[1..][..n - (|s| - |Solid(s)|) - 1])
  {
    if IsSkippable(s[0]) {
      SolidCountSkips(s[1..], n - 1);
      assert s[..n][1..] == s[1..][..n - 1];
    } else {
      assert s[..n][1..] == s[1..][..n - 1];
    }
  }

  /** What makes a trigger, in terms of the tokens after its name. */
  lemma TriggerIs(s: seq<Token>)
    requires s != [] && AllProper(s)
    ensures IsTrigger(s) <==> IsClockName(s[0]) || (IsCallName(s[0]) && CallOpen(s[1..])
                                                    && (IsKeyword(s[0], "RANDOM") ==> EmptyOpen(s[1..])))
  {
    if CallOpen(s[1..]) {
      EmptyArgsIs(s);
    }
  }

  /** The call that begins with the first token ends with its group. */
  lemma CallIs(s: seq<Token>)
    requires s != []
    ensures CallLength(s).Some? <==> CallOpen(s[1..])
    ensures CallOpen(s[1..]) ==>
              CallLength(s).value == |s| - |Solid(s[1..])| + 1 + Closing(Solid(s[1..])[1..], 1).value
  {}

  lemma EmptyArgsIs(s: seq<Token>)
    requires s != [] && AllProper(s) && CallOpen(s[1..])
    ensures CallLength(s).Some? && (EmptyArgs(s, CallLength(s).value) <==> EmptyOpen(s[1..]))
  {
    CallIs(s);
    GroupIsEmpty(s[1..], CallLength(s).value - 2);
    assert s[1..CallLength(s).value - 1] == s[1..][..CallLength(s).value - 2];
  }

  lemma GroupIsEmpty(after: seq<Token>, upTo: nat)
    requires AllProper(after) && CallOpen(after)
    requires upTo == |after| - |Solid(after)| + Closing(Solid(after)[1..], 1).value
    ensures SolidCount(after[..upTo]) <= 1 <==> EmptyOpen(after)
  {
    var inside := Solid(after)[1..];
    var m := Closing(inside, 1).value;
    ProperSuffix(after, |after| - |inside|);
    SolidIs(after);
    assert inside == after[|after| - |inside|..];
    assert SolidCount(inside[..m - 1]) == 0 <==> CloseHead(inside) by {
      EmptyInside(inside, m);
    }
    assert SolidCount(after[..upTo]) == 1 + SolidCount(inside[..m - 1]) by {
      SolidCountSkips(after, upTo);
      assert upTo - (|after| - |Solid(after)|) - 1 == m - 1;
    }
    assert EmptyOpen(after) <==> CloseHead(inside);
  }

  lemma ProperSuffix(s: seq<Token>, i: nat)
    requires AllProper(s) && i <= |s|
    ensures AllProper(s[i..])
  {}

  predicate ClosesAlike(a: seq<Token>, b: seq<Token>, depth: nat) {
    Closes(a, depth) <==> Closes(b, depth)
  }

  /** What `b` may stand for `a` in, so that no trigger appears before it. */
  ghost predicate Similar(a: seq<Token>, b: seq<Token>) {
    && (forall depth :: depth >= 1 ==> ClosesAlike(a, b, depth))
    && (CallOpen(b) ==> CallOpen(a))
    && (EmptyOpen(b) ==> EmptyOpen(a))
    && (CloseHead(b) ==> CloseHead(a))
  }

  lemma ClosesNext(t: Token, a: seq<Token>, depth: nat)
    requires depth >= 1
    ensures Closes([t] + a, depth) <==> (t.text == ")" && depth == 1) || Closes(a, DepthAfter(t, depth))
  {
    assert ([t] + a)[1..] == a;
    if t.text == ")" && depth == 1 {
    } else {
      assert Closing([t] + a, depth).Some? <==> Closing(a, DepthAfter(t, depth)).Some?;
    }
  }

  lemma HeadNext(t: Token, a: seq<Token>)
    requires IsProper(t)
    ensures CallOpen([t] + a) <==> (if IsSkippable(t) then CallOpen(a) else t.text == "(" && Closes(a, 1))
    ensures EmptyOpen([t] + a) <==> (if IsSkippable(t) then EmptyOpen(a) else t.text == "(" && CloseHead(a))
    ensures CloseHead([t] + a) <==> (if IsSkippable(t) then CloseHead(a) else t.text == ")")
  {
    assert ([t] + a)[1..] == a;
  }

  lemma SimilarAfterToken(t: Token, a: seq<Token>, b: seq<Token>)
    requires IsProper(t) && Similar(a, b)
    ensures Similar([t] + a, [t] + b)
  {
    forall depth: nat | depth >= 1 ensures ClosesAlike([t] + a, [t] + b, depth) {
      ClosesNext(t, a, depth);
      ClosesNext(t, b, depth);
      if !(t.text == ")" && depth == 1) {
        assert ClosesAlike(a, b, DepthAfter(t, depth));
      }
    }
    HeadNext(t, a);
    HeadNext(t, b);
    assert ClosesAlike(a, b, 1);
  }

  /** A token copied before similar tokens is no new trigger. */
  lemma NoNewTrigger(t: Token, a: seq<Token>, b: seq<Token>)
    requires AllProper([t] + a) && AllProper([t] + b) && Similar(a, b) && !IsTrigger([t] + a)
    ensures !IsTrigger([t] + b)
  {
    assert ([t] + a)[1..] == a && ([t] + b)[1..] == b;
    TriggerIs([t] + a);
    TriggerIs([t] + b);
  }

  // ---------- Tokens that replace triggers ----------

  /** A token that neither is nor opens, closes or names anything. */
  predicate IsPlain(t: Token) {
    !IsSkippable(t) && t.text != "(" && t.text != ")" && !IsCallName(t) && !IsClockName(t)
  }

  predicate AllPlain(s: seq<Token>) {
    forall k :: 0 <= k < |s| ==> IsPlain(s[k])
  }

  lemma {:induction false} PlainCloses(lit: seq<Token>, b: seq<Token>, depth: nat)
    requires AllPlain(lit)
    ensures Closes(lit + b, depth) <==> Closes(b, depth)
  {
    if lit == [] {
      assert lit + b == b;
    } else {
      assert (lit + b)[1..] == lit[1..] + b;
      PlainCloses(lit[1..], b, depth);
    }
  }

  /** Inside a balanced group every depth returns to where it was. */
  lemma {:induction false} GroupCloses(s: seq<Token>, inner: nat, n: nat, depth: nat)
    requires inner >= 1 && depth >= 1 && Closing(s, inner) == Some(n)
    ensures Closes(s, inner + depth) <==> Closes(s[n..], depth)
  {
    if s[0].text == ")" && inner == 1 {
      assert s[1..] == s[n..];
    } else {
      GroupCloses(s[1..], DepthAfter(s[0], inner), n - 1, depth);
      assert s[1..][n - 1..] == s[n..];
    }
  }

  lemma {:induction false} SolidCloses(s: seq<Token>, depth: nat)
    requires AllProper(s)
    ensures Closes(s, depth) <==> Closes(Solid(s), depth)
  {
    if s != [] && IsSkippable(s[0]) {
      SolidCloses(s[1..], depth);
    }
  }

  lemma TriggerCloses(s: seq<Token>, depth: nat)
    requires AllProper(s) && IsTrigger(s) && depth >= 1
    ensures Closes(s, depth) <==> Closes(s[TriggerLength(s)..], depth)
  {
    NameIsNoParenthesis(s[0]);
    if !IsClockName(s[0]) {
      CallIs(s);
      CallCloses(s[1..], depth);
      var n := TriggerLength(s);
      assert s[1..][n - 1..] == s[n..];
    }
  }

  lemma DropTwice<T>(s: seq<T>, i: nat, j: nat)
    requires i + j <= |s|
    ensures s[i..][j..] == s[i + j..]
  {}

  lemma InsideIs(after: seq<Token>)
    requires OpenHead(after)
    ensures Solid(after)[1..] == after[|after| - |Solid(after)| + 1..]
  {
    SolidIs(after);
    DropTwice(after, |after| - |Solid(after)|, 1);
  }

  lemma OpenCloses(after: seq<Token>, depth: nat)
    requires AllProper(after) && OpenHead(after) && depth >= 1
    ensures Closes(after, depth) <==> Closes(Solid(after)[1..], depth + 1)
  {
    SolidCloses(after, depth);
    ClosesNext(Solid(after)[0], Solid(after)[1..], depth);
    assert [Solid(after)[0]] + Solid(after)[1..] == Solid(after);
  }

  lemma CallCloses(after: seq<Token>, depth: nat)
    requires AllProper(after) && CallOpen(after) && depth >= 1
    ensures var n := |after| - |Solid(after)| + 1 + Closing(Solid(after)[1..], 1).value;
            n <= |after| && (Closes(after, depth) <==> Closes(after[n..], depth))
  {
    var start := |after| - |Solid(after)| + 1;
    var m := Closing(Solid(after)[1..], 1).value;
    OpenCloses(after, depth);
    InsideIs(after);
    GroupCloses(after[start..], 1, m, depth);
    DropTwice(after, start, m);
  }

  lemma NameIsNoParenthesis(t: Token)
    requires IsClockName(t) || IsCallName(t)
    ensures t.text != "(" && t.text != ")"
  {
    assert |t.text| >= 3;
  }

  /** A literal may stand for a trigger. */
  lemma SimilarLiteral(s: seq<Token>, lit: seq<Token>, b: seq<Token>)
    requires AllProper(s) && IsTrigger(s) && Similar(s[TriggerLength(s)..], b)
    requires lit != [] && AllPlain(lit)
    ensures Similar(s, lit + b)
  {
    var rest := s[TriggerLength(s)..];
    forall depth: nat | depth >= 1 ensures ClosesAlike(s, lit + b, depth) {
      TriggerCloses(s, depth);
      PlainCloses(lit, b, depth);
      assert ClosesAlike(rest, b, depth);
    }
    assert (lit + b)[0] == lit[0];
  }

  lemma {:induction false} PlainIsClean(lit: seq<Token>, b: seq<Token>)
    requires AllPlain(lit) && Clean(b)
    ensures Clean(lit + b)
  {
    if lit == [] {
      assert lit + b == b;
    } else {
      assert (lit + b)[1..] == lit[1..] + b;
      PlainIsClean(lit[1..], b);
    }
  }
}
