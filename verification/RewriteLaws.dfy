/**
 What a pass of the rewriter leaves: every token accounted for, nothing nondeterministic, and
 nothing changed where there is nothing to rewrite.
 */
module RewriteLaws {
  import opened Tokenizer
  import opened Calls
  import opened Quoting
  import opened Inserts
  import opened InsertClean
  import opened InsertLaws
  import opened InsertProof
  import opened DefaultLaws
  import opened RewriteRun

  // ---------- Everything is accounted for ----------

  /** A piece is an INSERT rewritten, a trigger replaced by literals, or one token copied. */
  predicate IsPiece(p: Piece, toks: seq<Token>, i: nat, schema: Option<Schema>) {
    && i < |toks| && 1 <= |p.source| <= |toks| - i && p.source == toks[i..i + |p.source|]
    && var w := InsertAt(toks, i, schema);
       if w.Rewriting? then |p.source| == w.end && p.emitted == w.tokens
       else if IsTrigger(toks[i..]) then
         |p.source| == TriggerLength(toks[i..]) && p.emitted != [] && AllPlain(p.emitted)
       else |p.source| == 1 && p.emitted == p.source
  }

  /** The pieces are the tokens in order. */
  predicate ArePieces(pieces: seq<Piece>, toks: seq<Token>, i: nat, schema: Option<Schema>)
    requires i <= |toks|
    decreases |pieces|
  {
    if pieces == [] then i == |toks|
    else IsPiece(pieces[0], toks, i, schema) && ArePieces(pieces[1..], toks, i + |pieces[0].source|, schema)
  }

  lemma LiteralIsPlain(toks: seq<Token>, i: nat, clock: Clock, env: Env)
    requires i < |toks| && Literal(toks, i, clock, env).Done?
    ensures Literal(toks, i, clock, env).value.0 != [] && AllPlain(Literal(toks, i, clock, env).value.0)
  {
    LiteralsArePlain(Int64(if |env.random| >= 8 then env.random[..8] else []), clock.now, []);
    LiteralsArePlain(0, clock.timestamp, []);
    LiteralsArePlain(0, clock.date, []);
    LiteralsArePlain(0, clock.time, []);
    var t := toks[i];
    if !(IsKeyword(t, "NOW") || IsClockName(t) || IsKeyword(t, "RANDOM")) {
      LiteralsArePlain(0, "", env.random[..BlobLength(toks, i, env.params).value.0]);
    }
  }

  /** The first turn of a pass that succeeds, and the rest of the pass. */
  lemma RunNext(toks: seq<Token>, i: nat, clock: Clock, schema: Option<Schema>, env: Env, r: Run)
    returns (p: Piece, env': Env, rest: Run)
    requires i < |toks| && RunFrom(toks, i, clock, schema, env) == Done(r)
    ensures Step(toks, i, clock, schema, env) == Done((p, env')) && 1 <= |p.source| <= |toks| - i
    ensures RunFrom(toks, i + |p.source|, clock, schema, env') == Done(rest)
    ensures r.pieces == [p] + rest.pieces && r.env == rest.env
  {
    hide Step, InsertAt, TriggerLength;
    var step := Step(toks, i, clock, schema, env).value;
    p, env' := step.0, step.1;
    rest := RunFrom(toks, i + |p.source|, clock, schema, env').value;
  }

  lemma StepIsPiece(toks: seq<Token>, i: nat, clock: Clock, schema: Option<Schema>, env: Env, p: Piece, env': Env)
    requires i < |toks| && Step(toks, i, clock, schema, env) == Done((p, env'))
    ensures IsPiece(p, toks, i, schema)
  {
    hide Literal, RewriteInsert, AtStart, TriggerLength;
    if !InsertAt(toks, i, schema).Rewriting? && IsTrigger(toks[i..]) {
      LiteralIsPlain(toks, i, clock, env);
    }
  }

  lemma PiecesNext(p: Piece, rest: seq<Piece>, toks: seq<Token>, i: nat, schema: Option<Schema>)
    requires IsPiece(p, toks, i, schema) && i + |p.source| <= |toks| && ArePieces(rest, toks, i + |p.source|, schema)
    ensures ArePieces([p] + rest, toks, i, schema)
  {
    hide IsPiece;
    assert ([p] + rest)[1..] == rest;
  }

  /** Verbatim: a pass replaces INSERTs and triggers, and copies every other token in order. */
  lemma {:induction false} RunIsVerbatim(toks: seq<Token>, i: nat, clock: Clock, schema: Option<Schema>, env: Env, r: Run)
    requires i <= |toks| && RunFrom(toks, i, clock, schema, env) == Done(r)
    ensures ArePieces(r.pieces, toks, i, schema) && Sources(r.pieces) == toks[i..]
    decreases |toks| - i
  {
    hide Step, IsPiece;
    if i < |toks| {
      var p, env', rest := RunNext(toks, i, clock, schema, env, r);
      hide *;
      StepIsPiece(toks, i, clock, schema, env, p, env');
      RunIsVerbatim(toks, i + |p.source|, clock, schema, env', rest);
      PieceSource(p, toks, i, schema);
      PiecesNext(p, rest.pieces, toks, i, schema);
      FirstPiece(p, rest.pieces, toks, i);
    }
  }

  lemma PieceSource(p: Piece, toks: seq<Token>, i: nat, schema: Option<Schema>)
    requires IsPiece(p, toks, i, schema)
    ensures i + |p.source| <= |toks| && p.source == toks[i..i + |p.source|]
  {}

  lemma FirstPiece(p: Piece, rest: seq<Piece>, toks: seq<Token>, i: nat)
    requires i + |p.source| <= |toks| && p.source == toks[i..i + |p.source|]
    requires Sources(rest) == toks[i + |p.source|..]
    ensures Sources([p] + rest) == toks[i..]
  {
    assert ([p] + rest)[1..] == rest;
  }

  // ---------- No nondeterminism survives ----------

  lemma EmittedNext(p: Piece, rest: seq<Piece>)
    ensures Emitted([p] + rest) == p.emitted + Emitted(rest)
  {
    assert ([p] + rest)[1..] == rest;
  }

  /** No INSERT is rewritten from here on. */
  predicate PastInsert(toks: seq<Token>, i: nat, schema: Option<Schema>)
    requires i <= |toks|
  {
    schema.None? || !AtStart(toks, i)
  }

  lemma PastStays(toks: seq<Token>, i: nat, j: nat, schema: Option<Schema>)
    requires i <= j <= |toks| && PastInsert(toks, i, schema)
    ensures PastInsert(toks, j, schema) && (j < |toks| ==> InsertAt(toks, j, schema) == Pass)
  {}

  /** What is emitted may stand for what it was made from. */
  ghost predicate StandsFor(s: seq<Token>, out: seq<Token>) {
    Similar(s, out) && Clean(out) && AllProper(out)
  }

  lemma NothingStands()
    ensures StandsFor([], [])
  {}

  lemma CopyStands(t: Token, s: seq<Token>, out: seq<Token>)
    requires AllProper([t] + s) && !IsTrigger([t] + s) && StandsFor(s, out)
    ensures StandsFor([t] + s, [t] + out)
  {
    ProperNext(t, s);
    hide Similar, Clean, IsTrigger;
    assert AllProper([t] + out);
    SimilarAfterToken(t, s, out);
    NoNewTrigger(t, s, out);
    CleanNext(t, out);
  }

  lemma LiteralStands(s: seq<Token>, lit: seq<Token>, out: seq<Token>)
    requires AllProper(s) && IsTrigger(s) && lit != [] && AllPlain(lit) && StandsFor(s[TriggerLength(s)..], out)
    ensures StandsFor(s, lit + out)
  {
    hide Similar, Clean, TriggerLength;
    SimilarLiteral(s, lit, out);
    PlainIsClean(lit, out);
  }

  lemma PieceStands(p: Piece, toks: seq<Token>, i: nat, schema: Option<Schema>, out: seq<Token>)
    requires AllProper(toks) && IsPiece(p, toks, i, schema) && InsertAt(toks, i, schema) == Pass
    requires StandsFor(toks[i + |p.source|..], out)
    ensures StandsFor(toks[i..], p.emitted + out)
  {
    var s := toks[i..];
    ProperSuffix(toks, i);
    assert s[|p.source|..] == toks[i + |p.source|..];
    hide StandsFor, TriggerLength;
    if IsTrigger(s) {
      LiteralStands(s, p.emitted, out);
    } else {
      assert s == [toks[i]] + toks[i + 1..] && p.emitted == [toks[i]];
      CopyStands(toks[i], toks[i + 1..], out);
    }
  }

  lemma FirstOf(pieces: seq<Piece>, toks: seq<Token>, i: nat, schema: Option<Schema>)
    returns (p: Piece, rest: seq<Piece>, j: nat)
    requires i <= |toks| && pieces != [] && ArePieces(pieces, toks, i, schema)
    ensures pieces == [p] + rest && IsPiece(p, toks, i, schema) && i < j <= |toks| && j == i + |p.source|
    ensures ArePieces(rest, toks, j, schema)
    ensures Emitted(pieces) == p.emitted + Emitted(rest)
  {
    p, rest, j := pieces[0], pieces[1..], i + |pieces[0].source|;
  }

  lemma NoPieces(pieces: seq<Piece>, toks: seq<Token>, i: nat, schema: Option<Schema>)
    requires i <= |toks| && pieces == [] && ArePieces(pieces, toks, i, schema)
    ensures toks[i..] == [] && Emitted(pieces) == []
  {}

  lemma {:induction false} PiecesStand(pieces: seq<Piece>, toks: seq<Token>, i: nat, schema: Option<Schema>)
    requires AllProper(toks) && i <= |toks| && ArePieces(pieces, toks, i, schema) && PastInsert(toks, i, schema)
    ensures StandsFor(toks[i..], Emitted(pieces))
    decreases |pieces|
  {
    hide *;
    if pieces == [] {
      NoPieces(pieces, toks, i, schema);
      NothingStands();
    } else {
      var p, rest, j := FirstOf(pieces, toks, i, schema);
      PastStays(toks, i, i, schema);
      PastStays(toks, i, j, schema);
      PiecesStand(rest, toks, j, schema);
      PieceStands(p, toks, i, schema, Emitted(rest));
    }
  }

  // ---------- With an INSERT to rewrite ----------

  /** What is asked of the INSERT that a pass may rewrite: no parenthesis and no VALUES before its column list; and,
      in the DEFAULT VALUES form, just what keeps it clean. */
  predicate InsertIsPlain(schema: Schema, s: seq<Token>)
    requires s != []
  {
    && (Accepts(schema, s) ==> HasPlainHead(s))
    && (AcceptsDefault(schema, s) ==> KeepsClean(s, ParseInsert(s).end))
  }

  predicate StartIsPlain(toks: seq<Token>, schema: Option<Schema>) {
    schema.Some? && Solid(toks) != [] ==> InsertIsPlain(schema.value, Solid(toks))
  }

  lemma RewritingIsClean(schema: Schema, s: seq<Token>, out: seq<Token>)
    requires s != [] && AllProper(s) && InsertIsPlain(schema, s) && RewriteInsert(schema, s).Rewriting?
    requires StandsFor(s[RewriteInsert(schema, s).end..], out)
    ensures Clean(RewriteInsert(schema, s).tokens + out)
  {
    hide ParseInsert, Rebuild, RebuildDefault, Similar, Clean, KeepsClean, HasPlainHead, ContainsCall, RowsHave,
      ListColumns;
    if Accepts(schema, s) {
      InsertIsClean(schema, s, out);
    } else {
      DefaultCleanExactly(schema, s, out);
    }
  }

  lemma SkippableIsNoTrigger(t: Token, s: seq<Token>)
    requires IsSkippable(t)
    ensures !IsTrigger([t] + s)
  {}

  /** A piece that is a space or a comment. */
  lemma SkippablePiece(p: Piece, toks: seq<Token>, i: nat, schema: Option<Schema>, out: seq<Token>)
    requires IsPiece(p, toks, i, schema) && IsSkippable(toks[i]) && Clean(out)
    ensures |p.source| == 1 && Clean(p.emitted + out)
  {
    hide Clean, TriggerLength;
    assert toks[i..] == [toks[i]] + toks[i + 1..];
    SkippableIsNoTrigger(toks[i], toks[i + 1..]);
    assert p.emitted == [toks[i]];
    SkippableIsNoTrigger(toks[i], out);
    CleanNext(toks[i], out);
  }

  /** The first solid piece. */
  lemma SolidPiece(p: Piece, toks: seq<Token>, i: nat, schema: Option<Schema>, out: seq<Token>)
    requires AllProper(toks) && StartIsPlain(toks, schema) && IsPiece(p, toks, i, schema)
    requires AtStart(toks, i) && !IsSkippable(toks[i]) && StandsFor(toks[i + |p.source|..], out)
    ensures Clean(p.emitted + out)
  {
    hide Clean, Similar, TriggerLength, RewriteInsert, InsertIsPlain;
    if InsertAt(toks, i, schema).Rewriting? {
      StartIsHere(toks, i);
      ProperSuffix(toks, i);
      assert toks[i..][|p.source|..] == toks[i + |p.source|..];
      RewritingIsClean(schema.value, toks[i..], out);
    } else {
      PieceStands(p, toks, i, schema, out);
    }
  }

  lemma StartIsHere(toks: seq<Token>, i: nat)
    requires i < |toks| && AtStart(toks, i) && !IsSkippable(toks[i])
    ensures Solid(toks) == toks[i..]
  {
    assert toks == toks[..i] + toks[i..];
    SolidSkips(toks[..i], toks[i..]);
  }

  /** Nothing nondeterministic is emitted. */
  lemma {:induction false} PiecesAreClean(pieces: seq<Piece>, toks: seq<Token>, i: nat, schema: Option<Schema>)
    requires AllProper(toks) && StartIsPlain(toks, schema)
    requires i <= |toks| && AtStart(toks, i) && ArePieces(pieces, toks, i, schema)
    ensures Clean(Emitted(pieces))
    decreases |pieces|
  {
    hide *;
    if pieces == [] {
      NoPieces(pieces, toks, i, schema);
      NothingIsClean();
    } else {
      var p, rest, j := FirstOf(pieces, toks, i, schema);
      if IsSkippable(toks[i]) {
        SkippableLength(p, toks, i, schema);
        StartStays(toks, i);
        PiecesAreClean(rest, toks, j, schema);
        SkippablePiece(p, toks, i, schema, Emitted(rest));
      } else {
        StartIsPast(toks, i, j, schema);
        PiecesStand(rest, toks, j, schema);
        SolidPiece(p, toks, i, schema, Emitted(rest));
      }
    }
  }

  lemma NothingIsClean()
    ensures Clean([])
  {}

  lemma StartStays(toks: seq<Token>, i: nat)
    requires i < |toks| && AtStart(toks, i) && IsSkippable(toks[i])
    ensures AtStart(toks, i + 1)
  {}

  lemma StartIsPast(toks: seq<Token>, i: nat, j: nat, schema: Option<Schema>)
    requires i < j <= |toks| && !IsSkippable(toks[i])
    ensures PastInsert(toks, j, schema)
  {}

  lemma SkippableLength(p: Piece, toks: seq<Token>, i: nat, schema: Option<Schema>)
    requires IsPiece(p, toks, i, schema) && IsSkippable(toks[i])
    ensures |p.source| == 1
  {
    assert toks[i..] == [toks[i]] + toks[i + 1..];
    SkippableIsNoTrigger(toks[i], toks[i + 1..]);
  }

  // ---------- Nothing to do ----------

  predicate NothingAt(toks: seq<Token>, i: nat, schema: Option<Schema>) {
    i < |toks| ==> !IsTrigger(toks[i..]) && InsertAt(toks, i, schema) == Pass
  }

  /** Without triggers and without an INSERT to rewrite, the tokens come back. */
  lemma {:induction false} NothingChanges(pieces: seq<Piece>, toks: seq<Token>, i: nat, schema: Option<Schema>)
    requires i <= |toks| && ArePieces(pieces, toks, i, schema) && forall j :: NothingAt(toks, j, schema)
    ensures Emitted(pieces) == toks[i..]
    decreases |pieces|
  {
    hide ArePieces, Emitted, AtStart, TriggerLength, InsertAt;
    if pieces == [] {
      NoPieces(pieces, toks, i, schema);
    } else {
      var p, rest, j := FirstOf(pieces, toks, i, schema);
      assert NothingAt(toks, i, schema);
      NothingChanges(rest, toks, j, schema);
      assert toks[i..] == [toks[i]] + toks[i + 1..];
    }
  }
}
