/**
 What inlined parameters do to the statements of a text: each is the rendering of its own, unless a negative number
 turns the rest of its line into a comment.
 */
module InlinedText {
  import opened Tokenizer
  import opened Quoting
  import opened SqlScan
  import opened Inlining
  import RewriteRun

  // ---------- Negative numbers after a minus sign ----------

  /** There is no end of a line between two places. */
  predicate OnLine(r: string, k: nat, j: nat)
    requires k <= j <= |r|
  {
    forall i :: k <= i < j ==> r[i] != '\n'
  }

  /** A comment begins at `k`: two minus signs, and no end of a statement before the end of the line. */
  predicate CommentFrom(st: Scan, r: string, k: nat) {
    && k + 2 <= |r| && r[k] == '-' && r[k + 1] == '-'
    && forall j :: k <= j < |r| && OnLine(r, k, j) ==> !Marks(st, r)[j]
  }

  /** The state of the scanner before the byte at `n`. */
  function StateAt(st: Scan, s: string, n: nat): Scan
    requires n <= |s|
    decreases n
  {
    if n == 0 then st else StateAt(Advance(st, s), s[1..], n - 1)
  }

  lemma {:induction false} LineHasNoMarks(r: string, j: nat)
    requires j < |r| && OnLine(r, 0, j)
    ensures !Marks(Scan(Line, 0), r)[j]
    decreases j
  {
    if j > 0 {
      assert forall i :: 0 <= i < j - 1 ==> r[1..][i] == r[i + 1];
      LineHasNoMarks(r[1..], j - 1);
    }
  }

  /** A byte that the scanner skips is no minus sign. */
  predicate Settled(st: Scan, s: string) {
    st.skip == 0 || (st.skip == 1 && s != "" && s[0] != '-')
  }

  lemma StaysSettled(st: Scan, s: string)
    requires s != "" && s[0] != '$' && Settled(st, s)
    ensures Settled(Advance(st, s), s[1..])
  {}

  /** Where a negative number follows a minus sign, the scanner enters a line comment. */
  lemma MinusOpens(st: Scan, s: string, params: seq<Bound>, r: string)
    requires Render(st, s, params) == Some(r) && Settled(st, s) && DoublesMinus(st, s, params)
    ensures CommentFrom(st, r, 0) && StateAt(st, r, 1) == Scan(Line, 0) && StartsAfresh(st, r, 0)
  {
    assert r[0..] == r && Marks(st, r)[0..] == Marks(st, r);
    var out := Render(Advance(st, s), s[1..], params).value;
    assert st == START && r == ['-'] + out && r[1..] == out;
    RenderParts(Advance(st, s), s[1..], params, out);
    assert NextIs(r, '-');
    assert StateAt(Advance(st, r), out, 0) == Scan(Line, 0);
    forall j | 0 <= j < |r| && OnLine(r, 0, j) ensures !Marks(st, r)[j] {
      if j > 0 {
        assert forall i :: 0 <= i < j - 1 ==> out[i] == r[i + 1];
        LineHasNoMarks(out, j - 1);
      }
    }
  }

  /** A comment in what follows a stretch without newlines of its own making is one in the whole. */
  lemma CommentLater(st: Scan, head: string, st': Scan, out: string, k: nat)
    requires |Marks(st, head + out)| == |head| + |out|
    requires Marks(st, head + out)[|head|..] == Marks(st', out) && CommentFrom(st', out, k)
    ensures CommentFrom(st, head + out, |head| + k)
  {
    var r, n := head + out, |head|;
    forall j | n + k <= j < |r| && OnLine(r, n + k, j) ensures !Marks(st, r)[j] {
      assert forall i :: k <= i < j - n ==> out[i] == r[i + n];
      assert OnLine(out, k, j - n);
      assert Marks(st, r)[n..][j - n] == Marks(st, r)[j];
    }
  }

  lemma PrefixKept(first: seq<bool>, a: seq<bool>, b: seq<bool>, k: nat)
    requires k <= |a| && k <= |b| && a[..k] == b[..k]
    ensures (first + a)[..|first| + k] == (first + b)[..|first| + k] && (first + a)[|first|..] == a
  {}

  /** Statements end where the marks say up to `k`, and there, outside quotes and comments, a comment begins. */
  predicate CommentAfter(st: Scan, r: string, marks: seq<bool>, k: nat) {
    CommentFrom(st, r, k) && |marks| == |r| && Marks(st, r)[..k] == marks[..k] && StartsAfresh(st, r, k)
  }

  /** From `k` on, statements end as they would if the text began there. */
  predicate StartsAfresh(st: Scan, r: string, k: nat)
    requires k <= |r|
  {
    Marks(st, r)[k..] == Marks(START, r[k..])
  }

  lemma CommentAfterHead(st: Scan, head: string, first: seq<bool>, st': Scan, out: string, marks: seq<bool>, k: nat)
    requires |head| == |first| && Marks(st, head + out) == first + Marks(st', out) && CommentAfter(st', out, marks, k)
    ensures CommentAfter(st, head + out, first + marks, |head| + k)
  {
    assert k <= |out|;
    hide Marks, CommentFrom;
    PrefixKept(first, Marks(st', out), marks, k);
    assert (first + Marks(st', out))[|head| + k..] == Marks(st', out)[k..];
    assert (head + out)[|head| + k..] == out[k..];
    CommentLater(st, head, st', out, k);
  }

  lemma SpreadParts(st: Scan, s: string, params: seq<Bound>, r: string)
    requires Render(st, s, params) == Some(r) && s != ""
    ensures if IsPlaceholder(st, s) then
              var literal, rest := LiteralHere(s, params), s[DigitsEnd(s, 1)..];
              && st == START && Render(START, rest, params).Some?
              && r == literal + Render(START, rest, params).value
              && Spread(st, s, params) == Falses(|literal|) + Spread(START, rest, params)
            else
              && Render(Advance(st, s), s[1..], params).Some?
              && r == [s[0]] + Render(Advance(st, s), s[1..], params).value
              && Spread(st, s, params) == [IsBreak(st, s)] + Spread(Advance(st, s), s[1..], params)
  {}

  /** If the doubled minus sign is not here, it is later. */
  lemma MinusLater(st: Scan, s: string, params: seq<Bound>)
    requires HasNoDollar(s) && Settled(st, s) && !NoMinusDoubled(st, s, params) && !DoublesMinus(st, s, params)
    ensures s != ""
    ensures if IsPlaceholder(st, s) then
              var rest := s[DigitsEnd(s, 1)..];
              st == START && HasNoDollar(rest) && Settled(START, rest) && !NoMinusDoubled(START, rest, params)
            else
              var next := Advance(st, s);
              HasNoDollar(s[1..]) && Settled(next, s[1..]) && !NoMinusDoubled(next, s[1..], params)
  {
    if IsPlaceholder(st, s) {
      PlaceholderPasses(s);
    } else {
      StaysSettled(st, s);
    }
  }

  lemma CommentAfterCopy(st: Scan, s: string, params: seq<Bound>, r: string, k: nat)
    requires Render(st, s, params) == Some(r) && s != "" && !IsPlaceholder(st, s) && AllBound(params)
    requires s[0] != '$' && !DoublesMinus(st, s, params)
    requires var next := Advance(st, s);
             Render(next, s[1..], params).Some?
             && CommentAfter(next, Render(next, s[1..], params).value, Spread(next, s[1..], params), k)
    ensures CommentAfter(st, r, Spread(st, s, params), 1 + k)
  {
    hide *;
    var next, out := Advance(st, s), Render(Advance(st, s), s[1..], params).value;
    SpreadParts(st, s, params, r);
    CopyScans(st, s, params, out);
    CommentAfterHead(st, [s[0]], [IsBreak(st, s)], next, out, Spread(next, s[1..], params), k);
  }

  lemma CommentHere(st: Scan, s: string, params: seq<Bound>, r: string)
    requires Render(st, s, params) == Some(r) && Settled(st, s) && DoublesMinus(st, s, params)
    ensures CommentAfter(st, r, Spread(st, s, params), 0)
  {
    hide Render, Marks, Spread, DoublesMinus, Settled;
    MinusOpens(st, s, params, r);
    SpreadLength(st, s, params, r);
  }

  lemma FirstIsNoDollar(s: string)
    requires HasNoDollar(s) && s != ""
    ensures s[0] != '$'
  {}

  /** A negative number after a minus sign, wherever the text has it: statements end in the rendered text where they
      should up to some place, and from there to the end of the line the rendered text is a comment and none ends. */
  lemma {:induction false} MinusBeginsComment(st: Scan, s: string, params: seq<Bound>, r: string) returns (k: nat)
    requires Render(st, s, params) == Some(r) && AllBound(params) && HasNoDollar(s) && Settled(st, s)
    requires !NoMinusDoubled(st, s, params)
    ensures CommentAfter(st, r, Spread(st, s, params), k)
    decreases |s|
  {
    hide *;
    if DoublesMinus(st, s, params) {
      CommentHere(st, s, params, r);
      k := 0;
    } else {
      MinusLater(st, s, params);
      SpreadParts(st, s, params, r);
      if IsPlaceholder(st, s) {
        PlaceholderSize(s);
        var rest, literal := s[DigitsEnd(s, 1)..], LiteralHere(s, params);
        var out := Render(START, rest, params).value;
        k := MinusBeginsComment(START, rest, params, out);
        LiteralOfPlaceholder(s, params, out);
        CommentAfterHead(START, literal, Falses(|literal|), START, out, Spread(START, rest, params), k);
        k := |literal| + k;
      } else {
        k := MinusBeginsComment(Advance(st, s), s[1..], params, Render(Advance(st, s), s[1..], params).value);
        FirstIsNoDollar(s);
        CommentAfterCopy(st, s, params, r, k);
        k := 1 + k;
      }
    }
  }

  lemma PlaceholderSize(s: string)
    requires IsPlaceholder(START, s)
    ensures |s| >= 2 && IsDigit(s[1]) && DigitsEnd(s, 1) >= 1
  {}

  /** The place just after the next newline, or the end. */
  function LineEnd(r: string, k: nat): (e: nat)
    requires k <= |r|
    ensures k <= e <= |r|
  {
    var n := IndexOf(r, k, '\n');
    if n == |r| then n else n + 1
  }

  lemma {:induction false} CommentScans(t: string)
    ensures ScansTo(Scan(Line, 0), t, LineEnd(t, 0), START, t[LineEnd(t, 0)..])
    decreases |t|
  {
    hide ScansTo;
    if t == "" {
      assert Marks(Scan(Line, 0), t) == [] == Marks(START, t);
      NothingScans(t);
    } else {
      assert t == [t[0]] + t[1..];
      if t[0] == '\n' {
        assert IndexOf(t, 0, '\n') == 0;
        ScansNone(START, t[1..]);
        ScansOne(Scan(Line, 0), t[0], t[1..], 0, START, t[1..]);
      } else {
        CommentScans(t[1..]);
        LineEndNext(t);
        var e := LineEnd(t[1..], 0);
        assert t[1..][e..] == t[e + 1..];
        ScansOne(Scan(Line, 0), t[0], t[1..], e, START, t[1..][e..]);
      }
    }
  }

  lemma NothingScans(t: string)
    requires t == ""
    ensures ScansTo(Scan(Line, 0), t, LineEnd(t, 0), START, t[LineEnd(t, 0)..])
  {}

  lemma LineEndNext(t: string)
    requires t != "" && t[0] != '\n'
    ensures LineEnd(t, 0) == LineEnd(t[1..], 0) + 1
  {
    IndexShifts(t, 1);
  }

  lemma {:induction false} IndexShifts(t: string, j: nat)
    requires 1 <= j <= |t|
    ensures IndexOf(t, j, '\n') == IndexOf(t[1..], j - 1, '\n') + 1
    decreases |t| - j
  {
    if j < |t| && t[j] != '\n' {
      IndexShifts(t, j + 1);
    }
  }

  /** A line comment ends no statement, and after it statements end as in what follows it. */
  lemma LineThen(t: string)
    requires |t| >= 2 && t[0] == '-' && t[1] == '-'
    ensures Marks(START, t) == Falses(LineEnd(t, 0)) + Marks(START, t[LineEnd(t, 0)..])
  {
    assert t == [t[0]] + t[1..] && NextIs(t, '-');
    CommentScans(t[1..]);
    LineEndNext(t);
    var e := LineEnd(t[1..], 0);
    assert t[1..][e..] == t[e + 1..];
    ScansOne(START, t[0], t[1..], e, START, t[1..][e..]);
  }

  /** Whether the cuts survive a negative number after a minus sign: exactly if no statement was to end on the rest of
      the line, and beyond the line statements end as the scanner, beginning there, says. */
  lemma CutsSurviveExactly(st: Scan, s: string, params: seq<Bound>, r: string) returns (k: nat, e: nat)
    requires Render(st, s, params) == Some(r) && AllBound(params) && HasNoDollar(s) && Settled(st, s)
    requires !NoMinusDoubled(st, s, params)
    ensures CommentAfter(st, r, Spread(st, s, params), k) && e == k + LineEnd(r[k..], 0) <= |r|
    ensures Marks(st, r) == Spread(st, s, params)
            <==> (forall j :: k <= j < e ==> !Spread(st, s, params)[j])
                 && Marks(START, r[e..]) == Spread(st, s, params)[e..]
  {
    k := MinusBeginsComment(st, s, params, r);
    e := k + LineEnd(r[k..], 0);
    LineThen(r[k..]);
    assert r[k..][e - k..] == r[e..];
    SplitMarks(Marks(st, r), Spread(st, s, params), k, e - k, Marks(START, r[e..]));
  }

  lemma SplitMarks(marks: seq<bool>, spread: seq<bool>, k: nat, n: nat, rest: seq<bool>)
    requires |marks| == |spread| && k <= |marks| && marks[..k] == spread[..k] && marks[k..] == Falses(n) + rest
    ensures k + n <= |spread|
    ensures marks == spread <==> (forall j :: k <= j < k + n ==> !spread[j]) && rest == spread[k + n..]
  {
    assert marks == marks[..k] + (Falses(n) + rest);
    assert forall j :: k <= j < k + n ==> marks[j] == Falses(n)[j - k];
    assert marks[k + n..] == rest;
    assert spread == spread[..k] + spread[k..k + n] + spread[k + n..];
    if (forall j :: k <= j < k + n ==> !spread[j]) && rest == spread[k + n..] {
      assert spread[k..k + n] == Falses(n);
    }
  }

  lemma LiteralOfPlaceholder(s: string, params: seq<Bound>, out: string)
    requires IsPlaceholder(START, s) && Render(START, s, params).Some? && AllBound(params)
    ensures var literal := LiteralHere(s, params);
            Marks(START, literal + out) == Falses(|literal|) + Marks(START, out)
  {
    RenderParts(START, s, params, Render(START, s, params).value);
    hide Marks, LiteralFor;
    LiteralScans(params[PlaceholderNumber(s) - 1], out);
  }

  lemma {:induction false} SpreadLength(st: Scan, s: string, params: seq<Bound>, r: string)
    requires Render(st, s, params) == Some(r)
    ensures |Spread(st, s, params)| == |r|
    decreases |s|
  {
    if s == "" {
    } else if IsPlaceholder(st, s) {
      RenderParts(st, s, params, r);
      var rest := s[DigitsEnd(s, 1)..];
      SpreadLength(START, rest, params, Render(START, rest, params).value);
    } else {
      SpreadLength(Advance(st, s), s[1..], params, Render(Advance(st, s), s[1..], params).value);
    }
  }

  /** With -2 for its parameter, this statement no longer ends. */
  lemma NegativeAfterMinus()
    ensures Render(START, "-?1;", [IntValue(-2)]) == Some("--2;")
    ensures Count(Marks(START, "-?1;")) == 1 && Count(Marks(START, "--2;")) == 0
  {
    hide *;
    RenderMinus();
    SourceMinus();
    RenderedMinus();
  }

  lemma RenderedMinus()
    ensures Count(Marks(START, "--2;")) == 0
  {
    MarksNext(START, '-', "-2;");
    MarksNext(Scan(Line, 0), '-', "2;");
    MarksNext(Scan(Line, 0), '2', ";");
    MarksNext(Scan(Line, 0), ';', "");
    assert "--2;" == ['-'] + "-2;" && "-2;" == ['-'] + "2;" && "2;" == ['2'] + ";" && ";" == [';'] + "";
    assert Marks(START, "--2;") == [false, false, false, false];
    assert [false, false, false, false] == Falses(4) + [];
    CountFalses(4, []);
  }

  lemma SourceMinus()
    ensures Count(Marks(START, "-?1;")) == 1
  {
    MarksNext(START, '-', "?1;");
    MarksNext(START, '?', "1;");
    MarksNext(START, '1', ";");
    MarksNext(START, ';', "");
    assert "-?1;" == ['-'] + "?1;" && "?1;" == ['?'] + "1;" && "1;" == ['1'] + ";" && ";" == [';'] + "";
    assert Marks(START, "-?1;") == [false, false, false, true];
    assert [false, false, false, true] == Falses(3) + [true];
    CountFalses(3, [true]);
    assert [true][1..] == [];
  }

  lemma RenderMinus()
    ensures Render(START, "-?1;", [IntValue(-2)]) == Some("--2;")
  {
    var s, params := "-?1;", [IntValue(-2)];
    assert s[1..] == "?1;" && "?1;"[2..] == ";" && ";"[1..] == "";
    assert DigitsEnd("?1;", 1) == 2;
    assert "?1;"[1..2] == "1" && "1"[..0] == "";
    assert RewriteRun.DigitsValue("1") == 1;
    assert [';'] + "" == ";";
    assert Render(START, "", params) == Some("");
    assert Render(START, ";", params) == Some(";");
    assert LiteralFor(params[0]) == "-2";
    assert IsPlaceholder(START, "?1;") && PlaceholderNumber("?1;") == 1;
    assert "-2" + ";" == "-2;";
    assert Render(START, "?1;", params) == Some("-2;");
    assert ['-'] + "-2;" == "--2;";
  }

  // ---------- Block comments ----------

  /** The first place after the beginning where the scanner is outside quotes and comments again. */
  predicate ReturnsAt(s: string, e: nat) {
    0 < e <= |s| && StateAt(START, s, e) == START && forall k: nat :: 0 < k < e ==> StateAt(START, s, k) != START
  }

  /** The rewriter's comment token is closed, not ended by the end of the text. */
  predicate TokenCloses(s: string)
    requires s != ""
  {
    TokenEnd(s, 0) >= 4 && ClosesComment(s, TokenEnd(s, 0) - 2)
  }

  lemma {:induction false} StatesCompose(st: Scan, s: string, a: nat, b: nat)
    requires a + b <= |s|
    ensures StateAt(st, s, a + b) == StateAt(StateAt(st, s, a), s[a..], b)
    decreases a
  {
    if a == 0 {
      assert s[0..] == s;
    } else {
      StatesCompose(Advance(st, s), s[1..], a - 1, b);
      assert s[1..][a - 1..] == s[a..];
    }
  }

  /** The scanner stays in a comment that is not closed. */
  lemma {:induction false} StaysInBlock(t: string, n: nat)
    requires n <= |t| && forall k :: 0 <= k < n ==> !ClosesComment(t, k)
    ensures StateAt(Scan(Block, 0), t, n) == Scan(Block, 0)
    decreases n
  {
    if n > 0 {
      assert !ClosesComment(t, 0);
      forall k | 0 <= k < n - 1 ensures !ClosesComment(t[1..], k) {
        assert !ClosesComment(t, k + 1);
      }
      StaysInBlock(t[1..], n - 1);
    }
  }

  lemma InComment(s: string, n: nat)
    requires Starts(s, 0, '/', '*') && 1 <= n <= |s| && forall k :: 1 <= k < n ==> !ClosesComment(s, k)
    ensures StateAt(START, s, n) == Scan(Block, 0)
  {
    forall k | 0 <= k < n - 1 ensures !ClosesComment(s[1..], k) {
      assert !ClosesComment(s, k + 1);
    }
    StaysInBlock(s[1..], n - 1);
  }

  lemma ClosingComment(s: string, c: nat)
    requires Starts(s, 0, '/', '*') && 1 <= c && ClosesComment(s, c) && forall k :: 1 <= k < c ==> !ClosesComment(s, k)
    ensures StateAt(START, s, c + 1) == Scan(Normal, 1) && StateAt(START, s, c + 2) == START
  {
    InComment(s, c);
    StatesCompose(START, s, c, 1);
    StatesCompose(START, s, c, 2);
    var t := s[c..];
    assert NextIs(t, '/') && Advance(Scan(Block, 0), t) == Scan(Normal, 1);
    assert StateAt(Scan(Block, 0), t, 1) == StateAt(Scan(Normal, 1), t[1..], 0);
    assert StateAt(Scan(Block, 0), t, 2) == StateAt(Scan(Normal, 1), t[1..], 1);
    assert StateAt(Scan(Normal, 1), t[1..], 1) == StateAt(START, t[1..][1..], 0);
  }

  /** The scanner leaves a comment at the first star and slash after the slash that opens it. */
  lemma ReturnsExactly(s: string, e: nat)
    requires Starts(s, 0, '/', '*')
    ensures ReturnsAt(s, e) <==> e == BlockEnd(s, 1) && e >= 3 && ClosesComment(s, e - 2)
  {
    var end := BlockEnd(s, 1);
    if end >= 3 && ClosesComment(s, end - 2) {
      ClosingComment(s, end - 2);
      forall k: nat | 0 < k < end ensures StateAt(START, s, k) != START {
        if k < end - 1 { InComment(s, k); }
      }
    } else {
      forall k: nat | 0 < k <= |s| ensures StateAt(START, s, k) != START {
        forall i | 1 <= i < k ensures !ClosesComment(s, i) {
        }
        InComment(s, k);
      }
    }
  }

  /** The scanner and the rewriter's tokenizer end a block comment at the same place exactly if the star that opens it
      does not close it too. */
  lemma CommentEndsAgree(s: string)
    requires Starts(s, 0, '/', '*')
    ensures (forall e: nat :: ReturnsAt(s, e) <==> e == TokenEnd(s, 0) && TokenCloses(s)) <==> !Starts(s, 1, '*', '/')
  {
    forall e: nat ensures ReturnsAt(s, e) <==> e == BlockEnd(s, 1) && e >= 3 && ClosesComment(s, e - 2) {
      ReturnsExactly(s, e);
    }
    assert TokenEnd(s, 0) == BlockEnd(s, 2);
    if Starts(s, 1, '*', '/') {
      assert ClosesComment(s, 1) && BlockEnd(s, 1) == 3;
      assert ReturnsAt(s, 3);
    } else {
      assert !ClosesComment(s, 1) && BlockEnd(s, 1) == BlockEnd(s, 2);
    }
  }

  // ---------- The statements of the rendered text ----------

  /** The text between the marks. */
  function Pieces(s: string, marks: seq<bool>): (p: seq<string>)
    requires |marks| == |s|
    ensures |p| >= 1
    decreases |s|
  {
    if s == "" then [""]
    else
      var rest := Pieces(s[1..], marks[1..]);
      if marks[0] then [""] + rest else [[s[0]] + rest[0]] + rest[1..]
  }

  lemma PiecesNext(c: char, s: string, mark: bool, marks: seq<bool>)
    requires |marks| == |s|
    ensures var rest := Pieces(s, marks);
            Pieces([c] + s, [mark] + marks) == if mark then [""] + rest else [[c] + rest[0]] + rest[1..]
  {
    assert ([c] + s)[1..] == s && ([mark] + marks)[1..] == marks;
  }

  lemma Headed(head: string, s: string)
    requires head != ""
    ensures head + s == [head[0]] + (head[1..] + s)
  {}

  lemma FalsesHeaded(n: nat, marks: seq<bool>)
    requires n > 0
    ensures Falses(n) + marks == [false] + (Falses(n - 1) + marks)
  {}

  lemma NoHead(p: seq<string>)
    requires p != []
    ensures ["" + p[0]] + p[1..] == p
  {
    assert "" + p[0] == p[0];
  }

  /** Text without marks belongs to the first piece. */
  lemma {:induction false} PiecesLater(head: string, s: string, marks: seq<bool>)
    requires |marks| == |s|
    ensures var rest := Pieces(s, marks);
            Pieces(head + s, Falses(|head|) + marks) == [head + rest[0]] + rest[1..]
    decreases |head|
  {
    hide Pieces, Falses;
    var rest := Pieces(s, marks);
    if head == "" {
      assert head + s == s && Falses(0) + marks == marks by { assert Falses(0) == []; }
      NoHead(rest);
    } else {
      PiecesLater(head[1..], s, marks);
      PiecesNext(head[0], head[1..] + s, false, Falses(|head| - 1) + marks);
      Headed(head, s);
      FalsesHeaded(|head|, marks);
      Headed(head, rest[0]);
    }
  }

  /** A beginning of the text, up to a semicolon or the end. */
  predicate IsFirstPiece(p: string, s: string) {
    |p| <= |s| && p == s[..|p|] && (|p| < |s| ==> s[|p|] == ';')
  }

  lemma {:induction false} FirstPiece(st: Scan, s: string)
    ensures IsFirstPiece(Pieces(s, Marks(st, s))[0], s)
    decreases |s|
  {
    if s != "" {
      FirstPiece(Advance(st, s), s[1..]);
      assert Marks(st, s)[1..] == Marks(Advance(st, s), s[1..]);
    }
  }

  lemma {:induction false} PiecesHaveNoDollar(s: string, marks: seq<bool>)
    requires |marks| == |s| && HasNoDollar(s)
    ensures forall k :: 0 <= k < |Pieces(s, marks)| ==> HasNoDollar(Pieces(s, marks)[k])
    decreases |s|
  {
    if s != "" {
      PiecesHaveNoDollar(s[1..], marks[1..]);
    }
  }

  /** At the end of a piece the scanner sees the same as in the text. */
  lemma SameInPiece(st: Scan, c: char, s: string, p: string)
    requires IsFirstPiece(p, s) && c != '$'
    ensures Advance(st, [c] + p) == Advance(st, [c] + s)
    ensures IsPlaceholder(st, [c] + p) == IsPlaceholder(st, [c] + s)
  {
    assert SameNext(c, s, p);
    SameAdvance(st, c, s, p);
  }

  /** The digits of a placeholder end where its piece does, or before. */
  lemma {:induction false} DigitsInPiece(head: string, s: string, p: string, j: nat)
    requires IsFirstPiece(p, s) && 1 <= j <= |head| && DigitsEnd(head + s, j) == |head|
    ensures DigitsEnd(head + p, j) == |head|
    decreases |head| - j
  {
    if j < |head| {
      assert (head + s)[j] == head[j] == (head + p)[j];
      DigitsInPiece(head, s, p, j + 1);
    } else if p != "" {
      assert (head + s)[j] == p[0] == (head + p)[j];
    }
  }

  lemma RenderedCopy(st: Scan, c: char, s: string, p: string, params: seq<Bound>, q: string)
    requires IsFirstPiece(p, s) && c != '$' && !IsPlaceholder(st, [c] + s)
    requires Render(Advance(st, [c] + s), p, params) == Some(q)
    ensures Render(st, [c] + p, params) == Some([c] + q)
  {
    SameInPiece(st, c, s, p);
    assert ([c] + p)[1..] == p;
  }

  lemma RenderedLiteral(head: string, s: string, p: string, params: seq<Bound>, q: string)
    requires IsFirstPiece(p, s) && IsPlaceholder(START, head + s) && DigitsEnd(head + s, 1) == |head| >= 2
    requires 1 <= PlaceholderNumber(head + s) <= |params| && Render(START, p, params) == Some(q)
    ensures Render(START, head + p, params) == Some(LiteralHere(head + s, params) + q)
  {
    hide *;
    PlaceholderInPiece(head, s, p);
    LiteralHereIs(head + s, params);
    RenderPlaceholder(head + p, params, q);
  }

  lemma LiteralHereIs(s: string, params: seq<Bound>)
    requires IsPlaceholder(START, s) && 1 <= PlaceholderNumber(s) <= |params|
    ensures LiteralHere(s, params) == LiteralFor(params[PlaceholderNumber(s) - 1])
  {}

  lemma RenderPlaceholder(t: string, params: seq<Bound>, out: string)
    requires IsPlaceholder(START, t) && 1 <= PlaceholderNumber(t) <= |params|
    requires Render(START, t[DigitsEnd(t, 1)..], params) == Some(out)
    ensures Render(START, t, params) == Some(LiteralFor(params[PlaceholderNumber(t) - 1]) + out)
  {
    hide LiteralFor, PlaceholderNumber, DigitsEnd, IsPlaceholder;
  }

  lemma PlaceholderInPiece(head: string, s: string, p: string)
    requires IsFirstPiece(p, s) && IsPlaceholder(START, head + s) && DigitsEnd(head + s, 1) == |head| >= 2
    ensures IsPlaceholder(START, head + p) && DigitsEnd(head + p, 1) == |head|
    ensures PlaceholderNumber(head + p) == PlaceholderNumber(head + s) && (head + p)[|head|..] == p
  {
    DigitsInPiece(head, s, p, 1);
    assert (head + s)[1..|head|] == head[1..] == (head + p)[1..|head|];
    assert (head + p)[0] == head[0] == (head + s)[0] && (head + p)[1] == head[1] == (head + s)[1];
  }

  predicate AllRendered(ps: seq<string>, params: seq<Bound>, qs: seq<string>) {
    |ps| == |qs| && forall k :: 0 <= k < |ps| ==> Render(START, ps[k], params) == Some(qs[k])
  }

  /** Pieces and their renderings, the first from a state in the middle. */
  predicate PiecesMatch(st: Scan, ps: seq<string>, params: seq<Bound>, qs: seq<string>) {
    ps != [] && qs != [] && Render(st, ps[0], params) == Some(qs[0]) && AllRendered(ps[1..], params, qs[1..])
  }

  lemma MatchAfterBreak(ps: seq<string>, params: seq<Bound>, qs: seq<string>)
    requires PiecesMatch(START, ps, params, qs)
    ensures PiecesMatch(START, [""] + ps, params, [""] + qs)
  {
    assert ([""] + ps)[1..] == ps && ([""] + qs)[1..] == qs;
    assert forall k :: 0 < k < |ps| ==> ps[k] == ps[1..][k - 1] && qs[k] == qs[1..][k - 1];
  }

  lemma MatchAfterHead(st: Scan, head: string, ps: seq<string>, params: seq<Bound>, more: string, qs: seq<string>)
    requires ps != [] && qs != [] && AllRendered(ps[1..], params, qs[1..])
    requires Render(st, head + ps[0], params) == Some(more + qs[0])
    ensures PiecesMatch(st, [head + ps[0]] + ps[1..], params, [more + qs[0]] + qs[1..])
  {
    assert ([head + ps[0]] + ps[1..])[1..] == ps[1..] && ([more + qs[0]] + qs[1..])[1..] == qs[1..];
  }

  /** What the spread marks cut from the rendered text is, piece by piece, the rendering of what the marks cut from
      the text. */
  lemma {:induction false} PiecesRendered(st: Scan, s: string, params: seq<Bound>, r: string)
    requires Render(st, s, params) == Some(r) && HasNoDollar(s)
    ensures |Spread(st, s, params)| == |r|
    ensures PiecesMatch(st, Pieces(s, Marks(st, s)), params, Pieces(r, Spread(st, s, params)))
    decreases |s|
  {
    SpreadLength(st, s, params, r);
    if s == "" {
    } else if IsPlaceholder(st, s) {
      RenderParts(st, s, params, r);
      var rest := s[DigitsEnd(s, 1)..];
      PiecesRendered(START, rest, params, Render(START, rest, params).value);
      PiecesOfPlaceholder(s, params, r);
    } else {
      PiecesRendered(Advance(st, s), s[1..], params, Render(Advance(st, s), s[1..], params).value);
      PiecesOfCopy(st, s, params, r);
    }
  }

  lemma PiecesOfCopy(st: Scan, s: string, params: seq<Bound>, r: string)
    requires Render(st, s, params) == Some(r) && HasNoDollar(s) && s != "" && !IsPlaceholder(st, s)
    requires |Spread(st, s, params)| == |r|
    requires var next, out := Advance(st, s), Render(Advance(st, s), s[1..], params).value;
             && |Spread(next, s[1..], params)| == |out|
             && PiecesMatch(next, Pieces(s[1..], Marks(next, s[1..])), params, Pieces(out, Spread(next, s[1..], params)))
    ensures PiecesMatch(st, Pieces(s, Marks(st, s)), params, Pieces(r, Spread(st, s, params)))
  {
    var next, rest := Advance(st, s), s[1..];
    var out := Render(next, rest, params).value;
    var ps, qs := Pieces(rest, Marks(next, rest)), Pieces(out, Spread(next, rest, params));
    assert s == [s[0]] + rest && r == [s[0]] + out;
    assert Spread(st, s, params) == [IsBreak(st, s)] + Spread(next, rest, params);
    assert Marks(st, s) == [IsBreak(st, s)] + Marks(next, rest);
    assert IsBreak(st, s) ==> st == START && next == START;
    FirstPiece(next, rest);
    hide Render, Marks, Spread, Advance, IsBreak, Pieces, IsPlaceholder;
    PiecesNext(s[0], rest, IsBreak(st, s), Marks(next, rest));
    PiecesNext(s[0], out, IsBreak(st, s), Spread(next, rest, params));
    if IsBreak(st, s) {
      MatchAfterBreak(ps, params, qs);
    } else {
      RenderedCopy(st, s[0], rest, ps[0], params, qs[0]);
      MatchAfterHead(st, [s[0]], ps, params, [s[0]], qs);
    }
  }

  lemma PiecesOfPlaceholder(s: string, params: seq<Bound>, r: string)
    requires Render(START, s, params) == Some(r) && HasNoDollar(s) && IsPlaceholder(START, s)
    requires |Spread(START, s, params)| == |r| && Render(START, s[DigitsEnd(s, 1)..], params).Some?
    requires var rest := s[DigitsEnd(s, 1)..];
             var out := Render(START, rest, params).value;
             && |Spread(START, rest, params)| == |out|
             && PiecesMatch(START, Pieces(rest, Marks(START, rest)), params, Pieces(out, Spread(START, rest, params)))
    ensures PiecesMatch(START, Pieces(s, Marks(START, s)), params, Pieces(r, Spread(START, s, params)))
  {
    RenderParts(START, s, params, r);
    PlaceholderPasses(s);
    var j := DigitsEnd(s, 1);
    var rest, literal := s[j..], LiteralHere(s, params);
    var out := Render(START, rest, params).value;
    var ps, qs := Pieces(rest, Marks(START, rest)), Pieces(out, Spread(START, rest, params));
    assert s == s[..j] + rest && r == literal + out;
    assert Spread(START, s, params) == Falses(|literal|) + Spread(START, rest, params);
    FirstPiece(START, rest);
    hide Render, Marks, Spread, Pieces, LiteralHere;
    PiecesLater(s[..j], rest, Marks(START, rest));
    PiecesLater(literal, out, Spread(START, rest, params));
    RenderedLiteral(s[..j], rest, ps[0], params, qs[0]);
    MatchAfterHead(START, s[..j], ps, params, literal, qs);
  }

  // ---------- Trimming ----------

  function Kept(pieces: seq<string>): seq<string> {
    if pieces == [] then [] else Add([], pieces[0]) + Kept(pieces[1..])
  }

  lemma KeptAfter(out: seq<string>, piece: string, rest: seq<string>)
    ensures Add(out, piece) + Kept(rest) == out + Kept([piece] + rest)
  {
    assert ([piece] + rest)[1..] == rest;
    assert out + (Add([], piece) + Kept(rest)) == Add(out, piece) + Kept(rest);
  }

  /** Splitting keeps the pieces that are not blank, trimmed. */
  lemma {:induction false} CutIs(sql: string, marks: seq<bool>, start: nat, i: nat, out: seq<string>)
    requires start <= i <= |sql| == |marks|
    ensures var ps := Pieces(sql[i..], marks[i..]);
            Cut(sql, marks, start, i, out) == out + Kept([sql[start..i] + ps[0]] + ps[1..])
    decreases |sql| - i
  {
    hide Kept, Add;
    var ps := Pieces(sql[i..], marks[i..]);
    if i == |sql| {
      assert ps == [""] && sql[start..i] + "" == sql[start..] && ps[1..] == [];
      KeptAfter(out, sql[start..], []);
      KeptNothing();
      assert Add(out, sql[start..]) + [] == Add(out, sql[start..]);
    } else {
      var rest := Pieces(sql[i + 1..], marks[i + 1..]);
      assert sql[i..] == [sql[i]] + sql[i + 1..] && marks[i..] == [marks[i]] + marks[i + 1..];
      PiecesNext(sql[i], sql[i + 1..], marks[i], marks[i + 1..]);
      if marks[i] {
        CutIs(sql, marks, i + 1, i + 1, Add(out, sql[start..i]));
        assert sql[i + 1..i + 1] + rest[0] == rest[0] && [rest[0]] + rest[1..] == rest;
        assert sql[start..i] + "" == sql[start..i] && ps[1..] == rest;
        KeptAfter(out, sql[start..i], rest);
      } else {
        CutIs(sql, marks, start, i + 1, out);
        assert sql[start..i] + ([sql[i]] + rest[0]) == sql[start..i + 1] + rest[0];
      }
    }
  }

  lemma KeptNothing()
    ensures Kept([]) == []
  {}

  lemma StatementsAre(sql: string)
    ensures Statements(sql) == Kept(Pieces(sql, Marks(START, sql)))
  {
    var marks := Marks(START, sql);
    CutIs(sql, marks, 0, 0, []);
    assert sql[0..] == sql && marks[0..] == marks;
    var ps := Pieces(sql, marks);
    assert sql[0..0] + ps[0] == ps[0] && [ps[0]] + ps[1..] == ps;
  }

  /** The text of a number neither begins nor ends with a blank. */
  predicate HasFirmNumbers(params: seq<Bound>) {
    forall k :: 0 <= k < |params| && params[k].FloatValue? && params[k].text != ""
                ==> !IsBlank(params[k].text[0]) && !IsBlank(params[k].text[|params[k].text| - 1])
  }

  lemma LiteralIsFirm(params: seq<Bound>, k: nat)
    requires AllBound(params) && HasFirmNumbers(params) && k < |params|
    ensures var t := LiteralFor(params[k]);
            t != "" && !IsBlank(t[0]) && !IsBlank(t[|t| - 1])
  {
    var v := params[k];
    if v.IntValue? {
      DecimalIsNumber(v.i);
      var d := Digits(if v.i < 0 then -v.i else v.i);
      assert '0' <= d[0] <= '9' && '0' <= d[|d| - 1] <= '9';
    }
  }

  function Ended(r: Option<string>, b: char): Option<string> {
    if r.Some? then Some(r.value + [b]) else None
  }

  /** A blank at the end is rendered as it is. */
  lemma {:induction false} BlankLast(st: Scan, p: string, b: char, params: seq<Bound>)
    requires IsBlank(b) && HasNoDollar(p)
    ensures Render(st, p + [b], params) == Ended(Render(st, p, params), b)
    decreases |p|
  {
    if p == "" {
      assert p + [b] == [b] && [b][1..] == "" && [b] + "" == [b] && "" + [b] == [b];
    } else if IsPlaceholder(st, p) {
      BlankLast(START, p[DigitsEnd(p, 1)..], b, params);
      BlankAfterLiteral(p, b, params);
    } else {
      BlankLast(Advance(st, p), p[1..], b, params);
      BlankAfterCopy(st, p, b, params);
    }
  }

  lemma PlaceholderBeforeBlank(p: string, b: char)
    requires IsBlank(b) && IsPlaceholder(START, p)
    ensures var all, j := p + [b], DigitsEnd(p, 1);
            && IsPlaceholder(START, all) && DigitsEnd(all, 1) == j && PlaceholderNumber(all) == PlaceholderNumber(p)
            && all[j..] == p[j..] + [b]
  {
    var all, j := p + [b], DigitsEnd(p, 1);
    DigitsBeforeBlank(p, b, 1);
    assert all[1..j] == p[1..j] && all[0] == p[0] && all[1] == p[1];
  }

  lemma BlankAfterLiteral(p: string, b: char, params: seq<Bound>)
    requires IsBlank(b) && IsPlaceholder(START, p)
    requires var rest := p[DigitsEnd(p, 1)..]; Render(START, rest + [b], params) == Ended(Render(START, rest, params), b)
    ensures Render(START, p + [b], params) == Ended(Render(START, p, params), b)
  {
    PlaceholderBeforeBlank(p, b);
    hide IsPlaceholder, PlaceholderNumber, DigitsEnd, LiteralFor, Advance, IsBlank;
    var rest, n := Render(START, p[DigitsEnd(p, 1)..], params), PlaceholderNumber(p);
    if 1 <= n <= |params| && rest.Some? {
      var literal := LiteralFor(params[n - 1]);
      assert literal + (rest.value + [b]) == literal + rest.value + [b];
    }
  }

  lemma BlankAfterCopy(st: Scan, p: string, b: char, params: seq<Bound>)
    requires IsBlank(b) && p != "" && p[0] != '$' && !IsPlaceholder(st, p)
    requires var next := Advance(st, p);
             Render(next, p[1..] + [b], params) == Ended(Render(next, p[1..], params), b)
    ensures Render(st, p + [b], params) == Ended(Render(st, p, params), b)
  {
    var all := p + [b];
    assert all == [p[0]] + (p[1..] + [b]) && p == [p[0]] + p[1..] && all[1..] == p[1..] + [b];
    assert SameNext(p[0], p[1..], p[1..] + [b]);
    SameAdvance(st, p[0], p[1..], p[1..] + [b]);
    assert !IsPlaceholder(st, all);
    hide IsPlaceholder, Advance;
    if Render(st, p, params).Some? {
      var out := Render(Advance(st, p), p[1..], params).value;
      assert [p[0]] + (out + [b]) == [p[0]] + out + [b];
    }
  }

  lemma {:induction false} DigitsBeforeBlank(p: string, b: char, j: nat)
    requires IsBlank(b) && j <= |p|
    ensures DigitsEnd(p + [b], j) == DigitsEnd(p, j)
    decreases |p| - j
  {
    if j < |p| && IsDigit(p[j]) {
      DigitsBeforeBlank(p, b, j + 1);
    }
  }

  predicate IsFirm(t: string) {
    t != "" && !IsBlank(t[|t| - 1])
  }

  /** A firm text is rendered from a firm first part, or from a first part and a firm rest. */
  lemma FirmParts(st: Scan, p: string, params: seq<Bound>, q: string)
    returns (first: string, next: Scan, rest: string, out: string)
    requires Render(st, p, params) == Some(q) && AllBound(params) && HasFirmNumbers(params) && IsFirm(p)
    ensures q == first + out && Render(next, rest, params) == Some(out) && |rest| < |p|
    ensures if rest == "" then out == "" && IsFirm(first) else IsFirm(rest)
  {
    SpreadParts(st, p, params, q);
    if IsPlaceholder(st, p) {
      RenderParts(st, p, params, q);
      LiteralIsFirm(params, PlaceholderNumber(p) - 1);
      first, next, rest := LiteralHere(p, params), START, p[DigitsEnd(p, 1)..];
    } else {
      first, next, rest := [p[0]], Advance(st, p), p[1..];
    }
    out := Render(next, rest, params).value;
    EmptyRendered(next, rest, params, out);
  }

  /** A text that ends with no blank is rendered to one that ends with none. */
  lemma {:induction false} FirmLast(st: Scan, p: string, params: seq<Bound>, q: string)
    requires Render(st, p, params) == Some(q) && AllBound(params) && HasFirmNumbers(params) && IsFirm(p)
    ensures IsFirm(q)
    decreases |p|
  {
    hide Render, AllBound, HasFirmNumbers, IsBlank;
    var first, next, rest, out := FirmParts(st, p, params, q);
    if rest != "" {
      FirmLast(next, rest, params, out);
    } else {
      assert first + "" == first;
    }
  }

  lemma {:induction false} TrimRightRendered(p: string, params: seq<Bound>, q: string)
    requires Render(START, p, params) == Some(q) && AllBound(params) && HasFirmNumbers(params) && HasNoDollar(p)
    ensures Render(START, TrimRight(p), params) == Some(TrimRight(q))
    decreases |p|
  {
    if p != "" && IsBlank(p[|p| - 1]) {
      var short, b := p[..|p| - 1], p[|p| - 1];
      assert p == short + [b];
      BlankLast(START, short, b, params);
      var out := Render(START, short, params).value;
      assert q == out + [b] && q[..|q| - 1] == out;
      TrimRightRendered(short, params, out);
    } else if p != "" {
      FirmLast(START, p, params, q);
    }
  }

  lemma {:induction false} TrimLeftRendered(p: string, params: seq<Bound>, q: string)
    requires Render(START, p, params) == Some(q) && AllBound(params) && HasFirmNumbers(params)
    ensures Render(START, TrimLeft(p), params) == Some(TrimLeft(q))
    decreases |p|
  {
    if p != "" && IsBlank(p[0]) {
      var out := Render(START, p[1..], params).value;
      assert Advance(START, p) == START && q == [p[0]] + out && q[1..] == out;
      TrimLeftRendered(p[1..], params, out);
    } else if IsPlaceholder(START, p) {
      RenderParts(START, p, params, q);
      LiteralIsFirm(params, PlaceholderNumber(p) - 1);
    } else {
      RenderHead(START, p, params, q);
    }
  }

  lemma {:induction false} TrimmedHasNoDollar(p: string)
    requires HasNoDollar(p)
    ensures HasNoDollar(TrimLeft(p))
    decreases |p|
  {
    if p != "" && IsBlank(p[0]) {
      TrimmedHasNoDollar(p[1..]);
    }
  }

  lemma EmptyRendered(st: Scan, p: string, params: seq<Bound>, q: string)
    requires Render(st, p, params) == Some(q) && AllBound(params)
    ensures p == "" <==> q == ""
  {
    if IsPlaceholder(st, p) {
      RenderParts(st, p, params, q);
      LiteralHead(params[PlaceholderNumber(p) - 1]);
    } else {
      RenderHead(st, p, params, q);
    }
  }

  lemma {:induction false} KeptRendered(ps: seq<string>, params: seq<Bound>, qs: seq<string>)
    requires AllRendered(ps, params, qs) && AllBound(params) && HasFirmNumbers(params)
    requires forall k :: 0 <= k < |ps| ==> HasNoDollar(ps[k])
    ensures AllRendered(Kept(ps), params, Kept(qs))
    decreases |ps|
  {
    if ps != [] {
      KeptRendered(ps[1..], params, qs[1..]);
      var p, q := ps[0], qs[0];
      TrimLeftRendered(p, params, q);
      TrimmedHasNoDollar(p);
      TrimRightRendered(TrimLeft(p), params, TrimLeft(q));
      EmptyRendered(START, Trim(p), params, Trim(q));
    }
  }

  /** Each statement of the rendered text is the rendering of the statement of the text in its place. */
  lemma StatementsRendered(sql: string, params: seq<Bound>, r: string)
    requires Render(START, sql, params) == Some(r) && AllBound(params) && HasFirmNumbers(params)
    requires HasNoDollar(sql) && NoMinusDoubled(START, sql, params)
    ensures AllRendered(Statements(sql), params, Statements(r))
  {
    hide Render, NoMinusDoubled, Statements, Kept;
    var ps, qs := Pieces(sql, Marks(START, sql)), Pieces(r, Marks(START, r));
    InliningKeepsCuts(START, sql, params, r);
    PiecesRendered(START, sql, params, r);
    PiecesHaveNoDollar(sql, Marks(START, sql));
    forall k | 0 <= k < |ps| ensures Render(START, ps[k], params) == Some(qs[k]) {
      if k > 0 {
        assert ps[k] == ps[1..][k - 1] && qs[k] == qs[1..][k - 1];
      }
    }
    KeptRendered(ps, params, qs);
    StatementsAre(sql);
    StatementsAre(r);
  }
}
