/** Parameters written into the text of a statement, as the buffered statements of a transaction need. */
module Inlining {
  import opened Tokenizer
  import opened Quoting
  import opened SqlScan
  import RewriteRun

  /** A bound value; a floating-point number is given as its text. */
  datatype Bound = NullValue | IntValue(i: int) | FloatValue(text: string) | BoolValue(b: bool)
                 | BytesValue(bytes: seq<Byte>) | TextValue(s: string)

  function Decimal(v: int): string {
    if v < 0 then "-" + Digits(-v) else Digits(v)
  }

  function LiteralFor(v: Bound): string {
    match v
    case NullValue => "NULL"
    case IntValue(i) => Decimal(i)
    case FloatValue(text) => text
    case BoolValue(b) => if b then "1" else "0"
    case BytesValue(bytes) => "X'" + Hex(bytes) + "'"
    case TextValue(s) => "'" + DoubleUp(s, '\'') + "'"
  }

  function DigitsEnd(s: string, j: nat): (r: nat)
    requires j <= |s|
    ensures j <= r <= |s|
    ensures forall k :: j <= k < r ==> IsDigit(s[k])
    ensures r < |s| ==> !IsDigit(s[r])
    decreases |s| - j
  {
    if j < |s| && IsDigit(s[j]) then DigitsEnd(s, j + 1) else j
  }

  /** A placeholder outside quotes and comments. */
  predicate IsPlaceholder(st: Scan, s: string) {
    s != "" && InNormal(st, s) && s[0] == '?' && |s| >= 2 && IsDigit(s[1])
  }

  function PlaceholderNumber(s: string): nat
    requires |s| >= 2 && IsDigit(s[1])
  {
    RewriteRun.DigitsValue(s[1..DigitsEnd(s, 1)])
  }

  /** The text with every placeholder replaced by its literal, or an error if one has no parameter. */
  function Render(st: Scan, s: string, params: seq<Bound>): Option<string>
    decreases |s|
  {
    if s == "" then Some("")
    else if IsPlaceholder(st, s) then
      var n := PlaceholderNumber(s);
      if n < 1 || n > |params| then None
      else
        var rest := Render(START, s[DigitsEnd(s, 1)..], params);
        if rest.None? then None else Some(LiteralFor(params[n - 1]) + rest.value)
    else
      var rest := Render(Advance(st, s), s[1..], params);
      if rest.None? then None else Some([s[0]] + rest.value)
  }

  // ---------- What is asked of the text ----------

  predicate BeginsWith(t: string, c: char) {
    t != "" && t[0] == c
  }

  /** The literal that takes the place of the placeholder here, if it has a parameter. */
  function LiteralHere(s: string, params: seq<Bound>): string
    requires |s| >= 2 && IsDigit(s[1])
  {
    var n := PlaceholderNumber(s);
    if 1 <= n <= |params| then LiteralFor(params[n - 1]) else ""
  }

  /** The next byte is a minus sign, and a literal that begins with one takes the place of what follows it. */
  predicate DoublesMinus(st: Scan, s: string, params: seq<Bound>) {
    s != "" && s[0] == '-' && IsPlaceholder(Advance(st, s), s[1..]) && BeginsWith(LiteralHere(s[1..], params), '-')
  }

  /** No literal from here on doubles a minus sign. */
  predicate NoMinusDoubled(st: Scan, s: string, params: seq<Bound>)
    decreases |s|
  {
    s == "" || (!DoublesMinus(st, s, params) && NoMinusDoubled(Advance(st, s), s[1..], params))
  }

  predicate HasNoDollar(s: string) {
    forall k :: 0 <= k < |s| ==> s[k] != '$'
  }

  /** The text of a number: no quote, bracket, semicolon or comment. */
  predicate IsNumberText(t: string) {
    && t != ""
    && (forall k :: 0 <= k < |t| ==> t[k] !in "'\"`[$/;?*")
    && (forall k :: 0 <= k < |t| && t[k] == '-' ==> k + 1 < |t| && t[k + 1] != '-')
  }

  predicate IsBound(v: Bound) {
    v.FloatValue? ==> IsNumberText(v.text)
  }

  predicate AllBound(params: seq<Bound>) {
    forall k :: 0 <= k < |params| ==> IsBound(params[k])
  }

  // ---------- Literals in the scanner ----------

  function Falses(n: nat): (m: seq<bool>)
    ensures |m| == n && forall k :: 0 <= k < n ==> !m[k]
  {
    if n == 0 then [] else [false] + Falses(n - 1)
  }

  lemma MarksNext(st: Scan, c: char, s: string)
    ensures Marks(st, [c] + s) == [IsBreak(st, [c] + s)] + Marks(Advance(st, [c] + s), s)
  {
    assert ([c] + s)[1..] == s;
  }

  /** The first `n` bytes end no statement, and after them the scanner is in a state, before `rest`. */
  predicate ScansTo(st: Scan, text: string, n: nat, st': Scan, rest: string) {
    Marks(st, text) == Falses(n) + Marks(st', rest)
  }

  lemma ScansOne(st: Scan, c: char, text: string, n: nat, st': Scan, rest: string)
    requires !IsBreak(st, [c] + text) && ScansTo(Advance(st, [c] + text), text, n, st', rest)
    ensures ScansTo(st, [c] + text, n + 1, st', rest)
  {
    hide Advance, IsBreak;
    MarksNext(st, c, text);
    assert [false] + (Falses(n) + Marks(st', rest)) == Falses(n + 1) + Marks(st', rest);
  }

  lemma ScansNone(st: Scan, rest: string)
    ensures ScansTo(st, rest, 0, st, rest)
  {
    assert [] + Marks(st, rest) == Marks(st, rest);
  }

  /** A number is scanned as plain text. */
  lemma {:induction false} NumberScans(t: string, rest: string)
    requires IsNumberText(t)
    ensures ScansTo(START, t + rest, |t|, START, rest)
    decreases |t|
  {
    hide ScansTo;
    var more := t[1..] + rest;
    assert t + rest == [t[0]] + more;
    NumberAdvances(t, rest, more);
    if |t| == 1 {
      assert more == rest;
      ScansNone(START, rest);
    } else {
      NumberScans(t[1..], rest);
    }
    ScansOne(START, t[0], more, |t| - 1, START, rest);
  }

  lemma NumberAdvances(t: string, rest: string, more: string)
    requires IsNumberText(t) && more == t[1..] + rest
    ensures !IsBreak(START, [t[0]] + more) && Advance(START, [t[0]] + more) == START
    ensures |t| > 1 ==> IsNumberText(t[1..])
  {
    var text := [t[0]] + more;
    assert t[0] !in "'\"`[$/;?*";
    assert "'\"`[$/;?*"[0] == '\'' && "'\"`[$/;?*"[1] == '"' && "'\"`[$/;?*"[2] == '`' && "'\"`[$/;?*"[3] == '['
        && "'\"`[$/;?*"[4] == '$' && "'\"`[$/;?*"[5] == '/' && "'\"`[$/;?*"[6] == ';';
    if t[0] == '-' {
      assert text[1] == t[1];
    }
  }

  /** Before an apostrophe it makes no difference whether a string has just ended or is about to double its quote. */
  lemma QuoteMerges(rest: string)
    requires BeginsWith(rest, '\'')
    ensures Marks(Scan(Single, 1), rest) == Marks(START, rest)
  {
  }

  /** The body of a string literal is scanned to its closing apostrophe. If an apostrophe follows, the next string is
      scanned as a part of this one, which ends statements where it did alone. */
  lemma {:induction false} BodyScans(body: string, rest: string)
    requires Doubled(body, '\'')
    ensures ScansTo(Scan(Single, 0), body + (['\''] + rest), |body| + 1, START, rest)
    decreases |body|
  {
    hide ScansTo;
    var tail := ['\''] + rest;
    if body == "" {
      assert body + tail == tail;
      BodyEnds(rest);
    } else if body[0] != '\'' {
      BodyScans(body[1..], rest);
      ScansOne(Scan(Single, 0), body[0], body[1..] + tail, |body|, START, rest);
      assert body + tail == [body[0]] + (body[1..] + tail);
    } else {
      BodyScans(body[2..], rest);
      var more := body[2..] + tail;
      ScansOne(Scan(Single, 1), '\'', more, |body| - 1, START, rest);
      ScansOne(Scan(Single, 0), '\'', ['\''] + more, |body|, START, rest);
      assert body + tail == ['\''] + (['\''] + more);
    }
  }

  lemma BodyEnds(rest: string)
    ensures ScansTo(Scan(Single, 0), ['\''] + rest, 1, START, rest)
  {
    ScansNone(START, rest);
    if BeginsWith(rest, '\'') {
      QuoteMerges(rest);
      assert NextIs(['\''] + rest, '\'');
      assert ScansTo(Scan(Single, 1), rest, 0, START, rest);
    } else {
      assert !NextIs(['\''] + rest, '\'');
    }
    hide ScansTo;
    ScansOne(Scan(Single, 0), '\'', rest, 0, START, rest);
  }

  lemma QuotedScans(body: string, rest: string)
    requires Doubled(body, '\'')
    ensures ScansTo(START, "'" + body + "'" + rest, |body| + 2, START, rest)
  {
    hide ScansTo, Doubled;
    BodyScans(body, rest);
    ScansOne(START, '\'', body + (['\''] + rest), |body| + 1, START, rest);
    assert "'" + body + "'" + rest == ['\''] + (body + (['\''] + rest));
  }

  lemma {:induction false} DoublingDoubles(s: string)
    ensures Doubled(DoubleUp(s, '\''), '\'')
  {
    if s != "" {
      DoublingDoubles(s[1..]);
      var rest := DoubleUp(s[1..], '\'');
      if s[0] == '\'' {
        assert DoubleUp(s, '\'') == ['\'', '\''] + rest;
        assert DoubleUp(s, '\'')[2..] == rest;
      } else {
        assert DoubleUp(s, '\'') == [s[0]] + rest;
        assert DoubleUp(s, '\'')[1..] == rest;
      }
    }
  }

  lemma {:induction false} PlainIsDoubled(s: string)
    requires forall k :: 0 <= k < |s| ==> s[k] != '\''
    ensures Doubled(s, '\'')
  {
    if s != "" {
      PlainIsDoubled(s[1..]);
    }
  }

  lemma {:induction false} HexIsPlain(bytes: seq<Byte>)
    ensures forall k :: 0 <= k < |Hex(bytes)| ==> Hex(bytes)[k] != '\''
  {
    if bytes != [] {
      HexIsPlain(bytes[1..]);
    }
  }

  /** Every literal is scanned as plain text or as one closed string, whatever the value and whatever follows: it
      holds no end of a statement, and after it statements end where they would without it. */
  lemma LiteralScans(v: Bound, rest: string)
    requires IsBound(v)
    ensures ScansTo(START, LiteralFor(v) + rest, |LiteralFor(v)|, START, rest)
  {
    match v
    case TextValue(s) =>
      DoublingDoubles(s);
      QuotedScans(DoubleUp(s, '\''), rest);
    case BytesValue(bytes) =>
      HexIsPlain(bytes);
      PlainIsDoubled(Hex(bytes));
      BytesScan(Hex(bytes), rest);
    case IntValue(i) =>
      DecimalIsNumber(i);
      NumberScans(Decimal(i), rest);
    case _ =>
      WordIsNumber(v);
      NumberScans(LiteralFor(v), rest);
  }

  lemma WordIsNumber(v: Bound)
    requires IsBound(v) && (v.NullValue? || v.FloatValue? || v.BoolValue?)
    ensures IsNumberText(LiteralFor(v))
  {}

  lemma BytesScan(hex: string, rest: string)
    requires Doubled(hex, '\'')
    ensures ScansTo(START, "X'" + hex + "'" + rest, |hex| + 3, START, rest)
  {
    hide ScansTo, Doubled;
    QuotedScans(hex, rest);
    ScansOne(START, 'X', "'" + hex + "'" + rest, |hex| + 2, START, rest);
    assert "X'" + hex + "'" + rest == ['X'] + ("'" + hex + "'" + rest);
  }

  lemma DecimalIsNumber(i: int)
    ensures IsNumberText(Decimal(i))
  {
    var d := Digits(if i < 0 then -i else i);
    assert forall k :: 0 <= k < |d| ==> '0' <= d[k] <= '9';
  }

  /** A string literal unescapes to the parameter. */
  lemma TextUnescapes(s: string)
    ensures var t := LiteralFor(TextValue(s)); IsClosed(t, '\'') && Collapse(t[1..|t| - 1], '\'') == s
  {
    var t, body := LiteralFor(TextValue(s)), DoubleUp(s, '\'');
    assert t[1..|t| - 1] == body;
    DoublingDoubles(s);
    CollapseUndoes(s, '\'');
  }

  // ---------- Copied text in the scanner ----------

  /** The byte after the first one matters to the scanner only if it makes a pair with it. */
  predicate SameNext(c: char, s: string, r: string) {
    && (c == '-' ==> NextIs([c] + s, '-') == NextIs([c] + r, '-'))
    && (c == '/' ==> NextIs([c] + s, '*') == NextIs([c] + r, '*'))
    && (c == '\'' ==> NextIs([c] + s, '\'') == NextIs([c] + r, '\''))
    && (c == '"' ==> NextIs([c] + s, '"') == NextIs([c] + r, '"'))
    && (c == '*' ==> NextIs([c] + s, '/') == NextIs([c] + r, '/'))
    && c != '$'
  }

  lemma SameAdvance(st: Scan, c: char, s: string, r: string)
    requires SameNext(c, s, r)
    ensures Advance(st, [c] + s) == Advance(st, [c] + r) && IsBreak(st, [c] + s) == IsBreak(st, [c] + r)
  {}

  /** The marks of the text, spread over the rendered text: a literal has none. */
  function Spread(st: Scan, s: string, params: seq<Bound>): seq<bool>
    requires Render(st, s, params).Some?
    decreases |s|
  {
    if s == "" then []
    else if IsPlaceholder(st, s) then
      Falses(|LiteralFor(params[PlaceholderNumber(s) - 1])|) + Spread(START, s[DigitsEnd(s, 1)..], params)
    else [IsBreak(st, s)] + Spread(Advance(st, s), s[1..], params)
  }

  lemma PlaceholderIsNormal(st: Scan, s: string)
    requires IsPlaceholder(st, s)
    ensures st == START && Advance(st, s) == START && !IsBreak(st, s)
  {}

  /** A literal begins neither or with a byte that would make a pair with a slash, a star or a double quote. */
  lemma LiteralHead(v: Bound)
    requires IsBound(v)
    ensures LiteralFor(v) != "" && LiteralFor(v)[0] !in "*\"/"
  {
    assert "*\"/"[0] == '*' && "*\"/"[1] == '"' && "*\"/"[2] == '/';
    if v.FloatValue? {
      var set_ := "'\"`[$/;?*";
      assert set_[1] == '"' && set_[5] == '/' && set_[8] == '*';
      assert v.text[0] !in set_;
    } else if v.IntValue? {
      DecimalIsNumber(v.i);
      assert '0' <= Digits(if v.i < 0 then -v.i else v.i)[0] <= '9';
    }
  }

  lemma RenderHead(st: Scan, s: string, params: seq<Bound>, r: string)
    requires Render(st, s, params) == Some(r) && !IsPlaceholder(st, s)
    ensures if s == "" then r == "" else r != "" && r[0] == s[0]
  {}

  lemma RenderParts(st: Scan, s: string, params: seq<Bound>, r: string)
    requires Render(st, s, params) == Some(r) && IsPlaceholder(st, s)
    ensures var n := PlaceholderNumber(s);
            && 1 <= n <= |params|
            && var rest := Render(START, s[DigitsEnd(s, 1)..], params);
               rest.Some? && r == LiteralFor(params[n - 1]) + rest.value
  {}

  /** A byte is followed by the same pairings in the text and in the rendered text, but for an apostrophe before a
      string and a minus sign before a negative number. */
  lemma CopiedNext(c: char, st: Scan, s: string, params: seq<Bound>, r: string)
    requires Render(st, s, params) == Some(r) && AllBound(params) && c != '$'
    requires IsPlaceholder(st, s) && (c == '\'' || c == '-') ==> !BeginsWith(LiteralHere(s, params), c)
    ensures SameNext(c, s, r)
  {
    if IsPlaceholder(st, s) {
      RenderParts(st, s, params, r);
      LiteralHead(params[PlaceholderNumber(s) - 1]);
      assert "*\"/"[0] == '*' && "*\"/"[1] == '"' && "*\"/"[2] == '/';
    } else {
      RenderHead(st, s, params, r);
    }
  }

  /** Digits leave the scanner where it is. */
  lemma {:induction false} DigitsPass(s: string, j: nat)
    requires j <= |s| && forall k :: 0 <= k < j ==> IsDigit(s[k])
    ensures ScansTo(START, s, j, START, s[j..])
    ensures forall params :: NoMinusDoubled(START, s, params) <==> NoMinusDoubled(START, s[j..], params)
  {
    if j == 0 {
      assert s[0..] == s;
      ScansNone(START, s);
    } else {
      DigitsPass(s[1..], j - 1);
      assert s == [s[0]] + s[1..] && s[1..][j - 1..] == s[j..];
      ScansOne(START, s[0], s[1..], j - 1, START, s[j..]);
    }
  }

  lemma PlaceholderPasses(s: string)
    requires IsPlaceholder(START, s)
    ensures var j := DigitsEnd(s, 1);
            && ScansTo(START, s, j, START, s[j..])
            && forall params :: NoMinusDoubled(START, s, params) <==> NoMinusDoubled(START, s[j..], params)
  {
    var j := DigitsEnd(s, 1);
    DigitsPass(s[1..], j - 1);
    assert s == [s[0]] + s[1..] && s[1..][j - 1..] == s[j..];
    ScansOne(START, s[0], s[1..], j - 1, START, s[j..]);
  }

  // ---------- The theorem ----------

  /** Inlining keeps the structure of the text: whatever the parameters, the rendered text is cut at the bytes copied
      from where the text is cut, and at no byte of a literal. */
  lemma {:induction false} InliningKeepsCuts(st: Scan, s: string, params: seq<Bound>, r: string)
    requires Render(st, s, params) == Some(r) && AllBound(params) && HasNoDollar(s)
    requires NoMinusDoubled(st, s, params)
    ensures Marks(st, r) == Spread(st, s, params)
    decreases |s|
  {
    if s == "" {
    } else if IsPlaceholder(st, s) {
      PlaceholderIsNormal(st, s);
      PlaceholderPasses(s);
      RenderParts(st, s, params, r);
      var rest := s[DigitsEnd(s, 1)..];
      var out := Render(START, rest, params).value;
      InliningKeepsCuts(START, rest, params, out);
      LiteralScans(params[PlaceholderNumber(s) - 1], out);
    } else {
      var out := Render(Advance(st, s), s[1..], params).value;
      InliningKeepsCuts(Advance(st, s), s[1..], params, out);
      CopyScans(st, s, params, out);
    }
  }

  lemma CopyScans(st: Scan, s: string, params: seq<Bound>, out: string)
    requires s != "" && s[0] != '$' && !DoublesMinus(st, s, params) && AllBound(params)
    requires Render(Advance(st, s), s[1..], params) == Some(out)
    ensures Marks(st, [s[0]] + out) == [IsBreak(st, s)] + Marks(Advance(st, s), out)
  {
    hide Render, IsBreak;
    assert s == [s[0]] + s[1..];
    MarksNext(st, s[0], out);
    if s[0] == '\'' && IsPlaceholder(Advance(st, s), s[1..]) && BeginsWith(LiteralHere(s[1..], params), '\'') {
      RenderParts(Advance(st, s), s[1..], params, out);
      StringAfterQuote(st, s, out);
    } else {
      hide Advance;
      CopiedNext(s[0], Advance(st, s), s[1..], params, out);
      SameAdvance(st, s[0], s[1..], out);
    }
  }

  /** A string right after the quote that ends another one is scanned on. */
  lemma StringAfterQuote(st: Scan, s: string, out: string)
    requires s != "" && s[0] == '\'' && Advance(st, s) == START && BeginsWith(out, '\'')
    ensures Marks(Advance(st, ['\''] + out), out) == Marks(Advance(st, s), out)
    ensures IsBreak(st, s) == IsBreak(st, ['\''] + out)
  {
    if st == Scan(Single, 0) {
      assert NextIs(['\''] + out, '\'');
      QuoteMerges(out);
    } else {
      assert st == Scan(Normal, 1);
    }
  }

  function Count(marks: seq<bool>): nat {
    if marks == [] then 0 else (if marks[0] then 1 else 0) + Count(marks[1..])
  }

  lemma {:induction false} CountFalses(n: nat, m: seq<bool>)
    ensures Count(Falses(n) + m) == Count(m)
  {
    if n == 0 {
      assert Falses(0) + m == m;
    } else {
      CountFalses(n - 1, m);
      assert (Falses(n) + m)[1..] == Falses(n - 1) + m;
    }
  }

  lemma {:induction false} SpreadCounts(st: Scan, s: string, params: seq<Bound>)
    requires Render(st, s, params).Some?
    ensures Count(Spread(st, s, params)) == Count(Marks(st, s))
    decreases |s|
  {
    if s == "" {
    } else if IsPlaceholder(st, s) {
      PlaceholderIsNormal(st, s);
      PlaceholderPasses(s);
      var j := DigitsEnd(s, 1);
      SpreadCounts(START, s[j..], params);
      CountFalses(j, Marks(START, s[j..]));
      CountFalses(|LiteralFor(params[PlaceholderNumber(s) - 1])|, Spread(START, s[j..], params));
    } else {
      SpreadCounts(Advance(st, s), s[1..], params);
      assert ([IsBreak(st, s)] + Spread(Advance(st, s), s[1..], params))[1..] == Spread(Advance(st, s), s[1..], params);
      assert ([IsBreak(st, s)] + Marks(Advance(st, s), s[1..]))[1..] == Marks(Advance(st, s), s[1..]);
    }
  }

  /** As many statements end in the rendered text as in the text. */
  lemma StatementsKept(sql: string, params: seq<Bound>, r: string)
    requires Render(START, sql, params) == Some(r) && AllBound(params) && HasNoDollar(sql)
    requires NoMinusDoubled(START, sql, params)
    ensures Count(Marks(START, r)) == Count(Marks(START, sql))
  {
    InliningKeepsCuts(START, sql, params, r);
    SpreadCounts(START, sql, params);
  }

  // ---------- The loop ----------

  function Prefixed(out: string, r: Option<string>): Option<string> {
    if r.None? then None else Some(out + r.value)
  }

  lemma RenderOnce(st: Scan, s: string, params: seq<Bound>, out: string)
    requires s != ""
    ensures Prefixed(out, Render(st, s, params))
            == if IsPlaceholder(st, s) then
                 var n := PlaceholderNumber(s);
                 if n < 1 || n > |params| then None
                 else Prefixed(out + LiteralFor(params[n - 1]), Render(START, s[DigitsEnd(s, 1)..], params))
               else Prefixed(out + [s[0]], Render(Advance(st, s), s[1..], params))
  {
    hide LiteralFor, DigitsEnd, PlaceholderNumber, Advance;
    if IsPlaceholder(st, s) {
      var n := PlaceholderNumber(s);
      if 1 <= n <= |params| && Render(START, s[DigitsEnd(s, 1)..], params).Some? {
        var rest := Render(START, s[DigitsEnd(s, 1)..], params).value;
        assert out + (LiteralFor(params[n - 1]) + rest) == out + LiteralFor(params[n - 1]) + rest;
      }
    } else if Render(Advance(st, s), s[1..], params).Some? {
      var rest := Render(Advance(st, s), s[1..], params).value;
      assert out + ([s[0]] + rest) == out + [s[0]] + rest;
    }
  }

  lemma RenderDone(st: Scan, params: seq<Bound>, out: string)
    ensures Prefixed(out, Render(st, "", params)) == Some(out)
  {
    assert out + "" == out;
  }

  /** Replaces every placeholder outside quotes and comments by the literal of its parameter. */
  method RenderParams(sql: string, params: seq<Bound>) returns (r: Option<string>)
    ensures r == Render(START, sql, params)
  {
    hide Render, Prefixed;
    var out := "";
    var st := new ScanState();
    var i := 0;
    PrefixedNothing(Render(START, sql, params));
    assert sql[0..] == sql;
    while i < |sql|
      invariant i <= |sql|
      invariant Prefixed(out, Render(st.Before(i), sql[i..], params)) == Render(START, sql, params)
      decreases |sql| - i
    {
      RenderOnce(st.Before(i), sql[i..], params, out);
      assert sql[i..][1..] == sql[i + 1..];
      var _ := st.Feed(sql, i);
      if !st.InNormalNow() {
        out := out + [sql[i]];
        i := i + 1;
        continue;
      }
      if sql[i] == '?' && i + 1 < |sql| && IsDigit(sql[i + 1]) {
        var j := i + 1;
        while j < |sql| && IsDigit(sql[j])
          invariant i < j <= |sql|
          invariant DigitsEnd(sql[i..], j - i) == DigitsEnd(sql[i..], 1)
        {
          assert sql[i..][j - i] == sql[j];
          j := j + 1;
        }
        assert DigitsEnd(sql[i..], 1) == j - i;
        assert sql[i..][1..j - i] == sql[i + 1..j] && sql[i..][j - i..] == sql[j..];
        var n := RewriteRun.DigitsValue(sql[i + 1..j]);
        if n < 1 || n > |params| {
          return None;
        }
        out := out + LiteralFor(params[n - 1]);
        i := j;
        continue;
      }
      out := out + [sql[i]];
      i := i + 1;
    }
    assert sql[i..] == "";
    RenderDone(st.Before(i), params, out);
    return Some(out);
  }

  lemma PrefixedNothing(r: Option<string>)
    ensures Prefixed("", r) == r
  {
    if r.Some? {
      assert "" + r.value == r.value;
    }
  }
}
