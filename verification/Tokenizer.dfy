/** The rewriter's tokenizer. */
module Tokenizer {
  // SQL is a sequence of bytes, written as characters; a byte beyond ASCII is a token of its own.

  /** `Ident` covers keywords and numbers; `Quoted` covers '..', "..", `..` and [..]. */
  datatype Kind = Space | Comment | Ident | Quoted | Punct

  datatype Token = Token(kind: Kind, text: string)

  predicate IsSkippable(t: Token) {
    t.kind == Space || t.kind == Comment
  }

  function UpperChar(c: char): char {
    if 'a' <= c <= 'z' then (c as int - 32) as char else c
  }

  function Upper(s: string): (u: string)
    ensures |u| == |s|
  {
    if s == "" then "" else [UpperChar(s[0])] + Upper(s[1..])
  }

  predicate IsKeyword(t: Token, keyword: string) {
    t.kind == Ident && Upper(t.text) == keyword
  }

  predicate IsSpace(c: char) {
    c == ' ' || c == '\t' || c == '\n' || c == '\r' || c as int == 12 || c as int == 11
  }

  predicate IsIdentStart(c: char) {
    c == '_' || 'a' <= c <= 'z' || 'A' <= c <= 'Z' || '0' <= c <= '9'
  }

  predicate IsIdentPart(c: char) {
    c == '$' || IsIdentStart(c)
  }

  predicate IsQuote(c: char) {
    c == '\'' || c == '"' || c == '`'
  }

  // ---------- Where tokens end ----------

  /** The end of the run of spaces from here. */
  function SpaceEnd(sql: string, j: nat): (r: nat)
    requires j <= |sql|
    ensures j <= r <= |sql|
    ensures forall k :: j <= k < r ==> IsSpace(sql[k])
    ensures r < |sql| ==> !IsSpace(sql[r])
    decreases |sql| - j
  {
    if j < |sql| && IsSpace(sql[j]) then SpaceEnd(sql, j + 1) else j
  }

  function IdentEnd(sql: string, j: nat): (r: nat)
    requires j <= |sql|
    ensures j <= r <= |sql|
    ensures forall k :: j <= k < r ==> IsIdentPart(sql[k])
    ensures r < |sql| ==> !IsIdentPart(sql[r])
    decreases |sql| - j
  {
    if j < |sql| && IsIdentPart(sql[j]) then IdentEnd(sql, j + 1) else j
  }

  /** The first place of a character from here, or the end. */
  function IndexOf(sql: string, j: nat, c: char): (r: nat)
    requires j <= |sql|
    ensures j <= r <= |sql|
    ensures forall k :: j <= k < r ==> sql[k] != c
    ensures r < |sql| ==> sql[r] == c
    decreases |sql| - j
  {
    if j < |sql| && sql[j] != c then IndexOf(sql, j + 1, c) else j
  }

  predicate ClosesComment(sql: string, k: nat) {
    k + 2 <= |sql| && sql[k] == '*' && sql[k + 1] == '/'
  }

  /** The place just after the first end of a block comment from here, or the end. */
  function BlockEnd(sql: string, j: nat): (r: nat)
    requires j <= |sql|
    ensures j <= r <= |sql|
    ensures r < |sql| ==> r >= j + 2 && ClosesComment(sql, r - 2)
    ensures forall k: nat :: j <= k && k + 2 < r ==> !ClosesComment(sql, k)
    decreases |sql| - j
  {
    if j == |sql| then j else if ClosesComment(sql, j) then j + 2 else BlockEnd(sql, j + 1)
  }

  /** The place just after the quote that closes a literal whose body continues here, or the end: a doubled quote
      belongs to the body. */
  function QuotedEnd(sql: string, j: nat, quote: char): (r: nat)
    requires j <= |sql|
    ensures j <= r <= |sql|
    decreases |sql| - j
  {
    if j == |sql| then j
    else if sql[j] != quote then QuotedEnd(sql, j + 1, quote)
    else if j + 1 < |sql| && sql[j + 1] == quote then QuotedEnd(sql, j + 2, quote)
    else j + 1
  }

  predicate Starts(sql: string, i: nat, a: char, b: char) {
    i + 1 < |sql| && sql[i] == a && sql[i + 1] == b
  }

  function KindAt(sql: string, i: nat): Kind
    requires i < |sql|
  {
    if IsSpace(sql[i]) then Space
    else if Starts(sql, i, '-', '-') || Starts(sql, i, '/', '*') then Comment
    else if IsQuote(sql[i]) || sql[i] == '[' then Quoted
    else if IsIdentStart(sql[i]) then Ident
    else Punct
  }

  function TokenEnd(sql: string, i: nat): (r: nat)
    requires i < |sql|
    ensures i < r <= |sql|
  {
    var c := sql[i];
    if IsSpace(c) then SpaceEnd(sql, i + 1)
    else if Starts(sql, i, '-', '-') then IndexOf(sql, i + 2, '\n')
    else if Starts(sql, i, '/', '*') then BlockEnd(sql, i + 2)
    else if IsQuote(c) then QuotedEnd(sql, i + 1, c)
    else if c == '[' then
      var close := IndexOf(sql, i, ']');
      if close == |sql| then close else close + 1
    else if IsIdentStart(c) then IdentEnd(sql, i + 1)
    else i + 1
  }

  function TokensFrom(sql: string, i: nat): seq<Token>
    requires i <= |sql|
    decreases |sql| - i
  {
    if i == |sql| then []
    else
      var j := TokenEnd(sql, i);
      [Token(KindAt(sql, i), sql[i..j])] + TokensFrom(sql, j)
  }

  function Text(toks: seq<Token>): string {
    if toks == [] then "" else toks[0].text + Text(toks[1..])
  }

  lemma TextNext(t: Token, s: seq<Token>)
    ensures Text([t] + s) == t.text + Text(s)
  {
    assert ([t] + s)[1..] == s;
  }

  // ---------- What the tokens are ----------

  /** Nothing is lost: the tokens spell the SQL. */
  lemma {:induction false} Lossless(sql: string, i: nat)
    requires i <= |sql|
    ensures Text(TokensFrom(sql, i)) == sql[i..]
    decreases |sql| - i
  {
    if i < |sql| {
      Lossless(sql, TokenEnd(sql, i));
    }
  }

  /** Quotes come in pairs. */
  predicate Doubled(body: string, quote: char) {
    if body == "" then true
    else if body[0] != quote then Doubled(body[1..], quote)
    else |body| >= 2 && body[1] == quote && Doubled(body[2..], quote)
  }

  /** A literal from its opening to its closing quote. */
  predicate IsClosed(text: string, quote: char) {
    |text| >= 2 && text[0] == quote && text[|text| - 1] == quote && Doubled(text[1..|text| - 1], quote)
  }

  /** A quoted token is one whole literal, and it ends at the first quote that is not doubled; only the last token
      may be left open. */
  lemma {:induction false} QuotedIsClosed(sql: string, j: nat, quote: char)
    requires j <= |sql|
    ensures var r := QuotedEnd(sql, j, quote);
            (r > j && sql[r - 1] == quote && Doubled(sql[j..r - 1], quote) && (r < |sql| ==> sql[r] != quote))
            || (r == |sql| && Doubled(sql[j..], quote))
    decreases |sql| - j
  {
    if j < |sql| {
      var r := QuotedEnd(sql, j, quote);
      if sql[j] != quote {
        QuotedIsClosed(sql, j + 1, quote);
        assert sql[j..][1..] == sql[j + 1..];
        if r > j + 1 { assert sql[j..r - 1][1..] == sql[j + 1..r - 1]; }
      } else if j + 1 < |sql| && sql[j + 1] == quote {
        QuotedIsClosed(sql, j + 2, quote);
        assert sql[j..][2..] == sql[j + 2..];
        if r > j + 2 { assert sql[j..r - 1][2..] == sql[j + 2..r - 1]; }
      } else {
        assert sql[j..r - 1] == "";
      }
    }
  }

  lemma QuotedTokenIsLiteral(sql: string, i: nat)
    requires i < |sql| && IsQuote(sql[i]) && TokenEnd(sql, i) < |sql|
    ensures IsClosed(sql[i..TokenEnd(sql, i)], sql[i]) && sql[TokenEnd(sql, i)] != sql[i]
  {
    var r := TokenEnd(sql, i);
    QuotedIsClosed(sql, i + 1, sql[i]);
    assert r == QuotedEnd(sql, i + 1, sql[i]);
    assert sql[i..r][1..|sql[i..r]| - 1] == sql[i + 1..r - 1];
  }

  // ---------- The loops ----------

  method ScanQuoted(sql: string, start: nat, quote: char) returns (end: nat)
    requires start < |sql|
    ensures end == QuotedEnd(sql, start + 1, quote)
  {
    var i := start + 1;
    while i < |sql|
      invariant start < i <= |sql|
      invariant QuotedEnd(sql, i, quote) == QuotedEnd(sql, start + 1, quote)
    {
      if sql[i] == quote {
        if i + 1 < |sql| && sql[i + 1] == quote {
          i := i + 2;
          continue;
        }
        return i + 1;
      }
      i := i + 1;
    }
    return |sql|;
  }

  /** Where the token that starts here ends. */
  method ScanToken(sql: string, i: nat) returns (j: nat)
    requires i < |sql|
    ensures j == TokenEnd(sql, i)
  {
    var c := sql[i];
    j := i + 1;
    if IsSpace(c) {
      while j < |sql| && IsSpace(sql[j])
        invariant i < j <= |sql|
        invariant SpaceEnd(sql, j) == SpaceEnd(sql, i + 1)
      {
        j := j + 1;
      }
    } else if Starts(sql, i, '-', '-') {
      j := i + 2;
      while j < |sql| && sql[j] != '\n'
        invariant i + 2 <= j <= |sql|
        invariant IndexOf(sql, j, '\n') == IndexOf(sql, i + 2, '\n')
      {
        j := j + 1;
      }
    } else if Starts(sql, i, '/', '*') {
      j := BlockEnd(sql, i + 2);
    } else if IsQuote(c) {
      j := ScanQuoted(sql, i, c);
    } else if c == '[' {
      j := IndexOf(sql, i, ']');
      if j < |sql| {
        j := j + 1;
      }
    } else if IsIdentStart(c) {
      while j < |sql| && IsIdentPart(sql[j])
        invariant i < j <= |sql|
        invariant IdentEnd(sql, j) == IdentEnd(sql, i + 1)
      {
        j := j + 1;
      }
    }
  }

  /** Splits SQL into tokens; together they spell it. */
  method Tokenize(sql: string) returns (toks: seq<Token>)
    ensures toks == TokensFrom(sql, 0)
    ensures Text(toks) == sql
  {
    toks := [];
    var i := 0;
    while i < |sql|
      invariant i <= |sql|
      invariant toks + TokensFrom(sql, i) == TokensFrom(sql, 0)
    {
      var j := ScanToken(sql, i);
      var token := Token(KindAt(sql, i), sql[i..j]);
      assert toks + ([token] + TokensFrom(sql, j)) == toks + [token] + TokensFrom(sql, j);
      toks := toks + [token];
      i := j;
    }
    assert toks + [] == toks;
    Lossless(sql, 0);
    assert sql[0..] == sql;
  }
}
