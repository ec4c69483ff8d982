/** Quoted identifiers, decimal numbers and hexadecimal blobs, as the rewriter writes them. */
module Quoting {
  import opened Tokenizer
  import opened Calls

  /** Every `quote` doubled. */
  function DoubleUp(s: string, quote: char): string {
    if s == "" then "" else (if s[0] == quote then [quote, quote] else [s[0]]) + DoubleUp(s[1..], quote)
  }

  /** Every pair of quotes, from the left, made one. */
  function Collapse(s: string, quote: char): (r: string)
    ensures |r| <= |s|
  {
    if s == "" then ""
    else if |s| >= 2 && s[0] == quote && s[1] == quote then [quote] + Collapse(s[2..], quote)
    else [s[0]] + Collapse(s[1..], quote)
  }

  predicate PairAt(s: string, quote: char, k: nat) {
    k + 1 < |s| && s[k] == quote && s[k + 1] == quote
  }

  ghost predicate HasPair(s: string, quote: char) {
    exists k :: PairAt(s, quote, k)
  }

  function QuoteString(s: string): string {
    "'" + DoubleUp(s, '\'') + "'"
  }

  function QuoteIdent(s: string): string {
    "\"" + DoubleUp(s, '"') + "\""
  }

  /** Whatever its quotes, an identifier loses the doubling of all three kinds. */
  function UnquoteIdent(s: string): string {
    if |s| < 2 then s
    else Collapse(Collapse(Collapse(s[1..|s| - 1], '\''), '"'), '`')
  }

  lemma {:induction false} CollapseUndoes(s: string, quote: char)
    ensures Collapse(DoubleUp(s, quote), quote) == s
  {
    if s != "" {
      CollapseUndoes(s[1..], quote);
      var rest := DoubleUp(s[1..], quote);
      if s[0] == quote {
        assert DoubleUp(s, quote)[2..] == rest;
      } else {
        assert DoubleUp(s, quote) == [s[0]] + rest;
        assert DoubleUp(s, quote)[1..] == rest;
      }
    }
  }

  lemma DoubleNext(c: char, s: string, quote: char)
    ensures DoubleUp([c] + s, quote) == (if c == quote then [c, c] else [c]) + DoubleUp(s, quote)
  {
    assert ([c] + s)[1..] == s;
  }

  lemma CollapseNext(c: char, s: string, quote: char)
    requires c == quote && s != "" ==> s[0] != quote
    ensures Collapse([c] + s, quote) == [c] + Collapse(s, quote)
  {
    assert ([c] + s)[1..] == s;
  }

  lemma CollapsePair(quote: char, s: string)
    ensures Collapse([quote, quote] + s, quote) == [quote] + Collapse(s, quote)
  {
    assert ([quote, quote] + s)[2..] == s;
  }

  lemma DoubleTwo(c: char, s: string, quote: char)
    requires c != quote
    ensures DoubleUp([c, c] + s, quote) == [c, c] + DoubleUp(s, quote)
  {
    DoubleNext(c, s, quote);
    DoubleNext(c, [c] + s, quote);
    assert [c, c] + s == [c] + ([c] + s);
    assert [c] + ([c] + DoubleUp(s, quote)) == [c, c] + DoubleUp(s, quote);
  }

  lemma DoubleHead(s: string, quote: char)
    ensures s != "" ==> DoubleUp(s, quote) != "" && DoubleUp(s, quote)[0] == s[0]
    ensures s == "" ==> DoubleUp(s, quote) == ""
  {}

  /** Doubling one kind of quote does not disturb the pairs of another. */
  lemma {:induction false} CollapseCommutes(s: string, a: char, b: char)
    requires a != b
    ensures Collapse(DoubleUp(s, b), a) == DoubleUp(Collapse(s, a), b)
  {
    if s == "" {
    } else if |s| >= 2 && s[0] == a && s[1] == a {
      var rest := s[2..];
      assert s == [a, a] + rest;
      CollapseCommutes(rest, a, b);
      DoubleTwo(a, rest, b);
      CollapsePair(a, DoubleUp(rest, b));
      CollapsePair(a, rest);
      DoubleNext(a, Collapse(rest, a), b);
    } else {
      var c, rest := s[0], s[1..];
      assert s == [c] + rest;
      CollapseCommutes(rest, a, b);
      DoubleNext(c, rest, b);
      DoubleHead(rest, b);
      CollapseNext(c, rest, a);
      DoubleNext(c, Collapse(rest, a), b);
      CollapseNext(c, DoubleUp(rest, b), a);
      if c == b {
        CollapseNext(b, [b] + DoubleUp(rest, b), a);
        assert [b, b] + DoubleUp(rest, b) == [b] + ([b] + DoubleUp(rest, b));
        assert [b] + ([b] + Collapse(DoubleUp(rest, b), a)) == [b, b] + Collapse(DoubleUp(rest, b), a);
      }
    }
  }

  lemma {:induction false} CollapseIsSame(s: string, quote: char)
    ensures Collapse(s, quote) == s <==> !HasPair(s, quote)
    ensures Collapse(s, quote) != s ==> |Collapse(s, quote)| < |s|
  {
    if s == "" {
    } else if |s| >= 2 && s[0] == quote && s[1] == quote {
      assert PairAt(s, quote, 0);
    } else {
      CollapseIsSame(s[1..], quote);
      assert s == [s[0]] + s[1..];
      forall k: nat | PairAt(s, quote, k) ensures HasPair(s[1..], quote) {
        assert PairAt(s[1..], quote, k - 1);
      }
      forall k: nat | PairAt(s[1..], quote, k) ensures HasPair(s, quote) {
        assert PairAt(s, quote, k + 1);
      }
    }
  }

  /** A quoted identifier reads back as itself exactly if it has no pair of apostrophes and no pair of backquotes. */
  lemma QuoteIdentExact(s: string)
    ensures UnquoteIdent(QuoteIdent(s)) == s <==> !HasPair(s, '\'') && !HasPair(s, '`')
  {
    var body := DoubleUp(s, '"');
    assert QuoteIdent(s)[1..|QuoteIdent(s)| - 1] == body;
    CollapseCommutes(s, '\'', '"');
    CollapseUndoes(Collapse(s, '\''), '"');
    CollapseIsSame(s, '\'');
    CollapseIsSame(Collapse(s, '\''), '`');
  }

  // ---------- Literals as tokens ----------

  function DigitChar(d: nat): (c: char)
    requires d < 10
    ensures '0' <= c <= '9'
  {
    ('0' as int + d) as char
  }

  function Digits(n: nat): (s: string)
    ensures |s| >= 1 && forall k :: 0 <= k < |s| ==> '0' <= s[k] <= '9'
  {
    if n < 10 then [DigitChar(n)] else Digits(n / 10) + [DigitChar(n % 10)]
  }

  function DecimalTokens(v: int): seq<Token> {
    if v < 0 then [Token(Punct, "-"), Token(Ident, Digits(-v))] else [Token(Ident, Digits(v))]
  }

  function HexChar(d: nat): char
    requires d < 16
  {
    if d < 10 then DigitChar(d) else ('a' as int + d - 10) as char
  }

  type Byte = x: int | 0 <= x < 256

  function Hex(bytes: seq<Byte>): string {
    if bytes == [] then "" else [HexChar(bytes[0] / 16), HexChar(bytes[0] % 16)] + Hex(bytes[1..])
  }

  function BlobTokens(bytes: seq<Byte>): seq<Token> {
    [Token(Ident, "X"), Token(Quoted, "'" + Hex(bytes) + "'")]
  }

  function StringTokens(s: string): seq<Token> {
    [Token(Quoted, QuoteString(s))]
  }

  lemma NumberIsPlain(s: string)
    requires |s| >= 1 && '0' <= s[0] <= '9'
    ensures IsPlain(Token(Ident, s))
  {
    assert Upper(s)[0] == s[0];
  }

  lemma LiteralsArePlain(v: int, s: string, bytes: seq<Byte>)
    ensures AllPlain(DecimalTokens(v)) && AllPlain(StringTokens(s)) && AllPlain(BlobTokens(bytes))
  {
    NumberIsPlain(Digits(if v < 0 then -v else v));
    assert QuoteString(s)[0] == '\'';
    assert Upper("X") == "X";
  }
}
