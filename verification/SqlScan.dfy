/** The scanner of the wire protocol: which bytes of SQL are outside quotes and comments, and where statements end. */
module SqlScan {
  // The scanner is a function of what is left of the text: its mode, and how many of the next bytes it skips.

  datatype Mode = Normal | Single | Double | Backquote | Bracket | Line | Block

  datatype Option<+T> = None | Some(value: T)

  datatype Scan = Scan(mode: Mode, skip: nat)

  const START := Scan(Normal, 0)

  predicate IsDigit(c: char) {
    '0' <= c <= '9'
  }

  predicate IsTagChar(c: char) {
    IsDigit(c) || 'a' <= c <= 'z' || 'A' <= c <= 'Z' || c == '_'
  }

  /** Whether the next byte is this one. */
  predicate NextIs(s: string, c: char)
    requires s != ""
  {
    |s| >= 2 && s[1] == c
  }

  // ---------- Dollar quotes ----------

  function TagEnd(s: string, j: nat): (r: nat)
    requires j <= |s|
    ensures j <= r <= |s|
    decreases |s| - j
  {
    if j < |s| && IsTagChar(s[j]) then TagEnd(s, j + 1) else j
  }

  /** The first place from which the text begins with the tag. */
  function Find(s: string, tag: string, j: nat): (r: Option<nat>)
    requires j <= |s|
    ensures r.Some? ==> j <= r.value && r.value + |tag| <= |s|
    decreases |s| - j
  {
    if |s| - j < |tag| then None
    else if s[j..j + |tag|] == tag then Some(j)
    else if j == |s| then None
    else Find(s, tag, j + 1)
  }

  /** The length of the dollar-quoted text that begins here. */
  function DollarLength(s: string): (r: Option<nat>)
    requires s != ""
    ensures r.Some? ==> 2 <= r.value <= |s|
  {
    var j := TagEnd(s, 1);
    if j == |s| || s[j] != '$' then None
    else
      var tag := s[..j + 1];
      var close := Find(s, tag, j + 1);
      if close.Some? then Some(close.value + |tag|) else None
  }

  // ---------- One byte ----------

  /** The state after a byte that is not skipped. */
  function Turn(mode: Mode, s: string): Scan
    requires s != ""
  {
    var c := s[0];
    match mode
    case Normal =>
      if c == '\'' then Scan(Single, 0)
      else if c == '"' then Scan(Double, 0)
      else if c == '`' then Scan(Backquote, 0)
      else if c == '[' then Scan(Bracket, 0)
      else if c == '-' && NextIs(s, '-') then Scan(Line, 0)
      else if c == '/' && NextIs(s, '*') then Scan(Block, 0)
      else if c == '$' && DollarLength(s).Some? then Scan(Normal, DollarLength(s).value - 1)
      else Scan(Normal, 0)
    case Single =>
      if c == '\'' && NextIs(s, '\'') then Scan(Single, 1) else Scan(if c == '\'' then Normal else Single, 0)
    case Double =>
      if c == '"' && NextIs(s, '"') then Scan(Double, 1) else Scan(if c == '"' then Normal else Double, 0)
    case Backquote => Scan(if c == '`' then Normal else Backquote, 0)
    case Bracket => Scan(if c == ']' then Normal else Bracket, 0)
    case Line => Scan(if c == '\n' then Normal else Line, 0)
    case Block => if c == '*' && NextIs(s, '/') then Scan(Normal, 1) else Scan(Block, 0)
  }

  function Advance(st: Scan, s: string): Scan
    requires s != ""
  {
    if st.skip > 0 then st.(skip := st.skip - 1) else Turn(st.mode, s)
  }

  /** Whether a statement ends with this byte. */
  predicate IsBreak(st: Scan, s: string)
    requires s != ""
  {
    st == START && s[0] == ';'
  }

  /** Whether this byte, once fed, is outside quotes and comments. */
  predicate InNormal(st: Scan, s: string)
    requires s != ""
  {
    st.skip == 0 && Advance(st, s) == START
  }

  /** Where statements end, byte by byte. */
  function Marks(st: Scan, s: string): (m: seq<bool>)
    ensures |m| == |s|
    decreases |s|
  {
    if s == "" then [] else [IsBreak(st, s)] + Marks(Advance(st, s), s[1..])
  }

  // ---------- The scanner's state ----------

  /** `dollarAt` is the place up to which bytes are skipped, `pos` the last byte fed. */
  class ScanState {
    var mode: Mode
    var dollarAt: nat
    var pos: nat

    constructor ()
      ensures Before(0) == START
    {
      mode, dollarAt, pos := Normal, 0, 0;
    }

    /** The state before the byte at `i`. */
    function Before(i: nat): Scan
      reads this
    {
      Scan(mode, if dollarAt > i then dollarAt - i else 0)
    }

    predicate InNormalNow()
      reads this
    {
      mode == Normal && pos >= dollarAt
    }

    method Feed(sql: string, i: nat) returns (isBreak: bool)
      requires i < |sql|
      modifies this
      ensures Before(i + 1) == Advance(old(Before(i)), sql[i..])
      ensures isBreak <==> IsBreak(old(Before(i)), sql[i..])
      ensures InNormalNow() <==> InNormal(old(Before(i)), sql[i..])
    {
      pos := i;
      isBreak := false;
      if i < dollarAt {
        return;
      }
      var c := sql[i];
      match mode {
        case Normal =>
          if c == '\'' {
            mode := Single;
          } else if c == '"' {
            mode := Double;
          } else if c == '`' {
            mode := Backquote;
          } else if c == '[' {
            mode := Bracket;
          } else if c == '-' && NextIs(sql[i..], '-') {
            mode := Line;
          } else if c == '/' && NextIs(sql[i..], '*') {
            mode := Block;
          } else if c == '$' {
            var length := DollarLength(sql[i..]);
            if length.Some? {
              dollarAt := i + length.value;
            }
          } else if c == ';' {
            isBreak := true;
          }
        case Single =>
          if c == '\'' && NextIs(sql[i..], '\'') {
            dollarAt := i + 2;
          } else if c == '\'' {
            mode := Normal;
          }
        case Double =>
          if c == '"' && NextIs(sql[i..], '"') {
            dollarAt := i + 2;
          } else if c == '"' {
            mode := Normal;
          }
        case Backquote =>
          if c == '`' {
            mode := Normal;
          }
        case Bracket =>
          if c == ']' {
            mode := Normal;
          }
        case Line =>
          if c == '\n' {
            mode := Normal;
          }
        case Block =>
          if c == '*' && NextIs(sql[i..], '/') {
            mode := Normal;
            dollarAt := i + 2;
          }
      }
    }
  }

  // ---------- Splitting ----------

  predicate IsBlank(c: char) {
    c == ' ' || 9 <= c as int <= 13
  }

  function TrimLeft(s: string): string {
    if s != "" && IsBlank(s[0]) then TrimLeft(s[1..]) else s
  }

  function TrimRight(s: string): string {
    if s != "" && IsBlank(s[|s| - 1]) then TrimRight(s[..|s| - 1]) else s
  }

  function Trim(s: string): string {
    TrimRight(TrimLeft(s))
  }

  function Add(out: seq<string>, piece: string): seq<string> {
    if Trim(piece) == "" then out else out + [Trim(piece)]
  }

  /** The statements, with those before `i` already out and the one from `start` on begun. */
  function Cut(sql: string, marks: seq<bool>, start: nat, i: nat, out: seq<string>): seq<string>
    requires start <= i <= |sql| == |marks|
    decreases |sql| - i
  {
    if i == |sql| then Add(out, sql[start..])
    else if marks[i] then Cut(sql, marks, i + 1, i + 1, Add(out, sql[start..i]))
    else Cut(sql, marks, start, i + 1, out)
  }

  function Statements(sql: string): seq<string> {
    Cut(sql, Marks(START, sql), 0, 0, [])
  }

  /** Cuts the text at the semicolons outside quotes and comments. */
  method SplitStatements(sql: string) returns (out: seq<string>)
    ensures out == Statements(sql)
  {
    out := [];
    var start := 0;
    var st := new ScanState();
    ghost var marks := Marks(START, sql);
    assert sql[0..] == sql && marks[0..] == marks;
    for i := 0 to |sql|
      invariant start <= i
      invariant marks[i..] == Marks(st.Before(i), sql[i..])
      invariant Cut(sql, marks, start, i, out) == Statements(sql)
    {
      assert sql[i..][1..] == sql[i + 1..] && marks[i..][1..] == marks[i + 1..];
      assert marks[i..][0] == marks[i];
      var isBreak := st.Feed(sql, i);
      if isBreak {
        var piece := Trim(sql[start..i]);
        if piece != "" {
          out := out + [piece];
        }
        start := i + 1;
      }
    }
    var piece := Trim(sql[start..]);
    if piece != "" {
      out := out + [piece];
    }
  }
}
