/** One pass of the rewriter over the tokens of a statement, as a function. */
module RewriteRun {
  import opened Tokenizer
  import opened Calls
  import opened Quoting
  import opened Inserts

  /** The parameters that matter here: integers, text, and others. */
  datatype Value = Int(i: int) | Str(s: string) | Other

  /** The leader's clock, in the formats of NOW, CURRENT_TIMESTAMP, CURRENT_DATE and CURRENT_TIME. */
  datatype Clock = Clock(now: string, timestamp: string, date: string, time: string)

  /** What a pass uses up and records: random bytes, parameters, and the ids allocated. */
  datatype Env = Env(random: seq<Byte>, params: seq<Value>, sequence: map<string, int>)

  /** `NegativeLength` is a panic: a negative length is not refused before the buffer is made. */
  datatype Failure = BadLength | NegativeLength | NoRandomness

  datatype Outcome<+T> = Done(value: T) | Failed(why: Failure)

  // ---------- Lengths of random blobs ----------

  predicate AllDigits(s: string) {
    forall k :: 0 <= k < |s| ==> '0' <= s[k] <= '9'
  }

  function DigitsValue(s: string): nat
    requires AllDigits(s)
  {
    if s == "" then 0 else DigitsValue(s[..|s| - 1]) * 10 + (s[|s| - 1] as int - '0' as int)
  }

  /** A decimal number in 64 bits, with or without a sign. */
  function ParseInt64(s: string): Option<int> {
    var signed := s != "" && (s[0] == '-' || s[0] == '+');
    var digits := if signed then s[1..] else s;
    if digits == "" || !AllDigits(digits) then None
    else
      var value: int := DigitsValue(digits);
      var v := if signed && s[0] == '-' then -value else value;
      if -0x8000_0000_0000_0000 <= v < 0x8000_0000_0000_0000 then Some(v) else None
  }

  function ValueToInt64(v: Value): Option<int> {
    match v
    case Int(i) => Some(i)
    case Str(s) => ParseInt64(s)
    case Other => None
  }

  /** The number of positional parameters. */
  function Questions(s: seq<Token>): nat {
    if s == [] then 0 else (if s[0].text == "?" && s[0].kind == Punct then 1 else 0) + Questions(s[1..])
  }

  function Without<T>(s: seq<T>, i: nat): seq<T>
    requires i < |s|
  {
    s[..i] + s[i + 1..]
  }

  /** The tokens from the first argument of a call on. */
  function Argument(s: seq<Token>): (r: seq<Token>)
    requires s != []
    ensures |r| <= |s|
  {
    Solid(SkipOne(Solid(s[1..])))
  }

  /** The length that RANDOMBLOB asks for, and the parameters without the one that gave it. */
  function BlobLength(toks: seq<Token>, i: nat, params: seq<Value>): Outcome<(int, seq<Value>)>
    requires i < |toks|
  {
    var arg := Argument(toks[i..]);
    if arg == [] then Failed(BadLength)
    else if arg[0].kind == Ident then
      if ParseInt64(arg[0].text).Some? then Done((ParseInt64(arg[0].text).value, params)) else Failed(BadLength)
    else if arg[0].text == "?" then
      var index := Questions(toks[..|toks| - |arg|]);
      if index >= |params| || ValueToInt64(params[index]).None? then Failed(BadLength)
      else Done((ValueToInt64(params[index]).value, Without(params, index)))
    else Failed(BadLength)
  }

  // ---------- Literals ----------

  function LittleEndian(b: seq<Byte>): nat {
    if b == [] then 0 else b[0] + 256 * LittleEndian(b[1..])
  }

  /** Eight bytes as a signed number. */
  function Int64(b: seq<Byte>): int {
    var u := LittleEndian(b);
    if u >= 0x8000_0000_0000_0000 then u - 0x1_0000_0000_0000_0000 else u
  }

  function Drawn(env: Env, n: nat): Env
    requires n <= |env.random|
  {
    env.(random := env.random[n..])
  }

  /** What stands for the trigger at a position. */
  function Literal(toks: seq<Token>, i: nat, clock: Clock, env: Env): Outcome<(seq<Token>, Env)>
    requires i < |toks|
  {
    var t := toks[i];
    if IsKeyword(t, "NOW") then Done((StringTokens(clock.now), env))
    else if IsKeyword(t, "CURRENT_TIMESTAMP") then Done((StringTokens(clock.timestamp), env))
    else if IsKeyword(t, "CURRENT_DATE") then Done((StringTokens(clock.date), env))
    else if IsKeyword(t, "CURRENT_TIME") then Done((StringTokens(clock.time), env))
    else if IsKeyword(t, "RANDOM") then
      if |env.random| < 8 then Failed(NoRandomness)
      else Done((DecimalTokens(Int64(env.random[..8])), Drawn(env, 8)))
    else
      var length := BlobLength(toks, i, env.params);
      if length.Failed? then Failed(length.why)
      else if length.value.0 < 0 then Failed(NegativeLength)
      else if |env.random| < length.value.0 then Failed(NoRandomness)
      else
        var n := length.value.0;
        Done((BlobTokens(env.random[..n]), Drawn(env, n).(params := length.value.1)))
  }

  // ---------- The pass ----------

  /** Some tokens, and what is written for them. */
  datatype Piece = Piece(source: seq<Token>, emitted: seq<Token>)

  datatype Run = Run(pieces: seq<Piece>, env: Env)

  function Then(p: Piece, r: Outcome<Run>): Outcome<Run> {
    if r.Failed? then r else Done(r.value.(pieces := [p] + r.value.pieces))
  }

  predicate AtStart(toks: seq<Token>, i: nat)
    requires i <= |toks|
  {
    forall j :: 0 <= j < i ==> IsSkippable(toks[j])
  }

  /** The INSERT that begins here, if it is one to rewrite. */
  function InsertAt(toks: seq<Token>, i: nat, schema: Option<Schema>): (r: Rewriting)
    requires i < |toks|
    ensures r.Rewriting? ==> 1 <= r.end <= |toks| - i
  {
    if IsKeyword(toks[i], "INSERT") && schema.Some? && AtStart(toks, i)
    then RewriteInsert(schema.value, toks[i..]) else Pass
  }

  /** One turn: an INSERT is rewritten, a trigger replaced, any other token copied. */
  function Step(toks: seq<Token>, i: nat, clock: Clock, schema: Option<Schema>, env: Env): (r: Outcome<(Piece, Env)>)
    requires i < |toks|
    ensures r.Done? ==> 1 <= |r.value.0.source| <= |toks| - i
  {
    var w, n := InsertAt(toks, i, schema), TriggerLength(toks[i..]);
    if w.Rewriting? then
      Done((Piece(toks[i..i + w.end], w.tokens), env.(sequence := env.sequence[w.table := w.next])))
    else if n == 0 then Done((Piece([toks[i]], [toks[i]]), env))
    else
      var lit := Literal(toks, i, clock, env);
      if lit.Failed? then Failed(lit.why) else Done((Piece(toks[i..i + n], lit.value.0), lit.value.1))
  }

  function RunFrom(toks: seq<Token>, i: nat, clock: Clock, schema: Option<Schema>, env: Env): Outcome<Run>
    requires i <= |toks|
    decreases |toks| - i
  {
    if i == |toks| then Done(Run([], env))
    else
      var step := Step(toks, i, clock, schema, env);
      if step.Failed? then Failed(step.why)
      else Then(step.value.0, RunFrom(toks, i + |step.value.0.source|, clock, schema, step.value.1))
  }

  function Emitted(pieces: seq<Piece>): seq<Token> {
    if pieces == [] then [] else pieces[0].emitted + Emitted(pieces[1..])
  }

  function Sources(pieces: seq<Piece>): seq<Token> {
    if pieces == [] then [] else pieces[0].source + Sources(pieces[1..])
  }
}
