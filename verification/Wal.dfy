/** The write-ahead log: log.bin, a sequence of length-prefixed encodings of entries, and state.bin. */
module Wal {
  // The latter is a record of fixed layout.
  //
  // The encoding of one entry is a parameter; all that is asked of it is that it can be decoded. Writes succeed
  // unless a crash cuts an append short.

  import opened RaftSpec

  type Byte = x: int | 0 <= x < 256

  // ---------- Big-endian numbers ----------

  /** The last `width` bytes of a number, the most significant first. */
  function BigEndian(n: nat, width: nat): (b: seq<Byte>)
    ensures |b| == width
  {
    if width == 0 then [] else BigEndian(n / 256, width - 1) + [n % 256]
  }

  function Value(b: seq<Byte>): nat {
    if b == [] then 0 else Value(b[..|b| - 1]) * 256 + b[|b| - 1]
  }

  function Pow256(width: nat): nat {
    if width == 0 then 1 else Pow256(width - 1) * 256
  }

  lemma {:induction false} ValueOfBigEndian(n: nat, width: nat)
    requires n < Pow256(width)
    ensures Value(BigEndian(n, width)) == n
  {
    if width > 0 {
      ValueOfBigEndian(n / 256, width - 1);
      assert BigEndian(n, width)[..width - 1] == BigEndian(n / 256, width - 1);
    }
  }

  lemma {:induction false} BigEndianOfValue(b: seq<Byte>)
    ensures BigEndian(Value(b), |b|) == b
  {
    if b != [] {
      BigEndianOfValue(b[..|b| - 1]);
      assert b == b[..|b| - 1] + [b[|b| - 1]];
    }
  }

  lemma {:induction false} ValueBounded(b: seq<Byte>)
    ensures Value(b) < Pow256(|b|)
  {
    if b != [] {
      ValueBounded(b[..|b| - 1]);
    }
  }

  const TWO_32 := 0x1_0000_0000

  lemma Widths()
    ensures Pow256(4) == TWO_32 && Pow256(8) == TWO_32 * TWO_32
  {
    assert Pow256(1) == 256;
    assert Pow256(2) == 65536;
    assert Pow256(3) == 0x100_0000;
    assert Pow256(5) == 0x100_0000_0000;
    assert Pow256(6) == 0x1_0000_0000_0000;
    assert Pow256(7) == 0x100_0000_0000_0000;
  }

  // ---------- Frames ----------

  /** The longest encoding that reading accepts. */
  const MAX_ENTRY := 64 * 1024 * 1024

  datatype Codec = Codec(marshal: Entry -> seq<Byte>, unmarshal: seq<Byte> -> Option<Entry>)

  ghost predicate Decodes(c: Codec) {
    forall e :: c.unmarshal(c.marshal(e)) == Some(e)
  }

  datatype Result<+T> = Ok(value: T) | Err

  /** The length is written as an unsigned 32-bit number, whatever its size. */
  function Frame(b: seq<Byte>): seq<Byte> {
    BigEndian(|b| % TWO_32, 4) + b
  }

  function Encode(c: Codec, entries: seq<Entry>): seq<Byte> {
    if entries == [] then [] else Frame(c.marshal(entries[0])) + Encode(c, entries[1..])
  }

  /** The length that the next frame claims. */
  function Claimed(bytes: seq<Byte>): nat
    requires |bytes| >= 4
  {
    Value(bytes[..4])
  }

  /** Whether the bytes begin with a whole frame of acceptable size. */
  predicate HasFrame(bytes: seq<Byte>) {
    |bytes| >= 4 && Claimed(bytes) <= MAX_ENTRY && |bytes| - 4 >= Claimed(bytes)
  }

  function Body(bytes: seq<Byte>): seq<Byte>
    requires HasFrame(bytes)
  {
    bytes[4..4 + Claimed(bytes)]
  }

  function Rest(bytes: seq<Byte>): seq<Byte>
    requires HasFrame(bytes)
  {
    bytes[4 + Claimed(bytes)..]
  }

  /** What the contents of log.bin mean. */
  function Decode(c: Codec, bytes: seq<Byte>): Result<seq<Entry>>
    decreases |bytes|
  {
    if bytes == [] then Ok([])
    else if !HasFrame(bytes) then Err
    else
      var entry := c.unmarshal(Body(bytes));
      var rest := Decode(c, Rest(bytes));
      if entry.None? || rest.Err? then Err else Ok([entry.value] + rest.value)
  }

  predicate Fits(c: Codec, e: Entry) {
    |c.marshal(e)| <= MAX_ENTRY
  }

  predicate AllFit(c: Codec, entries: seq<Entry>) {
    forall k :: 0 <= k < |entries| ==> Fits(c, entries[k])
  }

  lemma {:induction false} EncodeAppends(c: Codec, a: seq<Entry>, b: seq<Entry>)
    ensures Encode(c, a + b) == Encode(c, a) + Encode(c, b)
  {
    if a == [] {
      assert a + b == b;
    } else {
      EncodeAppends(c, a[1..], b);
      assert (a + b)[1..] == a[1..] + b;
    }
  }

  // ---------- Reading what was written ----------

  lemma FrameClaims(b: seq<Byte>, rest: seq<Byte>)
    requires |b| < TWO_32
    ensures |Frame(b) + rest| >= 4 && Claimed(Frame(b) + rest) == |b|
    ensures |b| <= MAX_ENTRY ==> var f := Frame(b) + rest; HasFrame(f) && Body(f) == b && Rest(f) == rest
  {
    Widths();
    ValueOfBigEndian(|b|, 4);
    assert (Frame(b) + rest)[..4] == BigEndian(|b|, 4);
  }

  lemma {:induction false} RoundTrip(c: Codec, entries: seq<Entry>)
    requires Decodes(c) && AllFit(c, entries)
    ensures Decode(c, Encode(c, entries)) == Ok(entries)
  {
    if entries != [] {
      assert Fits(c, entries[0]);
      FrameClaims(c.marshal(entries[0]), Encode(c, entries[1..]));
      RoundTrip(c, entries[1..]);
      assert [entries[0]] + entries[1..] == entries;
    }
  }

  /** The log reads back exactly if every encoding is at most 64 MiB; one longer entry, and nothing can be read. */
  lemma {:induction false} RoundTripExact(c: Codec, entries: seq<Entry>)
    requires Decodes(c) && forall k :: 0 <= k < |entries| ==> |c.marshal(entries[k])| < TWO_32
    ensures Decode(c, Encode(c, entries)) == if AllFit(c, entries) then Ok(entries) else Err
  {
    if AllFit(c, entries) {
      RoundTrip(c, entries);
    } else {
      FrameClaims(c.marshal(entries[0]), Encode(c, entries[1..]));
      if Fits(c, entries[0]) {
        assert !AllFit(c, entries[1..]) by {
          var k :| 0 <= k < |entries| && !Fits(c, entries[k]);
          assert entries[1..][k - 1] == entries[k];
        }
        RoundTripExact(c, entries[1..]);
      }
    }
  }

  // ---------- Reading a file cut short ----------

  /** The number of whole frames in the first `n` bytes. */
  function Whole(c: Codec, entries: seq<Entry>, n: nat): (k: nat)
    ensures k <= |entries|
  {
    if entries == [] || n < |Frame(c.marshal(entries[0]))| then 0
    else 1 + Whole(c, entries[1..], n - |Frame(c.marshal(entries[0]))|)
  }

  /** A frame cut short is not a frame. */
  lemma CutFrame(b: seq<Byte>, n: nat)
    requires |b| <= MAX_ENTRY && 0 < n < |Frame(b)|
    ensures !HasFrame(Frame(b)[..n])
  {
    if n >= 4 {
      FrameClaims(b, []);
      assert Frame(b) + [] == Frame(b);
      assert Frame(b)[..n][..4] == Frame(b)[..4];
    }
  }

  /** Of a file cut anywhere, reading returns exactly the whole entries if the cut is between two of them, and an
      error otherwise: it never returns an entry that was not written. */
  lemma {:induction false} CutExactly(c: Codec, entries: seq<Entry>, n: nat)
    requires Decodes(c) && AllFit(c, entries) && n <= |Encode(c, entries)|
    ensures var k := Whole(c, entries, n);
            Decode(c, Encode(c, entries)[..n])
            == if n == |Encode(c, entries[..k])| then Ok(entries[..k]) else Err
  {
    if entries != [] {
      assert Fits(c, entries[0]);
      var b, later := c.marshal(entries[0]), Encode(c, entries[1..]);
      var k := Whole(c, entries, n);
      if n < |Frame(b)| {
        assert Encode(c, entries)[..n] == Frame(b)[..n];
        if n > 0 {
          CutFrame(b, n);
        }
      } else {
        var m := n - |Frame(b)|;
        assert Encode(c, entries)[..n] == Frame(b) + later[..m];
        FrameClaims(b, later[..m]);
        CutExactly(c, entries[1..], m);
        assert entries[..k][1..] == entries[1..][..k - 1];
        assert entries[..k] == [entries[0]] + entries[1..][..k - 1];
      }
    }
  }

  /** A crash in the middle of an append: if the cut is between two entries, the log reads as the earlier entries and
      the new ones that are whole. A cut within an entry makes the whole log unreadable, the earlier entries with it. */
  lemma TornAppend(c: Codec, entries: seq<Entry>, more: seq<Entry>, n: nat)
    requires Decodes(c) && AllFit(c, entries) && AllFit(c, more) && n <= |Encode(c, more)|
    ensures var k := Whole(c, more, n);
            Decode(c, Encode(c, entries) + Encode(c, more)[..n])
            == if n == |Encode(c, more[..k])| then Ok(entries + more[..k]) else Err
  {
    TornBytes(c, entries, more, n);
    CutExactly(c, entries + more, |Encode(c, entries)| + n);
    WholeBeyond(c, entries, more, n);
    WholeEntries(c, entries, more, Whole(c, more, n));
  }

  lemma TornBytes(c: Codec, entries: seq<Entry>, more: seq<Entry>, n: nat)
    requires n <= |Encode(c, more)|
    ensures |Encode(c, entries)| + n <= |Encode(c, entries + more)|
    ensures Encode(c, entries + more)[..|Encode(c, entries)| + n] == Encode(c, entries) + Encode(c, more)[..n]
  {
    EncodeAppends(c, entries, more);
  }

  lemma WholeEntries(c: Codec, entries: seq<Entry>, more: seq<Entry>, k: nat)
    requires k <= |more|
    ensures (entries + more)[..|entries| + k] == entries + more[..k]
    ensures |Encode(c, (entries + more)[..|entries| + k])| == |Encode(c, entries)| + |Encode(c, more[..k])|
  {
    assert (entries + more)[..|entries| + k] == entries + more[..k];
    EncodeAppends(c, entries, more[..k]);
  }

  /** The cut is between two frames exactly if some number of whole frames has this length. */
  lemma BetweenFrames(c: Codec, entries: seq<Entry>, n: nat)
    ensures n == |Encode(c, entries[..Whole(c, entries, n)])|
            <==> exists k: nat :: k <= |entries| && n == |Encode(c, entries[..k])|
  {
    forall k: nat | k <= |entries| && n == |Encode(c, entries[..k])|
      ensures n == |Encode(c, entries[..Whole(c, entries, n)])|
    {
      BoundaryIsWhole(c, entries, k);
    }
  }

  lemma {:induction false} WholeBeyond(c: Codec, entries: seq<Entry>, more: seq<Entry>, n: nat)
    ensures Whole(c, entries + more, |Encode(c, entries)| + n) == |entries| + Whole(c, more, n)
  {
    if entries == [] {
      assert entries + more == more;
    } else {
      WholeBeyond(c, entries[1..], more, n);
      assert (entries + more)[1..] == entries[1..] + more;
    }
  }

  lemma BoundaryIsWhole(c: Codec, entries: seq<Entry>, j: nat)
    requires j <= |entries|
    ensures |Encode(c, entries[..Whole(c, entries, |Encode(c, entries[..j])|)])| == |Encode(c, entries[..j])|
  {
    assert entries[..j] + entries[j..] == entries;
    WholeBeyond(c, entries[..j], entries[j..], 0);
    if j < |entries| {
      assert |Frame(c.marshal(entries[j..][0]))| >= 4;
    }
    assert Whole(c, entries[j..], 0) == 0;
  }

  // ---------- state.bin ----------

  const STATE_MAGIC := 0x52414654
  const STATE_VERSION := 1

  datatype State = State(currentTerm: nat, votedFor: int, snapshotIndex: nat, snapshotTerm: nat)

  const NO_STATE := State(0, 0, 0, 0)

  /** The widths of the fields. */
  predicate InWidth(s: State) {
    && s.currentTerm < TWO_32 * TWO_32 && s.snapshotIndex < TWO_32 * TWO_32 && s.snapshotTerm < TWO_32 * TWO_32
    && -0x8000_0000 <= s.votedFor < 0x8000_0000
  }

  /** A signed 32-bit number as an unsigned one, and back. */
  function Unsigned(v: int): nat
    requires -0x8000_0000 <= v < 0x8000_0000
  {
    if v < 0 then v + TWO_32 else v
  }

  function Signed(u: nat): int
    requires u < TWO_32
  {
    if u >= 0x8000_0000 then u - TWO_32 else u
  }

  function EncodeState(s: State): (b: seq<Byte>)
    requires InWidth(s)
    ensures |b| == 36
  {
    BigEndian(STATE_MAGIC, 4) + BigEndian(STATE_VERSION, 4) + BigEndian(s.currentTerm, 8)
    + BigEndian(Unsigned(s.votedFor), 4) + BigEndian(s.snapshotIndex, 8) + BigEndian(s.snapshotTerm, 8)
  }

  /** `Panics` reads beyond the end of the file: only a length below 32 is refused, and the last field ends at 36. */
  datatype Loaded = Loaded(state: State) | TooShort | BadMagic | BadVersion | Panics

  function DecodeState(b: seq<Byte>): Loaded {
    if |b| < 32 then TooShort
    else if Value(b[0..4]) != STATE_MAGIC then BadMagic
    else if Value(b[4..8]) != STATE_VERSION then BadVersion
    else if |b| < 36 then Panics
    else
      ValueBounded(b[16..20]);
      Widths();
      Loaded(State(Value(b[8..16]), Signed(Value(b[16..20])), Value(b[20..28]), Value(b[28..36])))
  }

  lemma Slices(a: seq<Byte>, b: seq<Byte>, c: seq<Byte>, d: seq<Byte>, e: seq<Byte>, f: seq<Byte>)
    requires |a| == 4 && |b| == 4 && |c| == 8 && |d| == 4 && |e| == 8 && |f| == 8
    ensures var all := a + b + c + d + e + f;
            && all[0..4] == a && all[4..8] == b && all[8..16] == c
            && all[16..20] == d && all[20..28] == e && all[28..36] == f
  {
    var all := a + b + c + d + e + f;
    assert all == a + (b + c + d + e + f);
    assert all == (a + b) + (c + d + e + f);
    assert all == (a + b + c) + (d + e + f);
    assert all == (a + b + c + d) + (e + f);
  }

  lemma StateFields(s: State)
    requires InWidth(s)
    ensures var b := EncodeState(s);
            && b[0..4] == BigEndian(STATE_MAGIC, 4) && b[4..8] == BigEndian(STATE_VERSION, 4)
            && b[8..16] == BigEndian(s.currentTerm, 8) && b[16..20] == BigEndian(Unsigned(s.votedFor), 4)
            && b[20..28] == BigEndian(s.snapshotIndex, 8) && b[28..36] == BigEndian(s.snapshotTerm, 8)
  {
    Slices(BigEndian(STATE_MAGIC, 4), BigEndian(STATE_VERSION, 4), BigEndian(s.currentTerm, 8),
           BigEndian(Unsigned(s.votedFor), 4), BigEndian(s.snapshotIndex, 8), BigEndian(s.snapshotTerm, 8));
  }

  /** A state survives being written and read. */
  lemma StateRoundTrip(s: State)
    requires InWidth(s)
    ensures DecodeState(EncodeState(s)) == Loaded(s)
  {
    Widths();
    StateFields(s);
    ValueOfBigEndian(STATE_MAGIC, 4);
    ValueOfBigEndian(STATE_VERSION, 4);
    ValueOfBigEndian(s.currentTerm, 8);
    ValueOfBigEndian(Unsigned(s.votedFor), 4);
    ValueOfBigEndian(s.snapshotIndex, 8);
    ValueOfBigEndian(s.snapshotTerm, 8);
  }

  lemma SixFields(b: seq<Byte>)
    requires |b| == 36
    ensures b == b[0..4] + b[4..8] + b[8..16] + b[16..20] + b[20..28] + b[28..36]
  {}

  /** No other file of 36 bytes reads as the state. */
  lemma LoadedIsWritten(b: seq<Byte>)
    requires |b| == 36 && DecodeState(b).Loaded?
    ensures InWidth(DecodeState(b).state) && EncodeState(DecodeState(b).state) == b
  {
    Widths();
    ValueBounded(b[8..16]);
    ValueBounded(b[16..20]);
    ValueBounded(b[20..28]);
    ValueBounded(b[28..36]);
    BigEndianOfValue(b[0..4]);
    BigEndianOfValue(b[4..8]);
    BigEndianOfValue(b[8..16]);
    BigEndianOfValue(b[16..20]);
    BigEndianOfValue(b[20..28]);
    BigEndianOfValue(b[28..36]);
    SixFields(b);
  }

  /** A state file cut short is refused, but for cuts within its last four bytes, on which loading panics. */
  lemma CutState(s: State, n: nat)
    requires InWidth(s) && n < 36
    ensures DecodeState(EncodeState(s)[..n]) == if n < 32 then TooShort else Panics
  {
    if n >= 32 {
      Widths();
      StateFields(s);
      var b := EncodeState(s);
      ValueOfBigEndian(STATE_MAGIC, 4);
      ValueOfBigEndian(STATE_VERSION, 4);
      assert b[..n][0..4] == b[0..4] && b[..n][4..8] == b[4..8];
    }
  }

  // ---------- The files ----------

  /** Reads frames until the end of the file. */
  method ReadLogFile(c: Codec, file: seq<Byte>) returns (r: Result<seq<Entry>>)
    ensures r == Decode(c, file)
  {
    var entries := [];
    var pos := 0;
    assert file[0..] == file;
    PrependNothing(Decode(c, file));
    while true
      invariant 0 <= pos <= |file|
      invariant Decode(c, file) == Prepend(entries, Decode(c, file[pos..]))
      decreases |file| - pos
    {
      ghost var left := file[pos..];
      if pos == |file| {
        assert entries + [] == entries;
        return Ok(entries);
      }
      if pos + 4 > |file| {
        return Err;
      }
      var n := Value(file[pos..pos + 4]);
      assert left[..4] == file[pos..pos + 4];
      if n > MAX_ENTRY {
        return Err;
      }
      if pos + 4 + n > |file| {
        return Err;
      }
      assert Body(left) == file[pos + 4..pos + 4 + n];
      assert Rest(left) == file[pos + 4 + n..];
      var entry := c.unmarshal(file[pos + 4..pos + 4 + n]);
      if entry.None? {
        return Err;
      }
      PrependMore(entries, entry.value, Decode(c, Rest(left)));
      entries := entries + [entry.value];
      pos := pos + 4 + n;
    }
  }

  function Prepend(entries: seq<Entry>, r: Result<seq<Entry>>): Result<seq<Entry>> {
    if r.Ok? then Ok(entries + r.value) else Err
  }

  lemma PrependNothing(r: Result<seq<Entry>>)
    ensures Prepend([], r) == r
  {
    if r.Ok? {
      assert [] + r.value == r.value;
    }
  }

  lemma PrependMore(entries: seq<Entry>, e: Entry, r: Result<seq<Entry>>)
    ensures Prepend(entries + [e], r) == Prepend(entries, Prepend([e], r))
  {
    if r.Ok? {
      assert entries + [e] + r.value == entries + ([e] + r.value);
    }
  }

  class Wal {
    const codec: Codec
    var log: seq<Byte>
    var stateFile: Option<seq<Byte>>
    var state: State
    /** What has been appended since the last rewrite, and what that wrote. */
    ghost var entries: seq<Entry>

    ghost predicate Valid()
      reads this
    {
      && Decodes(codec) && log == Encode(codec, entries)
      && InWidth(state) && stateFile == (if state == NO_STATE && stateFile.None? then None else Some(EncodeState(state)))
    }

    constructor (codec: Codec)
      requires Decodes(codec)
      ensures Valid() && this.codec == codec && entries == [] && state == NO_STATE && stateFile == None
    {
      this.codec := codec;
      log, entries, state, stateFile := [], [], NO_STATE, None;
    }

    /** The frames of some entries, as both writers build them. */
    method Frames(list: seq<Entry>) returns (buf: seq<Byte>)
      ensures buf == Encode(codec, list)
    {
      buf := [];
      for k := 0 to |list|
        invariant buf == Encode(codec, list[..k])
      {
        EncodeAppends(codec, list[..k], [list[k]]);
        assert list[..k + 1] == list[..k] + [list[k]];
        var b := codec.marshal(list[k]);
        buf := buf + BigEndian(|b| % TWO_32, 4);
        buf := buf + b;
      }
      assert list[..|list|] == list;
    }

    /** Encodes the entries into one buffer and writes it at the end of the file. */
    method Append(more: seq<Entry>)
      requires Valid()
      modifies this`log, this`entries
      ensures Valid() && entries == old(entries) + more
      ensures log == old(log) + Encode(codec, more)
    {
      EncodeAppends(codec, entries, more);
      if |more| == 0 {
        assert entries + more == entries;
        return;
      }
      var buf := Frames(more);
      log := log + buf;
      entries := entries + more;
    }

    /** Writes a temporary file and renames it to log.bin. */
    method Rewrite(whole: seq<Entry>)
      requires Valid()
      modifies this`log, this`entries
      ensures Valid() && entries == whole
    {
      var tmp := Frames(whole);
      log := tmp;
      entries := whole;
    }

    /** The entries of log.bin without a leading run inside the snapshot. */
    method LoadLog() returns (r: Result<seq<Entry>>)
      requires Valid()
      ensures AllFit(codec, entries) ==>
                r == Ok(if state.snapshotIndex == 0 then entries else BeyondSnapshot(entries, state.snapshotIndex))
      ensures r.Ok? <==> Decode(codec, log).Ok?
    {
      r := ReadLogFile(codec, log);
      if AllFit(codec, entries) {
        RoundTrip(codec, entries);
      }
      if r.Err? || state.snapshotIndex == 0 {
        return;
      }
      var read := r.value;
      var keep := 0;
      while keep < |read| && read[keep].index <= state.snapshotIndex
        invariant keep <= |read|
        invariant BeyondSnapshot(read, state.snapshotIndex) == BeyondSnapshot(read[keep..], state.snapshotIndex)
      {
        assert read[keep..][1..] == read[keep + 1..];
        keep := keep + 1;
      }
      r := Ok(read[keep..]);
    }

    /** Replaces state.bin. */
    method PersistState(s: State)
      requires Valid() && InWidth(s)
      modifies this`state, this`stateFile
      ensures Valid() && state == s && stateFile == Some(EncodeState(s))
    {
      stateFile := Some(EncodeState(s));
      state := s;
    }

    /** What a restart reads is the state last persisted. */
    method LoadState() returns (loaded: Loaded)
      requires Valid()
      ensures loaded == Loaded(state)
    {
      if stateFile.None? {
        return Loaded(NO_STATE);
      }
      loaded := DecodeState(stateFile.value);
      StateRoundTrip(state);
    }
  }
}
