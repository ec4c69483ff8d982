/**
 A rewritten INSERT brings in no nondeterministic expression. What it adds is quiet: names in quotes, numbers and
 commas, none of which is a trigger, turns an earlier token into one, or moves the end of a call.
 */
module InsertClean {
  import opened Tokenizer
  import opened Calls
  import opened Quoting
  import opened Inserts
  import opened InsertLaws

  /** A token that neither begins, opens or closes anything nor stands for a parameter. */
  predicate IsQuiet(t: Token) {
    t.text != "(" && t.text != ")" && t.text != "?" && !IsCallName(t) && !IsClockName(t)
  }

  predicate AllQuiet(s: seq<Token>) {
    forall k :: 0 <= k < |s| ==> IsQuiet(s[k])
  }

  /** `b` is `a` with quiet tokens put in. */
  predicate Padded(a: seq<Token>, b: seq<Token>)
    decreases |b|
  {
    (a == [] && b == [])
    || (a != [] && b != [] && a[0] == b[0] && Padded(a[1..], b[1..]))
    || (b != [] && IsQuiet(b[0]) && Padded(a, b[1..]))
  }

  lemma {:induction false} PaddedSame(a: seq<Token>)
    ensures Padded(a, a)
  {
    if a != [] {
      PaddedSame(a[1..]);
    }
  }

  lemma PaddedCopy(t: Token, a: seq<Token>, b: seq<Token>)
    requires Padded(a, b)
    ensures Padded([t] + a, [t] + b)
  {
    assert ([t] + a)[1..] == a && ([t] + b)[1..] == b;
  }

  lemma PaddedInsert(t: Token, a: seq<Token>, b: seq<Token>)
    requires IsQuiet(t) && Padded(a, b)
    ensures Padded(a, [t] + b)
  {
    assert ([t] + b)[1..] == b;
  }

  lemma {:induction false} PaddedPrefix(x: seq<Token>, a: seq<Token>, b: seq<Token>)
    requires Padded(a, b)
    ensures Padded(x + a, x + b)
  {
    if x == [] {
      assert x + a == a && x + b == b;
    } else {
      PaddedPrefix(x[1..], a, b);
      PaddedCopy(x[0], x[1..] + a, x[1..] + b);
      assert x + a == [x[0]] + (x[1..] + a) && x + b == [x[0]] + (x[1..] + b);
    }
  }

  lemma {:induction false} PaddedExtra(x: seq<Token>, a: seq<Token>, b: seq<Token>)
    requires AllQuiet(x) && Padded(a, b)
    ensures Padded(a, x + b)
  {
    if x == [] {
      assert x + b == b;
    } else {
      PaddedExtra(x[1..], a, b);
      PaddedInsert(x[0], a, x[1..] + b);
      assert x + b == [x[0]] + (x[1..] + b);
    }
  }

  lemma PaddedGroup(group: seq<Token>, extra: seq<Token>, a: seq<Token>, b: seq<Token>)
    requires |group| >= 1 && AllQuiet(extra) && Padded(a, b)
    ensures Padded(group + a, WithExtra(group, extra) + b)
  {
    var front, close := group[..|group| - 1], group[|group| - 1];
    PaddedCopy(close, a, b);
    PaddedExtra(extra, [close] + a, [close] + b);
    PaddedPrefix(front, [close] + a, extra + ([close] + b));
    assert group + a == front + ([close] + a);
    assert WithExtra(group, extra) + b == front + (extra + ([close] + b));
  }

  // ---------- Padding makes no trigger ----------

  lemma QuietKeepsSimilar(t: Token, a: seq<Token>, b: seq<Token>)
    requires IsQuiet(t) && Similar(a, b)
    ensures Similar(a, [t] + b)
  {
    HeadNext(t, b);
    forall depth: nat | depth >= 1 ensures ClosesAlike(a, [t] + b, depth) {
      ClosesNext(t, b, depth);
      assert ClosesAlike(a, b, depth);
    }
  }

  lemma QuietIsNoTrigger(t: Token, b: seq<Token>)
    requires IsQuiet(t)
    ensures !IsTrigger([t] + b)
  {}

  predicate NoTriggerAt(a: seq<Token>, rest: seq<Token>, i: nat)
  {
    i < |a| ==> !IsTrigger(a[i..] + rest)
  }

  ghost predicate NoTriggers(a: seq<Token>, rest: seq<Token>) {
    forall i :: NoTriggerAt(a, rest, i)
  }

  lemma NoTriggersNext(t: Token, a: seq<Token>, rest: seq<Token>)
    requires NoTriggers([t] + a, rest)
    ensures !IsTrigger([t] + (a + rest)) && NoTriggers(a, rest)
  {
    var all := [t] + a;
    assert NoTriggerAt(all, rest, 0);
    assert all[0..] + rest == [t] + (a + rest);
    forall i: nat ensures NoTriggerAt(a, rest, i) {
      assert NoTriggerAt(all, rest, i + 1);
      if i < |a| {
        assert all[i + 1..] == a[i..];
      }
    }
  }

  /** Padding before similar tokens: similar again, and clean if what was padded held no trigger. */
  lemma {:induction false} PaddedIsClean(a: seq<Token>, b: seq<Token>, rest: seq<Token>, out: seq<Token>)
    requires Padded(a, b) && Similar(rest, out) && Clean(out) && NoTriggers(a, rest)
    requires AllProper(a + rest) && AllProper(b + out)
    ensures Similar(a + rest, b + out) && Clean(b + out)
    decreases |b|, 0
  {
    if b == [] {
      assert a + rest == rest && b + out == out;
    } else if a != [] && a[0] == b[0] && Padded(a[1..], b[1..]) {
      assert a == [a[0]] + a[1..] && b == [b[0]] + b[1..];
      CopyIsClean(a[0], a[1..], b[1..], rest, out);
    } else {
      assert b == [b[0]] + b[1..];
      QuietIsClean(b[0], a, b[1..], rest, out);
    }
  }

  lemma CleanNext(t: Token, s: seq<Token>)
    requires !IsTrigger([t] + s) && Clean(s)
    ensures Clean([t] + s)
  {
    assert ([t] + s)[1..] == s;
  }

  lemma ProperNext(t: Token, s: seq<Token>)
    requires AllProper([t] + s)
    ensures IsProper(t) && AllProper(s)
  {
    assert ([t] + s)[0] == t && ([t] + s)[1..] == s;
    ProperSuffix([t] + s, 1);
  }

  lemma CopyIsClean(t: Token, a: seq<Token>, b: seq<Token>, rest: seq<Token>, out: seq<Token>)
    requires Padded(a, b) && Similar(rest, out) && Clean(out) && NoTriggers([t] + a, rest)
    requires AllProper([t] + a + rest) && AllProper([t] + b + out)
    ensures Similar([t] + a + rest, [t] + b + out) && Clean([t] + b + out)
    decreases |b|, 1
  {
    hide Similar, Padded, Clean, IsTrigger, NoTriggers, AllProper;
    assert [t] + a + rest == [t] + (a + rest) && [t] + b + out == [t] + (b + out);
    ProperNext(t, a + rest);
    ProperNext(t, b + out);
    NoTriggersNext(t, a, rest);
    PaddedIsClean(a, b, rest, out);
    SimilarAfterToken(t, a + rest, b + out);
    NoNewTrigger(t, a + rest, b + out);
    CleanNext(t, b + out);
  }

  lemma QuietIsClean(t: Token, a: seq<Token>, b: seq<Token>, rest: seq<Token>, out: seq<Token>)
    requires IsQuiet(t) && Padded(a, b) && Similar(rest, out) && Clean(out) && NoTriggers(a, rest)
    requires AllProper(a + rest) && AllProper([t] + b + out)
    ensures Similar(a + rest, [t] + b + out) && Clean([t] + b + out)
    decreases |b|, 1
  {
    hide Similar, Padded, Clean, IsTrigger, NoTriggers, AllProper;
    assert [t] + b + out == [t] + (b + out);
    ProperNext(t, b + out);
    PaddedIsClean(a, b, rest, out);
    QuietKeepsSimilar(t, a + rest, b + out);
    QuietIsNoTrigger(t, b + out);
    CleanNext(t, b + out);
  }

  lemma {:induction false} PaddedIsProper(a: seq<Token>, b: seq<Token>)
    requires Padded(a, b) && AllProper(a)
    ensures AllProper(b)
    decreases |b|
  {
    if b != [] {
      assert b == [b[0]] + b[1..];
      if a != [] && a[0] == b[0] && Padded(a[1..], b[1..]) {
        ProperSuffix(a, 1);
        PaddedIsProper(a[1..], b[1..]);
      } else {
        PaddedIsProper(a, b[1..]);
      }
    }
  }

  // ---------- Rewritten rows are padded ----------

  lemma ExtraIsQuiet(column: string, id: int)
    ensures AllQuiet(ColumnTokens(column)) && AllQuiet(IdTokens(id))
  {
    DecimalIsPlain(id);
    NumberIsPlain(Digits(if id < 0 then -id else id));
    ColumnIsQuoted(column);
  }

  lemma ColumnIsQuoted(column: string)
    ensures QuoteIdent(column)[0] == '"'
  {}

  lemma PaddedRow(skip: seq<Token>, group: seq<Token>, gap: seq<Token>, extra: seq<Token>, a: seq<Token>, b: seq<Token>)
    requires |group| >= 1 && AllQuiet(extra) && Padded(a, b)
    ensures Padded(RowAnd(skip, group, gap, a), RowAnd(skip, WithExtra(group, extra), gap, b))
  {
    hide Padded, WithExtra, AllQuiet;
    PaddedPrefix(gap, a, b);
    PaddedGroup(group, extra, gap + a, gap + b);
    PaddedPrefix(skip, group + (gap + a), WithExtra(group, extra) + (gap + b));
  }

  predicate RowsPad(s: seq<Token>, ids: seq<int>) {
    var r := ValuesRows(s);
    r.Rows? && |r.rest| <= |s| && Padded(s[..|s| - |r.rest|], AddIds(s, |s| - |r.rest|, ids))
  }

  lemma PrefixIs(s: seq<Token>, a: seq<Token>, b: seq<Token>)
    requires s == a + b
    ensures s[..|s| - |b|] == a
  {}

  lemma RowsPadIs(s: seq<Token>, rows: seq<seq<Token>>, rest: seq<Token>, body: seq<Token>, out: seq<Token>,
                  ids: seq<int>)
    requires ValuesRows(s) == Rows(rows, rest) && s == body + rest && |body| <= |s|
    requires out == AddIds(s, |body|, ids) && Padded(body, out)
    ensures RowsPad(s, ids)
  {
    hide ValuesRows, AddIds, Padded;
    PrefixIs(s, body, rest);
  }

  lemma LastRowPads(skip: seq<Token>, group: seq<Token>, gap: seq<Token>, rest: seq<Token>, id: int)
    requires IsRow(skip, group, gap) && group != [] && NoneOpens(skip) && NoneOpens(gap)
    requires StartsSolid(rest) && !BeginsWith(rest, ",")
    ensures RowsPad(RowAnd(skip, group, gap, rest), [id])
  {
    var s, body := RowAnd(skip, group, gap, rest), RowAnd(skip, group, gap, []);
    assert AddIds(rest, 0, []) == [];
    assert |body| == |skip| + |group| + |gap|;
    Regroup(skip, group, gap, [], rest);
    assert [] + rest == rest && [id] + [] == [id];
    ValuesRowsIs(skip, group, gap, rest);
    hide *;
    AddIdsRow(skip, group, gap, rest, 0, |body|, id, [], []);
    ExtraIsQuiet("", id);
    PaddedSame([]);
    PaddedRow(skip, group, gap, IdTokens(id), [], []);
    RowsPadIs(s, [group], rest, body, RowAnd(skip, WithExtra(group, IdTokens(id)), gap, []), [id]);
  }

  lemma MoreRowsPad(skip: seq<Token>, group: seq<Token>, gap: seq<Token>, comma: Token, later: seq<Token>,
                    id: int, ids: seq<int>)
    requires IsRow(skip, group, gap) && NoneOpens(skip) && NoneOpens(gap)
    requires comma.text == "," && !IsSkippable(comma) && RowsPad(later, ids)
    ensures RowsPad(RowAnd(skip, group, gap, [comma] + later), [id] + ids)
  {
    hide Padded, AddIds, WithExtra, AllQuiet, NoneOpens, ValuesRows;
    var s, rest := RowAnd(skip, group, gap, [comma] + later), ValuesRows(later).rest;
    var left := |later| - |rest|;
    var body, out := later[..left], AddIds(later, left, ids);
    ValuesRowsMore(skip, group, gap, comma, later);
    MoreRowsAdded(skip, group, gap, comma, later, left, [comma] + later, |s| - |rest|, id, ids, out);
    ExtraIsQuiet("", id);
    PaddedPrefix([comma], body, out);
    PaddedRow(skip, group, gap, IdTokens(id), [comma] + body, [comma] + out);
    MoreRowsPrefix(skip, group, gap, comma, later, left);
  }

  lemma MoreRowsPrefix(skip: seq<Token>, group: seq<Token>, gap: seq<Token>, comma: Token, later: seq<Token>, left: nat)
    requires left <= |later|
    ensures var s := RowAnd(skip, group, gap, [comma] + later);
            s[..|s| - |later| + left] == RowAnd(skip, group, gap, [comma] + later[..left])
  {
    assert later == later[..left] + later[left..];
    var a := RowAnd(skip, group, gap, [comma] + later[..left]);
    assert RowAnd(skip, group, gap, [comma] + later) == a + later[left..];
  }

  lemma {:induction false} RowsArePadded(s: seq<Token>, ids: seq<int>)
    requires AllProper(s) && ValuesRows(s).Rows? && |ids| == |ValuesRows(s).rows|
    ensures RowsPad(s, ids)
    decreases |s|
  {
    hide RowsPad;
    var skip, group, gap, rest := FirstRow(s);
    ValuesRowsIs(skip, group, gap, rest);
    SkipsDoNotOpen(skip);
    SkipsDoNotOpen(gap);
    if !BeginsWith(rest, ",") {
      assert ids == [ids[0]];
      LastRowPads(skip, group, gap, rest, ids[0]);
    } else {
      assert rest == [rest[0]] + rest[1..] && ids == [ids[0]] + ids[1..];
      RowsArePadded(rest[1..], ids[1..]);
      MoreRowsPad(skip, group, gap, rest[0], rest[1..], ids[0], ids[1..]);
    }
  }
}
