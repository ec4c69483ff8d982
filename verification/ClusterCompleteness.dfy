/** Log matching and leader completeness, from the history alone. */
module ClusterCompleteness {
  import opened Quorums
  import opened RaftSpec
  import opened Cluster
  import opened ClusterInvariant
  import opened ClusterGrowth

  /** Entries of a term's log are of that term or earlier, and those it started with are earlier. */
  lemma ReignTerms(ids: set<NodeId>, h: History, term: nat)
    requires HistoryOk(ids, h) && term in h.reigns
    ensures TermsWithin(h.reigns[term].log, term)
    ensures term >= 1 && TermsWithin(h.reigns[term].start, term - 1)
    ensures forall k :: 0 <= k < |h.reigns[term].start| ==> h.reigns[term].log[k].term < term
    ensures Rooted(h, h.reigns[term].log)
  {
    var r := h.reigns[term];
    assert ReignOk(ids, h, term);
    assert StandOk(ids, h, term, r.leader);
    forall k | 0 <= k < |r.log| ensures r.log[k].term <= term && RootedAt(h, r.log, k) && (k < |r.start| ==> r.log[k].term < term) {
      if k < |r.start| {
        assert r.log[..|r.start|][k] == r.start[..|r.start|][k];
        assert RootedAt(h, r.start, k);
        AgreeFlip(r.start, r.log, |r.start|);
        AgreeTransitive(r.log, r.start, h.reigns[r.start[k].term].log, k + 1) by {
          AgreeDown(r.log, r.start, k + 1, |r.start|);
        }
      }
    }
  }

  lemma AgreeFlip(a: seq<Entry>, b: seq<Entry>, i: nat)
    requires Agree(a, b, i)
    ensures Agree(b, a, i)
  {
  }

  /** Terms never decrease along a log. */
  lemma TermsAscend(ids: set<NodeId>, h: History, log: seq<Entry>, j: nat, k: nat)
    requires HistoryOk(ids, h) && Rooted(h, log) && j <= k < |log|
    ensures log[j].term <= log[k].term
  {
    var t := log[k].term;
    assert RootedAt(h, log, k);
    ReignTerms(ids, h, t);
    assert log[j] == log[..k + 1][j] == h.reigns[t].log[..k + 1][j];
  }

  /** Two logs with an entry of one term at one index are the same up to it. */
  lemma LogsMatch(ids: set<NodeId>, h: History, a: seq<Entry>, b: seq<Entry>, k: nat)
    requires HistoryOk(ids, h) && Rooted(h, a) && Rooted(h, b)
    requires k < |a| && k < |b| && a[k].term == b[k].term
    ensures Agree(a, b, k + 1)
  {
    assert RootedAt(h, a, k) && RootedAt(h, b, k);
  }

  /** A log that is at least as up to date as one holding the first `i` entries of term `t`'s log holds them too,
      if all terms won in between started from them. */
  lemma UpToDateKeeps(ids: set<NodeId>, h: History, newer: seq<Entry>, older: seq<Entry>, t: nat, i: nat, u: nat)
    requires HistoryOk(ids, h) && Rooted(h, newer) && Rooted(h, older) && t < u && TermsWithin(newer, u - 1)
    requires t in h.reigns && 1 <= i <= |h.reigns[t].log| && h.reigns[t].log[i - 1].term == t
    requires Agree(older, h.reigns[t].log, i) && LogUpToDate(newer, older)
    requires forall w: nat :: t < w < u && w in h.reigns ==> Agree(h.reigns[w].start, h.reigns[t].log, i)
    ensures Agree(newer, h.reigns[t].log, i)
  {
    assert older[i - 1] == older[..i][i - 1] == h.reigns[t].log[..i][i - 1];
    TermsAscend(ids, h, older, i - 1, |older| - 1);
    assert |newer| > 0;
    var last := |newer| - 1;
    var s := newer[last].term;
    assert RootedAt(h, newer, last);
    if s == older[|older| - 1].term {
      LogsMatch(ids, h, newer, older, |older| - 1) by {
        assert RootedAt(h, older, |older| - 1);
      }
      AgreeDown(newer, older, i, |older|);
    } else {
      assert t < s < u;
      ReignTerms(ids, h, s);
      var r := h.reigns[s];
      assert ReignOk(ids, h, s);
      assert newer[last] == newer[..last + 1][last] == r.log[..last + 1][last];
      assert |r.start| < |newer|;
      AgreeDown(newer, r.log, i, last + 1);
      AgreeDown(r.start, r.log, i, |r.start|);
    }
  }

  lemma {:induction false} LeaderComplete(ids: set<NodeId>, h: History, t: nat, i: nat, u: nat)
    requires HistoryOk(ids, h) && Committed(ids, h, t, i) && t < u && u in h.reigns
    ensures Agree(h.reigns[u].start, h.reigns[t].log, i)
    decreases u
  {
    var r := h.reigns[u];
    assert ReignOk(ids, h, u);
    var v := MajoritiesMeet(ids, r.voters, Ackers(ids, h, t, i));
    var ballot := h.ballots[(u, v)];
    assert BallotOk(ids, h, u, v);
    forall w: nat | t < w < u && w in h.reigns ensures Agree(h.reigns[w].start, h.reigns[t].log, i) {
      LeaderComplete(ids, h, t, i, w);
    }
    assert Kept(h, ballot.log, t, i, u - 1);
    assert Agree(ballot.log, h.reigns[t].log, i);
    assert StandOk(ids, h, u, r.leader);
    UpToDateKeeps(ids, h, r.start, ballot.log, t, i, u);
  }

  /** What a log has committed by a term is in the log of that term and of every later one. */
  lemma CommittedIsKept(ids: set<NodeId>, h: History, log: seq<Entry>, k: nat, limit: nat, u: nat)
    requires HistoryOk(ids, h) && CommitOk(ids, h, log, k, limit) && limit <= u && u in h.reigns
    ensures Agree(log, h.reigns[u].log, k)
  {
    if k > 0 {
      var t: nat, i: nat :| CommitsAs(ids, h, log, k, t, i, limit);
      if t < u {
        LeaderComplete(ids, h, t, i, u);
        assert ReignOk(ids, h, u);
        var start := h.reigns[u].start;
        AgreeDown(start, h.reigns[u].log, k, |start|);
        AgreeDown(start, h.reigns[t].log, k, i);
      }
    }
  }

  /** Two logs agree on all that both have committed. */
  lemma CommitsAgree(ids: set<NodeId>, h: History, a: seq<Entry>, b: seq<Entry>, k: nat, ta: nat, tb: nat)
    requires HistoryOk(ids, h) && CommitOk(ids, h, a, k, ta) && CommitOk(ids, h, b, k, tb)
    ensures Agree(a, b, k)
  {
    if k > 0 {
      var t: nat, i: nat :| CommitsAs(ids, h, a, k, t, i, ta);
      var u: nat, j: nat :| CommitsAs(ids, h, b, k, u, j, tb);
      assert CommitsAs(ids, h, a, k, t, i, t) && CommitsAs(ids, h, b, k, u, j, u);
      if t <= u {
        CommittedIsKept(ids, h, a, k, t, u);
      } else {
        CommittedIsKept(ids, h, b, k, u, t);
      }
    }
  }

  /** A shorter committed prefix is committed. */
  lemma CommitOkDown(ids: set<NodeId>, h: History, log: seq<Entry>, j: nat, k: nat, limit: nat)
    requires CommitOk(ids, h, log, k, limit) && j <= k
    ensures CommitOk(ids, h, log, j, limit)
  {
    if j > 0 {
      var t: nat, i: nat :| CommitsAs(ids, h, log, k, t, i, limit);
      AgreeDown(log, h.reigns[t].log, j, k);
      assert CommitsAs(ids, h, log, j, t, i, limit);
    }
  }
}
