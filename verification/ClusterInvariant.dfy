/** What every reachable state of a cluster keeps. */
module ClusterInvariant {
  // The central idea: the log of the winner of a term, kept in `History.reigns`, is the one log that entries of that
  // term come from. Every log in the cluster agrees, up to each of its entries, with the log of that entry's term
  // (`Rooted`); and an acknowledged prefix is kept until some later winner started from a log without it (`Faithful`).

  import opened Quorums
  import opened RaftSpec
  import opened Cluster

  // ---------- Logs ----------

  predicate Agree(a: seq<Entry>, b: seq<Entry>, i: nat) {
    i <= |a| && i <= |b| && a[..i] == b[..i]
  }

  /** The term of the entry at a one-based index; zero before the first. */
  function TermAt(log: seq<Entry>, index: nat): nat {
    if 1 <= index <= |log| then log[index - 1].term else 0
  }

  predicate LogUpToDate(a: seq<Entry>, b: seq<Entry>) {
    UpToDate(TermAt(a, |a|), |a|, TermAt(b, |b|), |b|)
  }

  predicate RootedAt(h: History, log: seq<Entry>, k: nat)
    requires k < |log|
  {
    log[k].term in h.reigns && Agree(log, h.reigns[log[k].term].log, k + 1)
  }

  ghost predicate Rooted(h: History, log: seq<Entry>) {
    forall k :: 0 <= k < |log| ==> RootedAt(h, log, k)
  }

  predicate TermsWithin(log: seq<Entry>, term: nat) {
    forall k :: 0 <= k < |log| ==> log[k].term <= term
  }

  predicate Indexed(log: seq<Entry>) {
    forall k :: 0 <= k < |log| ==> log[k].index == k + 1
  }

  // ---------- Keeping what was acknowledged ----------

  /** Some term after `t` and up to `limit` was won from a log without the first `i` entries of `t`'s log. */
  ghost predicate Overruled(h: History, t: nat, i: nat, limit: nat)
    requires t in h.reigns
  {
    exists u: nat :: Overrules(h, u, t, i) && u <= limit
  }

  predicate Overrules(h: History, u: nat, t: nat, i: nat)
    requires t in h.reigns
  {
    t < u && u in h.reigns && !Agree(h.reigns[u].start, h.reigns[t].log, i)
  }

  ghost predicate Kept(h: History, log: seq<Entry>, t: nat, i: nat, limit: nat) {
    t in h.reigns && (Agree(log, h.reigns[t].log, i) || Overruled(h, t, i, limit))
  }

  /** The log holds all that the node acknowledged in terms up to `limit`, unless it was overruled. */
  ghost predicate Faithful(h: History, node: NodeId, log: seq<Entry>, limit: nat) {
    forall t: nat, i: nat :: t <= limit && (t, node) in h.acked && i <= h.acked[(t, node)]
                             ==> Kept(h, log, t, i, limit)
  }

  // ---------- Commitment ----------

  function Ackers(ids: set<NodeId>, h: History, t: nat, i: nat): set<NodeId> {
    set n | n in ids && Acked(h, t, n) >= i
  }

  /** The entry at `i` of the log of term `t` is of term `t` and on a majority. */
  predicate Committed(ids: set<NodeId>, h: History, t: nat, i: nat) {
    && t in h.reigns && 1 <= i <= |h.reigns[t].log| && h.reigns[t].log[i - 1].term == t
    && IsMajority(ids, Ackers(ids, h, t, i))
  }

  predicate CommitsAs(ids: set<NodeId>, h: History, log: seq<Entry>, k: nat, t: nat, i: nat, limit: nat) {
    Committed(ids, h, t, i) && t <= limit && k <= i && Agree(log, h.reigns[t].log, k)
  }

  ghost predicate CommitOk(ids: set<NodeId>, h: History, log: seq<Entry>, k: nat, limit: nat) {
    k <= |log| && (k == 0 || exists t: nat, i: nat :: CommitsAs(ids, h, log, k, t, i, limit))
  }

  // ---------- The history ----------

  ghost predicate BallotOk(ids: set<NodeId>, h: History, term: nat, voter: NodeId)
    requires (term, voter) in h.ballots
  {
    var b := h.ballots[(term, voter)];
    && voter in ids && term >= 1 && Rooted(h, b.log)
    && (term, b.candidate) in h.stands
    && LogUpToDate(h.stands[(term, b.candidate)], b.log)
    && (term !in h.reigns || voter in h.reigns[term].voters ==> Faithful(h, voter, b.log, term - 1))
  }

  ghost predicate StandOk(ids: set<NodeId>, h: History, term: nat, node: NodeId)
    requires (term, node) in h.stands
  {
    && node in ids && term >= 1
    && Rooted(h, h.stands[(term, node)]) && TermsWithin(h.stands[(term, node)], term - 1)
    && Indexed(h.stands[(term, node)])
  }

  predicate ReignOk(ids: set<NodeId>, h: History, term: nat)
    requires term in h.reigns
  {
    var r := h.reigns[term];
    && (term, r.leader) in h.stands && h.stands[(term, r.leader)] == r.start
    && Agree(r.start, r.log, |r.start|)
    && (forall k :: |r.start| <= k < |r.log| ==> r.log[k].term == term)
    && Indexed(r.log)
    && IsMajority(ids, r.voters)
    && (forall v :: v in r.voters ==> (term, v) in h.ballots && h.ballots[(term, v)].candidate == r.leader)
    && (term, r.leader) in h.acked && h.acked[(term, r.leader)] == |r.log|
  }

  predicate AckOk(ids: set<NodeId>, h: History, term: nat, node: NodeId)
    requires (term, node) in h.acked
  {
    term in h.reigns && node in ids && h.acked[(term, node)] <= |h.reigns[term].log|
  }

  ghost predicate HistoryOk(ids: set<NodeId>, h: History) {
    && (forall term, node :: (term, node) in h.ballots ==> BallotOk(ids, h, term, node))
    && (forall term, node :: (term, node) in h.stands ==> StandOk(ids, h, term, node))
    && (forall term :: term in h.reigns ==> ReignOk(ids, h, term))
    && (forall term, node :: (term, node) in h.acked ==> AckOk(ids, h, term, node))
  }

  // ---------- Nodes ----------

  /** Memory and disk agree, and the parts of the state that these runs do not use are at rest. */
  predicate AtRest(ids: set<NodeId>, s: NodeState) {
    && s.id in ids && s.peers == ids - {s.id} && s.removing == {}
    && s.snapshotIndex == 0 && s.snapshotTerm == 0 && s.unsaved == []
    && s.disk == Disk(s.currentTerm, s.votedFor, 0, 0, s.log)
    && s.appliedIndex <= s.commitIndex
    && s.matchIndex.Keys <= s.peers
  }

  /** What a node has done is dated no later than its current term. */
  ghost predicate Dated(h: History, s: NodeState) {
    && (forall term :: (term, s.id) in h.ballots ==> term <= s.currentTerm)
    && (forall term :: (term, s.id) in h.stands ==> term <= s.currentTerm)
    && (forall term :: (term, s.id) in h.tally ==> term <= s.currentTerm)
    && (forall term :: (term, s.id) in h.acked ==> term <= s.currentTerm)
  }

  predicate TallyOk(h: History, s: NodeState) {
    var counted := Tally(h, s.currentTerm, s.id);
    && |counted| == s.votes && s.id in counted
    && (forall v :: v in counted ==>
          (s.currentTerm, v) in h.ballots && h.ballots[(s.currentTerm, v)].candidate == s.id)
  }

  predicate CandidateOk(ids: set<NodeId>, h: History, s: NodeState) {
    && (s.currentTerm, s.id) in h.stands && h.stands[(s.currentTerm, s.id)] == s.log
    && TallyOk(h, s)
    && (s.currentTerm in h.reigns ==> h.reigns[s.currentTerm].leader != s.id)
  }

  predicate LeaderOk(ids: set<NodeId>, h: History, s: NodeState) {
    && s.currentTerm in h.reigns && h.reigns[s.currentTerm].leader == s.id
    && h.reigns[s.currentTerm].log == s.log
    && s.matchIndex.Keys == s.peers
    && (forall p :: p in s.matchIndex ==> s.matchIndex[p] <= Acked(h, s.currentTerm, p))
    && (forall p :: p in s.peers ==> Lookup(s.nextIndex, p) >= 1)
  }

  predicate VoteRemembered(h: History, s: NodeState) {
    (s.currentTerm, s.id) in h.ballots ==> s.votedFor == h.ballots[(s.currentTerm, s.id)].candidate
  }

  ghost predicate LogOk(ids: set<NodeId>, h: History, s: NodeState) {
    && Rooted(h, s.log) && TermsWithin(s.log, s.currentTerm) && Indexed(s.log)
    && Faithful(h, s.id, s.log, s.currentTerm)
    && CommitOk(ids, h, s.log, s.commitIndex, s.currentTerm)
  }

  ghost predicate NodeOk(variant: Variant, ids: set<NodeId>, h: History, s: NodeState) {
    && AtRest(ids, s) && Dated(h, s) && LogOk(ids, h, s)
    && (s.role == Candidate ==> CandidateOk(ids, h, s))
    && (s.role == Leader ==> LeaderOk(ids, h, s))
    && (variant.voteKept ==> VoteRemembered(h, s))
  }

  // ---------- Messages ----------

  predicate AskVoteOk(ids: set<NodeId>, h: History, m: VoteRequest) {
    && m.from == m.candidateId && m.from in ids && m.to in ids && m.from != m.to
    && (m.term, m.from) in h.stands
    && m.lastLogIndex == |h.stands[(m.term, m.from)]|
    && m.lastLogTerm == TermAt(h.stands[(m.term, m.from)], |h.stands[(m.term, m.from)]|)
  }

  predicate AnswerVoteOk(ids: set<NodeId>, h: History, m: VoteReply) {
    m.granted ==> (m.term, m.from) in h.ballots && h.ballots[(m.term, m.from)].candidate == m.to
                  && m.from in ids
  }

  ghost predicate AskAppendOk(ids: set<NodeId>, h: History, m: AppendRequest) {
    && m.term in h.reigns && h.reigns[m.term].leader == m.from && m.from != m.to && m.to in ids
    && m.prevLogIndex + |m.entries| <= |h.reigns[m.term].log|
    && m.entries == h.reigns[m.term].log[m.prevLogIndex..m.prevLogIndex + |m.entries|]
    && m.prevLogTerm == TermAt(h.reigns[m.term].log, m.prevLogIndex)
    && CommitOk(ids, h, h.reigns[m.term].log, m.leaderCommit, m.term)
    && (|m.entries| < MAX_BATCH ==> m.leaderCommit <= m.prevLogIndex + |m.entries|)
  }

  predicate AnswerAppendOk(ids: set<NodeId>, h: History, m: AppendReply) {
    m.success ==> m.from in ids && m.matchIndex <= Acked(h, m.term, m.from)
                  && m.term in h.reigns && h.reigns[m.term].leader == m.to && m.from != m.to
  }

  ghost predicate MessageOk(ids: set<NodeId>, h: History, m: Message) {
    match m
    case AskVote(ask) => AskVoteOk(ids, h, ask)
    case AnswerVote(answer) => AnswerVoteOk(ids, h, answer)
    case AskAppend(append) => AskAppendOk(ids, h, append)
    case AnswerAppend(outcome) => AnswerAppendOk(ids, h, outcome)
  }

  /** A vote is in one place: still asked for, answered, or counted. */
  ghost predicate VotesOnce(h: History, net: set<Message>) {
    && (forall m :: AskVote(m) in net ==>
          AnswerVote(VoteReply(m.to, m.from, m.term, true)) !in net && m.to !in Tally(h, m.term, m.from))
    && (forall m :: AnswerVote(m) in net && m.granted ==> m.from !in Tally(h, m.term, m.to))
  }

  ghost predicate Inv(c: State) {
    && NO_ONE !in c.ids && c.nodes.Keys == c.ids
    && HistoryOk(c.ids, c.history)
    && (forall n :: n in c.nodes ==> c.nodes[n].id == n && NodeOk(c.variant, c.ids, c.history, c.nodes[n]))
    && (forall m :: m in c.net ==> MessageOk(c.ids, c.history, m))
    && VotesOnce(c.history, c.net)
  }
}
