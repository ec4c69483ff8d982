# A verified model of the replicated SQLite store

The system replicates one SQLite database over a small cluster. A leader turns each statement into a deterministic
command, a Raft log carries the commands to every node, and each node applies them to its own database. The
linearizability of single-key histories is checked by a separate tool. The project models these parts of the system
and proves what they promise, for all inputs and all runs:

- **The Raft node** (`internal/raft/node.go`). `RaftSpec` gives every locked section as a function from state to
  state, branch by branch as the code has it. `RaftNode` is the node as a class whose methods update its fields in
  place; each method is proved against its function. `NodeLaws`, `Compaction` and `Replication` prove what single
  handlers and a leader with one follower guarantee, `NodeFlaws` where single handlers do not.
- **The cluster.** `Cluster` runs the node's functions over a set of messages that may be lost, delayed, reordered and
  (append traffic) repeated, with crashes and restarts at every step. `ClusterInvariant` to `ClusterProof` hold the
  inductive invariant, `ClusterSafety` the theorems of Figure 3 of Ongaro and Ousterhout, "In Search of an
  Understandable Consensus Algorithm" (extended version), for every run and between any two of its moments.
- **The database behind the log.** `Apply` is the store's transaction and the apply loop; `ClusterStore` puts one on
  every node of the cluster and proves that replicas agree. `Wal` is the byte layout of `log.bin` and `state.bin`.
- **The linearizability checker.** `Lincheck` says what linearizable means, independently of the search; `LincheckExact`
  proves that the orders the search can complete are the linearizations; `LincheckSolver` is the backtracking search
  with its four pieces of mutable state, and `Check`.
- **The SQL rewriter.** `Tokenizer`, `Calls`, `Quoting`, `Inserts` and `RewriteRun` are its functions on tokens,
  `Rewriter` its loops and its class; `InsertLaws`, `InsertClean`, `InsertProof`, `DefaultLaws` and `RewriteLaws` prove
  what a rewritten statement is, `RewriteParams`, `RewriteBindings` and `RewriteKept` which parameters it is left with.
- **Inlined parameters.** `SqlScan` is the wire protocol's scanner of quotes and comments and its splitting into
  statements; `Inlining` writes parameters into the text of buffered statements and proves that the cuts stay, and
  `InlinedText` that each statement is the rendering of its own, and when a literal turns the line into a comment.

Run the verifier on the whole project with `dafny verify dfyconfig.toml`.

## Where the code is weaker than its promise

The model keeps the code as it is. In these places a promise fails, and the project says exactly when.

- `stepDownLocked` clears the vote even when the term does not rise, and `AppendEntries` calls it on an equal term.
  `NodeFlaws.VoteLostExactly` says when a vote is lost; `ClusterFlaws.TwoLeadersDiverge` is a run of three nodes, as
  written, in which two nodes lead one term and commit different entries at one index. The theorems hold for runs as
  written in which no granted vote contradicts an earlier one of the same term, and without that condition for runs in
  which such a request leaves the vote alone.
- A follower clamps its commit index to its own last index. `NodeFlaws.ClampExact`: every follower of the leader stays
  within the leader's log exactly if the request's commit index lies within the entries it covers, or the terms leave no
  room for a stale entry after them. The runs of the theorems deliver a request with a full batch only if its commit
  index lies within it; for all other requests that is proved. In runs with the clamp to what the request covers there
  is no such condition: with both repairs the theorems hold of all runs (`ClusterSafety.RepairedIsGuarded`).
- The commit loop counts the leader's own copy before it is on disk. `NodeFlaws.UnsavedCommitExact` says, of the state
  before the loop, exactly when what is committed survives a crash; `NodeFlaws.UnsavedCommitLost` is three nodes where
  it does not.
- `logTermAt` answers the snapshot's term for every index inside the snapshot. A follower that holds all a request
  covers refuses it exactly if the request starts inside the snapshot in an older term: `NodeLaws.RefusedExactly`, with
  `NodeFlaws.CompactedRefuses` for its input. `Compaction.AnswerChangesExactly` says which answers compacting changes.
- The checker sorts a client's operations by start. `LincheckExact.TiedStartsMissed` is a linearizable history with a
  tie that it may reject; without ties it is exact.
- A transaction that fails for a reason of its own (it cannot begin or commit) is skipped by the apply loop. That is
  harmless on every database exactly if the entry holds no statement (`Apply.SkippedExactly`). A replica that skipped a
  statement applies it after all if it restarts before it has recorded a later entry, and otherwise never:
  `Apply.RunAfterSkip`, `Apply.SkipLasts`, `Apply.SkippedStaysBehind`.
- `state.bin` is refused below 32 bytes although its last field ends at 36: `Wal.CutState`. An entry whose encoding is
  longer than 64 MiB can be written and makes the whole log unreadable: `Wal.RoundTripExact`. So does an append that is
  cut within an entry: `Wal.TornAppend`.
- Each `RANDOMBLOB(?)` after the first takes the parameter of a later placeholder, one place further with each:
  `RewriteBindings.ParamsTaken`. Any other placeholder inside a replaced call vanishes with it while its parameter
  stays. So all bindings are kept exactly if at most one length is a placeholder and no replaced call holds another one:
  `RewriteKept.BindingsKeptExactly`, with `RewriteKept.TwoLengthsMisbind` and `RewriteKept.NowDropsPlaceholder`.
- In the DEFAULT VALUES form, a table or alias named `NOW` or `RANDOMBLOB` right before DEFAULT turns into a call:
  `DefaultLaws.DefaultCleanExactly`, with the statement of `DefaultLaws.DefaultBringsCall`.
- A column name with two apostrophes or two backquotes in a row does not read back: `Quoting.QuoteIdentExact`.
- A negative number inlined after a minus sign begins a comment: `InlinedText.MinusBeginsComment`; without one, all cuts
  are kept: `Inlining.InliningKeepsCuts`; with one, `InlinedText.CutsSurviveExactly` says when. The scanner ends `/*/` as a whole comment, the rewriter does not:
  `InlinedText.CommentEndsAgree`.
- Removing two nodes at once is safe exactly in an even cluster, three never: `Quorums.RemovalOverlapExact`.

## Model

| member | source | states |
|---|---|---|
| ClusterSafety.ElectionSafety | internal/raft/node.go:746-828 | In no guarded run, with any loss, reordering, crash and restart, are two nodes leaders of one term, at the same or at different moments |
| ClusterSafety.RepairedIsGuarded | internal/raft/node.go:1284-1388 | With the vote kept within its term and the commit index clamped to what a request covers, every run is guarded, so that the theorems hold of it |
| ClusterSafety.LogMatching | internal/raft/node.go:1284-1352 | Entries of one index and term have the same entries before them, in any two logs of a run at any two moments |
| ClusterSafety.LeaderCompleteness | internal/raft/node.go:1016-1053 | What a node has committed is in the log of every leader of a later term, and of its own term from then on |
| ClusterSafety.StateMachineSafety | internal/raft/node.go:1284-1388 | Two nodes never differ on a prefix that both have committed, at any two moments of a run |
| ClusterSafety.AppliedEntriesAgree | internal/raft/node.go:1068-1110 | What two apply loops hand to their databases at one index is the same entry |
| ClusterSafety.RestartNeverRefused | internal/raft/node.go:254-260 | A node of a run can always restart: its database is never ahead of its recovered log |
| ClusterProof.StepKeepsInv | internal/raft/node.go:746-1388 | Every guarded step of a cluster keeps the invariant and only adds to the history |
| ClusterCompleteness.LeaderComplete | internal/raft/node.go:1264-1269 | An entry committed in a term is in the log with which each later leader began, by the up-to-date check and the overlap of majorities |
| ClusterFlaws.TwoLeadersDiverge | internal/raft/node.go:800-807 | As written, a run exists in which two nodes lead one term and commit different entries at one index |
| ClusterStore.DatabaseIsFoldOfLog | internal/raft/node.go:1068-1115 | At every moment of a run a node's database is what its applied entries produce in order, each committed once |
| ClusterStore.ReplicasAgree | internal/store/store.go:167-221 | Two nodes that have applied up to the same index have equal databases, at whatever moments |
| ClusterStore.AppliedStep | internal/raft/node.go:1079-1110 | Only the apply loop and a restart move the applied index |
| NodeLaws.CommitRuleExact | internal/raft/node.go:1016-1053 | The commit index moves exactly if Figure 2 allows some index, then to the largest allowed, and never back |
| NodeLaws.SpliceOutcome | internal/raft/node.go:1320-1352 | A splice keeps what matches and cuts only at a conflict; then the log is the request's from there on |
| NodeLaws.FollowerSplice | internal/raft/node.go:1320-1354 | An accepted request, wherever it starts, makes the follower agree on all it covers and loses no agreement, across the snapshot boundary too; one that ends inside the snapshot changes nothing |
| NodeLaws.OldRequestKeepsLog | internal/raft/node.go:1320-1354 | A delayed or repeated request that covers only matched entries leaves the log alone, and is accepted exactly if all it names inside the snapshot is of the snapshot's term |
| NodeLaws.AcceptedExactly | internal/raft/node.go:1284-1335 | A request is accepted exactly if its term is not old, the previous entry is held, and no entry inside the snapshot has another term than the snapshot |
| NodeLaws.RefusedExactly | internal/raft/node.go:1327-1335 | A follower refuses a request of entries it matches exactly if the request starts inside the snapshot in an older term |
| NodeFlaws.VoteLostExactly | internal/raft/node.go:1291-1296 | A request loses the vote of a term exactly when there is one and the term does not rise |
| NodeFlaws.ClampExact | internal/raft/node.go:1369-1373 | Every follower of the leader commits only the leader's entries exactly if the request's commit index lies within what it covers, or no stale entry fits after that |
| NodeFlaws.UnsavedCommitExact | internal/raft/node.go:461-468 | What the commit loop leaves committed survives the leader's crash exactly if nothing beyond the disk was committed before or is on a majority in the current term |
| NodeFlaws.UnsavedCommitLost | internal/raft/node.go:1016-1053 | Of three nodes, a leader commits a proposal that one follower has stored, and its crash loses it |
| NodeFlaws.CompactedRefuses | internal/raft/node.go:1327-1335 | A follower that accepts its own log again refuses it once it has compacted |
| NodeLaws.OnMajorityDown | internal/raft/node.go:1016-1053 | An entry on a majority has all earlier entries on a majority |
| Compaction.CompactionIsInvisible | internal/raft/node.go:613-641 | Reads of the log at or beyond the new snapshot answer as before compacting |
| Compaction.CompactThenVote | internal/raft/node.go:1252-1281 | A compacted node answers vote requests as before, and compacting commutes with answering |
| Compaction.CompactThenAppend | internal/raft/node.go:1284-1388 | A compacted follower answers append requests as before, and compacting commutes with them, if they name nothing inside the snapshot that is disputed or of another term |
| Compaction.AnswerChangesExactly | internal/raft/node.go:626-628 | Compacting turns an acceptance of the leader's request into a refusal exactly if the request starts inside the new snapshot, in an older term, and was not refused for the old snapshot already |
| Compaction.CompactionSurvivesCrash | internal/raft/node.go:1158-1185 | A crash between the two writes of a compaction recovers the log that the compaction would have left |
| Quorums.RemovalOverlapExact | internal/raft/node.go:1021-1028 | Election majorities meet all commit quorums exactly if at most one node is marked removing, or two in an even cluster |
| Quorums.GrowthOverlap | internal/raft/node.go:1238 | Majorities before and after one node joins share a node |
| Quorums.MajoritiesMeet | internal/raft/node.go:226 | Any two election majorities of a cluster share a node |
| Replication.Converges | internal/raft/node.go:856-873 | Under a stable leader with a quiet log, log2 of the next index plus one delivered turn a batch bring the follower to the leader's log, whatever else is lost |
| Replication.RejectionsBounded | internal/raft/node.go:1003-1009 | The leader hears at most floor(log2(nextIndex)) rejections, and none after an acceptance |
| Replication.TurnShortens | internal/raft/node.go:986-1012 | Every delivered turn decreases the measure until nothing is left; a lost one does not increase it |
| Replication.SyncedStays | internal/raft/node.go:1298-1318 | Acceptance is never lost again, whatever is delivered or lost |
| Replication.AcceptedIfSynced | internal/raft/node.go:1298-1302 | A follower accepts a request exactly if its log matches the leader's up to the previous index |
| Replication.Log2Exact | internal/raft/node.go:1003-1009 | The bound on rejections is the floor of the binary logarithm |
| RaftNode.Node.constructor | internal/raft/node.go:235-260 | A node starts with what its disk holds, and its commit index where its database is |
| RaftNode.Node.StartElectionLocked | internal/raft/node.go:746-766 | The fields end up as the specification of standing for election says; a lone node wins at once |
| RaftNode.Node.StepDownLocked | internal/raft/node.go:800-826 | The fields end up as stepping down says, the vote cleared and persisted |
| RaftNode.Node.BecomeLeaderLocked | internal/raft/node.go:830-836 | The loop over the peers sets all next and match indexes, and nothing else |
| RaftNode.Node.RequestVote | internal/raft/node.go:1252-1281 | The handler's reply and new fields are those of the specified vote rule |
| RaftNode.Node.ReceiveVote | internal/raft/node.go:783-796 | A counted vote that makes a majority makes a leader; a higher term makes a follower |
| RaftNode.Node.ProposeLocked | internal/raft/node.go:461-468 | The proposed entry is the next of the log and waits to be written |
| RaftNode.Node.PersistBatchOnce | internal/raft/node.go:504-520 | The waiting entries reach the disk, then the commit index may move |
| RaftNode.Node.BuildAppendEntriesRequestLocked | internal/raft/node.go:855-885 | The request is cut from the log at the follower's next index, at most 256 entries |
| RaftNode.Node.SpliceEntries | internal/raft/node.go:1320-1352 | The in-place loop over the entries leaves the specified splice, or refuses inside the snapshot |
| RaftNode.Node.AppendEntries | internal/raft/node.go:1284-1388 | The handler's reply and new fields, on disk too, are those of the specified append rule |
| RaftNode.Node.HandleAppendResultLocked | internal/raft/node.go:986-1012 | A reply moves next and match index, or halves the next index, or makes a follower, as specified |
| RaftNode.Node.CountHolders | internal/raft/node.go:1020-1043 | The loop counts exactly the counted peers and the holders of an index |
| RaftNode.Node.TryCommitLocked | internal/raft/node.go:1016-1053 | The loop leaves the commit index where the specified commit rule puts it |
| RaftNode.Node.ApplyOne | internal/raft/node.go:1079-1110 | The entry handed over is the one after the applied index, if it is committed and in memory |
| RaftNode.Node.CompactLocked | internal/raft/node.go:1158-1185 | Memory and disk end up as the specified compaction says |
| Apply.ExactlyOnce | internal/raft/node.go:1079-1115 | From an empty database, through any applies, crashes and restarts: the database is the fold of the applied entries, and each transaction that commits has committed once |
| Apply.RestartTakesOnce | internal/raft/node.go:254-260 | A restart at the recorded index replays only entries that committed nothing |
| Apply.LogMayChange | internal/store/store.go:225-242 | The log may change beyond the applied index without the database falling out of step |
| Apply.SkippedExactly | internal/raft/node.go:1095-1110 | A transaction that fails for a reason of its own may be skipped on every database exactly if its entry holds no statement |
| Apply.RunAfterSkip | internal/raft/node.go:1079-1115 | Through every run after a skip, the database is that of the log, or that of the log without the skipped entry |
| Apply.SkipLasts | internal/store/store.go:225-242 | Once a later entry is recorded, no run applies the skipped one |
| Apply.SkippedStaysBehind | internal/raft/node.go:1095-1110 | On a database that counts its statements, the replica stays one behind the log |
| Apply.Store.ApplyEntry | internal/store/store.go:167-221 | The statement and the applied index are committed together or not at all |
| Apply.Store.AppliedIndex | internal/store/store.go:225-242 | The recorded index, or zero in a new database |
| Apply.Loop.ApplyNext | internal/raft/node.go:1091-1110 | The loop goes on after any outcome; a configuration change does not reach the store |
| Wal.RoundTripExact | internal/raftwal/wal.go:150-172 | What was appended reads back exactly if every encoding is at most 64 MiB; one longer entry makes all unreadable |
| Wal.CutExactly | internal/raftwal/wal.go:303-333 | A file cut anywhere reads as exactly its whole entries if cut between two, and as an error otherwise |
| Wal.TornAppend | internal/raftwal/wal.go:150-172 | A crash between two entries of an append keeps the earlier entries and the whole new ones; a crash within an entry makes the whole log an error |
| Wal.BetweenFrames | internal/raftwal/wal.go:303-333 | The cut test speaks of exactly the lengths of whole prefixes of the entries |
| Wal.StateRoundTrip | internal/raftwal/wal.go:231-293 | A persisted state reads back, negative votes included |
| Wal.LoadedIsWritten | internal/raftwal/wal.go:269-293 | The only file of 36 bytes that reads as a state is the one that writing it makes |
| Wal.CutState | internal/raftwal/wal.go:279-292 | A state file cut short is refused below 32 bytes and panics from 32 to 35 |
| Wal.ReadLogFile | internal/raftwal/wal.go:303-333 | The reading loop returns what the file means, or an error |
| Wal.Wal.Append | internal/raftwal/wal.go:150-172 | The file grows by the frames of the entries, and the entries by themselves |
| Wal.Wal.Rewrite | internal/raftwal/wal.go:175-228 | The file becomes the frames of the given entries |
| Wal.Wal.LoadLog | internal/raftwal/wal.go:131-147 | After any appends and rewrites of entries that fit, exactly the entries come back, without a leading run inside the snapshot |
| Wal.Wal.PersistState | internal/raftwal/wal.go:231-263 | state.bin holds the state |
| Wal.Wal.LoadState | internal/raftwal/wal.go:269-293 | A restart reads the state last persisted |
| Lincheck.WindowTestExact | internal/lincheck/lincheck.go:99-121 | An order has points in all windows exactly if the greedy cursor passes, and exactly if it respects real time |
| LincheckExact.SearchSpaceExact | internal/lincheck/lincheck.go:86-172 | The complete orders of the search are the linearizations along the sorted client lists, and all linearizations if no starts tie |
| LincheckExact.LegalLinearizes | internal/lincheck/lincheck.go:99-142 | A complete order that passes the search's tests is a linearization |
| LincheckExact.LinearizationIsLegal | internal/lincheck/lincheck.go:99-142 | Every prefix of a linearization along the client lists passes the search's tests |
| LincheckExact.TiedStartsMissed | internal/lincheck/lincheck.go:62-66 | A linearizable history with tied starts that the search cannot complete |
| LincheckSolver.Solver.Candidates | internal/lincheck/lincheck.go:99-121 | The candidates are exactly the unplaced operations whose turn and window allow them, earliest end first |
| LincheckSolver.Solver.ReadsState | internal/lincheck/lincheck.go:125-134 | The value test on the state is the one on the order so far |
| LincheckSolver.Solver.Attempt | internal/lincheck/lincheck.go:136-164 | A failed branch leaves everything as it was and has no completion |
| LincheckSolver.Solver.Search | internal/lincheck/lincheck.go:93-167 | The search completes the order, or restores placed, positions, state and order, and then no complete order begins so |
| LincheckSolver.SortClients | internal/lincheck/lincheck.go:57-66 | The client lists are sorted by start and lose nothing |
| LincheckSolver.Screen | internal/lincheck/lincheck.go:48-55 | A history is refused for its first operation of another key or with an end before its start |
| LincheckSolver.Check | internal/lincheck/lincheck.go:40-79 | The verdict is exact: accepted if and only if a linearization along the sorted client lists exists, and any at all if no starts tie |
| Tokenizer.Lossless | internal/rewrite/rewrite.go:703-766 | The tokens spell the SQL byte for byte |
| Tokenizer.QuotedTokenIsLiteral | internal/rewrite/rewrite.go:768-781 | A quoted token before the end is one closed literal, ended by the first quote that is not doubled |
| Tokenizer.Tokenize | internal/rewrite/rewrite.go:703-766 | The loop makes the specified tokens, which spell the SQL |
| Tokenizer.ScanQuoted | internal/rewrite/rewrite.go:768-781 | The scan ends where the literal ends, or at the end |
| Calls.TriggerIs | internal/rewrite/rewrite.go:499-525 | Whether a call is replaced depends only on its name, on its group closing, and for RANDOM on the group being empty |
| Calls.SimilarLiteral | internal/rewrite/rewrite.go:527-541 | Replacing a call by a literal changes neither the matching of earlier parentheses nor what precedes them |
| Quoting.QuoteIdentExact | internal/rewrite/rewrite.go:485-487 | A quoted identifier reads back exactly if it has no pair of apostrophes and no pair of backquotes |
| Quoting.CollapseUndoes | internal/rewrite/rewrite.go:580-589 | Undoubling undoes doubling |
| InsertProof.IdsPreallocated | internal/rewrite/rewrite.go:262-371 | An accepted INSERT parses again to the same table, the old columns and then the auto column, and the old rows, row k with the id next + k |
| InsertProof.RestIsVerbatim | internal/rewrite/rewrite.go:426-477 | The rewritten statement is the old one token for token, with tokens put in |
| InsertProof.InsertIsClean | internal/rewrite/rewrite.go:375-388 | An accepted INSERT brings no nondeterministic expression, whatever follows |
| InsertLaws.ColumnsExtended | internal/rewrite/rewrite.go:592-619 | The rewritten column list names the old columns and one more |
| InsertLaws.RowExtended | internal/rewrite/rewrite.go:659-675 | A rewritten row has its old values and then the id |
| InsertLaws.RowsRewritten | internal/rewrite/rewrite.go:630-655 | The rewritten rows parse again, as many, each with its own id |
| InsertClean.PaddedIsClean | internal/rewrite/rewrite.go:527-541 | Putting quiet tokens into tokens without triggers makes no trigger |
| RewriteLaws.RunIsVerbatim | internal/rewrite/rewrite.go:90-172 | A pass accounts for every token: an INSERT rewritten, a trigger replaced, any other copied in order |
| RewriteLaws.PiecesAreClean | internal/rewrite/rewrite.go:90-172 | After a pass no NOW(...), RANDOM(), RANDOMBLOB(...) or CURRENT_ name is left among the emitted tokens |
| RewriteLaws.NothingChanges | internal/rewrite/rewrite.go:90-172 | A statement without triggers and without an INSERT to rewrite comes back |
| DefaultLaws.DefaultCleanExactly | internal/rewrite/rewrite.go:409-423 | Every accepted DEFAULT VALUES form is rewritten to clean tokens exactly if, without the token after each DEFAULT, it holds no trigger and neither NOW nor RANDOMBLOB right before a DEFAULT |
| DefaultLaws.DefaultBringsCall | internal/rewrite/rewrite.go:409-423 | INSERT INTO NOW DEFAULT VALUES, which holds no nondeterministic expression, is rewritten to one that does |
| RewriteBindings.LengthIsTaken | internal/rewrite/rewrite.go:205-217 | RANDOMBLOB(?) after any number of removals takes the parameter that many places after its own, and fails if there is none |
| RewriteBindings.ParamsTaken | internal/rewrite/rewrite.go:205-231 | In a pass over any statement, the k-th length that is a placeholder takes the parameter k places after its own, and the list loses exactly these |
| RewriteKept.BindingsKeptExactly | internal/rewrite/rewrite.go:90-231 | For every statement: each length and each placeholder left has its own parameter exactly if at most one length is a placeholder and no replaced call that the pass comes to holds another placeholder |
| RewriteKept.CopiedIsEmitted | internal/rewrite/rewrite.go:90-172 | A pass emits as many placeholders as it copies, a plain INSERT that it rewrites included |
| RewriteBindings.OneParamTaken | internal/rewrite/rewrite.go:205-231 | A pass with one RANDOMBLOB(?), under any schema, removes exactly the parameter of its placeholder |
| RewriteParams.ParamsKept | internal/rewrite/rewrite.go:205-231 | A pass that replaces no placeholder leaves the parameters alone |
| RewriteKept.TwoLengthsMisbind | internal/rewrite/rewrite.go:205-217 | A whole pass over a statement with two RANDOMBLOB(?): the second takes the third parameter, and the third placeholder is left with the second |
| RewriteKept.NowDropsPlaceholder | internal/rewrite/rewrite.go:103-112 | A whole pass over NOW(?),? keeps both parameters and one placeholder, the second, which is bound to the first |
| Rewriter.MatchParen | internal/rewrite/rewrite.go:527-541 | The loop finds the parenthesis that closes the group, if one does |
| Rewriter.MatchCall | internal/rewrite/rewrite.go:499-512 | The end of the call, if the name is followed by a group that closes |
| Rewriter.CallHasEmptyArgs | internal/rewrite/rewrite.go:516-524 | Only spaces and comments lie between the parentheses |
| Rewriter.ContainsNondeterministicCall | internal/rewrite/rewrite.go:375-388 | Some call or clock name begins within the tokens |
| Rewriter.ParseParenList | internal/rewrite/rewrite.go:592-619 | The loop lists exactly the names at the top level of the group |
| Rewriter.ParseValuesRows | internal/rewrite/rewrite.go:630-655 | The loop lists the groups after VALUES and finds where they end |
| Rewriter.RowValueCount | internal/rewrite/rewrite.go:659-675 | The count is the number of expressions between top-level commas |
| Rewriter.RebuildInsertValues | internal/rewrite/rewrite.go:426-477 | The two loops write the specified statement |
| Rewriter.RebuildInsertDefault | internal/rewrite/rewrite.go:409-423 | The loop writes the specified statement |
| Rewriter.Rewriter.NextIDs | internal/rewrite/rewrite.go:391-405 | The ids are consecutive from the next free one, which is recorded for the table |
| Rewriter.Rewriter.RandomBlobLen | internal/rewrite/rewrite.go:176-221 | The length and the parameters left are as specified, and a failure leaves the parameters alone |
| Rewriter.Rewriter.RewriteInsertAt | internal/rewrite/rewrite.go:262-371 | The statement is rewritten exactly if it is one that omits the auto column, and only then an id range is recorded |
| Rewriter.Rewriter.Run | internal/rewrite/rewrite.go:90-172 | The loop emits the pieces of the specified pass and uses up its random bytes and parameters |
| Rewriter.Rewrite | internal/rewrite/rewrite.go:57-80 | The rewritten statement accounts for all tokens, holds nothing nondeterministic, and is the input byte for byte if there is nothing to rewrite |
| Inlining.InliningKeepsCuts | internal/pgwire/server.go:711-735 | Whatever the parameters, if no negative number follows a minus sign, the rendered text is cut at the bytes copied from where the text is cut, and at no byte of a literal |
| InlinedText.StatementsRendered | internal/pgwire/sql.go:36-52 | The k-th statement of the rendered text is the rendering of the k-th statement of the text |
| InlinedText.PiecesRendered | internal/pgwire/server.go:711-735 | The pieces between the marks, before trimming, are the renderings of the pieces of the text |
| Inlining.StatementsKept | internal/pgwire/server.go:711-735 | As many statements end in the rendered text as in the text |
| Inlining.LiteralScans | internal/pgwire/server.go:738-759 | Every literal, whatever follows, is scanned without an end of statement, and after it statements end as they would without it |
| Inlining.TextUnescapes | internal/pgwire/server.go:752-753 | A string literal is one closed literal that unescapes to the parameter |
| InlinedText.MinusBeginsComment | internal/pgwire/server.go:711-735 | If a negative number follows a minus sign, the cuts are kept up to a place in the rendered text, and from there to the end of the line no statement ends |
| InlinedText.CutsSurviveExactly | internal/pgwire/server.go:711-735 | Then the cuts survive exactly if no statement was to end on the rest of the line and the scanner, begun after the line, agrees with the rest |
| InlinedText.NegativeAfterMinus | internal/pgwire/server.go:711-735 | The statement -?1; with -2 no longer ends |
| InlinedText.CommentEndsAgree | internal/pgwire/sql.go:770-772 | Scanner and tokenizer end a block comment at the same place exactly if it does not begin with slash, star, slash |
| Inlining.RenderParams | internal/pgwire/server.go:711-735 | The loop renders exactly the placeholders outside quotes and comments, or reports one without a parameter |
| SqlScan.ScanState.Feed | internal/pgwire/sql.go:752-809 | Feeding a byte moves the state, and reports an end of statement, as the scanner's function says |
| SqlScan.SplitStatements | internal/pgwire/sql.go:36-52 | The loop returns the trimmed statements between the marks |

## Left out

- InstallSnapshot and its handler, and compaction within cluster runs: the code replaces log and commit index
  unconditionally there. Compaction is proved invisible to one node instead.
- ReadIndex: a new leader commits no entry of its own term first, and acknowledgements are not tied to the read.
- Membership changes beyond the overlap of quorums: cluster runs have fixed members and no configuration changes.
- Propose and the batch writer are one durable step in cluster runs; the node has them apart. A batch that outlives
  its leader's term is not followed.
- Vote requests and their replies are delivered at most once in cluster runs, as a unary call delivers them; append
  requests and replies may be repeated.
- Goroutines, channels, timers, dialling and pending proposals: each locked section is one step, and a timer may fire
  at any time.
- Failed writes of the term, the vote or the log, which the code only logs: writes succeed.
- Terms and indexes are unbounded; the 64-bit counters of the code wrap.
- `applyTarget`: the apply loop of the model follows the commit index, which `applyTarget` trails.
- Slices of the log that are shared with requests in flight are values here.
- Histories with operations before the zero time: times are natural numbers, and zero is the checker's initial cursor.
- The encoding of log entries is a parameter of which only decodability is assumed; SQLite is a partial function.
- Temporary files, renaming and directory syncing of the write-ahead log, `peers.json`, and opening a directory.
- The rewriter's time formats are given as text, and its random source as bytes.
- InsertProof.IdsPreallocated: for statements with no parenthesis and no VALUES token before the column list, since
  with one there the code rebuilds another group than the one it parsed.
- RewriteLaws.PiecesAreClean: asks the same of an INSERT to be rewritten, and, in the DEFAULT VALUES form, just what
  keeps it clean.
- RewriteBindings.OneParamTaken: for a length outside an INSERT ... DEFAULT VALUES that is rewritten, whose tokens the
  pass copies.
- RewriteKept.CopiedIsEmitted: asks of an INSERT to be rewritten that it is plain in the same sense, or, in the DEFAULT
  VALUES form, that no placeholder is dropped with the token after a DEFAULT.
- Emitted tokens are not read again as text: a negative random number after a minus sign would begin a comment.
- Inlining.InliningKeepsCuts: for text without a dollar sign; floating-point numbers are given as their text, which in
  InlinedText.StatementsRendered neither begins nor ends with a blank.
- Buffering of transactions, portals and prepared statements around the inlining; trimming of non-ASCII spaces.
- The PostgreSQL wire protocol and its catalog, type and function rewriting, the servers, the commands and the
  generated code.
