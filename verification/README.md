# db_wrapper: a verified model of the connection pool and its clients

`db_wrapper` drives a fork of Go's `database/sql` from Nim. This project models the concurrent core of
that fork and the text formats on both sides of the language border, and proves what they promise for
every input, every run and every interleaving.

The concurrent parts come in three layers. A *state machine* has one function for each stretch of code
that runs under one lock (or one atomic operation, or one driver call); everything that lives between
two such stretches (dials under way, opener tokens, connections in somebody's hands or in a request
channel, closes half done) is part of its state, so a list of events is an interleaving of any number of
callers, the opener, the cleaner and `DBClose`. *Theorems* say what every reachable state satisfies. A
*class* has the source's fields and updates them in place; each method is proved to do what the
machine's function says, through the ghost field `abs` and the predicate `Valid()`.

| file | what it models |
|---|---|
| `PoolState`, `PoolInvariant`, `PoolRuns`, `PoolTheorems` | the pool as a state machine, its invariant, its runs, and what follows for every run |
| `PoolAnswers` | what each critical section answers and leaves behind, field by field |
| `PoolProgress`, `PoolLeak`, `PoolQueue` | when a waiter can be answered; when a closed pool loses slots; the order of service |
| `Pool` | the `DB` object with its fields, loops and critical sections |
| `TxState`, `Transaction` | transactions: `done`, the read/write lock, and the calls that race to end one |
| `StmtCloseOrder`, `ConnStatements` | one connection's driver statements: who closes them, in what order |
| `PoolStatements` | the pool refines that machine for each of its connections |
| `Deps`, `StmtLife`, `Statements` | reference counts: prepared statements, their Rows, their transaction children |
| `StmtCache` | a statement's cache of driver statements and its lazy purge |
| `Rows` | a result's iteration and closing, and the loop that drains it |
| `ArgConversion` | the argument loop with its checkers and its shrinking buffer |
| `IntScan`, `Decimal` | integers scanned straight or by way of decimal text |
| `NimFormat` | the Nim formatters and the readers at the other end |
| `SwapRemove`, `Wrappers` | the in-place purge used twice; two result types |

Clocks, randomness and the driver are parameters: a step is given the time, the driver's answer, and
which of the pending requests it picks (the source takes any). Time is an integer. A connection in the
pool is a `DriverConn` object; driver statements, Rows and statements are numbers.

Some things one might expect are not so in the code; the project keeps the code and proves exactly when
they hold:

- Raising the open limit wakes nobody: waiters can be left with room that no opener token fills
  (`PoolTheorems.RaisedLimitStrands`, `PoolTheorems.LimitChangeStrands`).
- A caller that insists on a new connection queues on a full pool even if everything in it is idle, and
  then nothing that goes on can answer it (`PoolProgress.NewConnCallerStuck`). Under a limit that was never
  lowered a pending request can be answered exactly if more is open than idle; under a lowered one the
  idle connections must also leave room in the limit, or fill it exactly with an opening on its way
  (`PoolProgress.AnswerableIff`, `PoolProgress.DeliverableIff`).
- `DBClose` leaves the keys of the closed channels in the request map, and a closed pool then takes open
  slots that nobody gives back: exactly at the steps of `PoolLeak.StepLeaksIff`, and
  `PoolLeak.ClosedPoolLeaks` is a run that does. Nor does it set `dbmuClosed`, so a statement's cache keeps
  the entries of those connections (`StmtCacheTheorems.QuietEntriesStay`).
- A pool statement's `finalClose` runs twice if and only if a transaction registers a child of it after
  a first `finalClose` has been promised (`StmtLifeTheorems.FinalCloseCount`,
  `StmtLifeTheorems.LateChildFinalisesTwice`).
- A driver statement given up while its connection is being closed as expired is never closed
  (`StmtCloseTheorems.ExpiredConnLosesStatement`, `StmtCloseTheorems.AllClosedIff`).
- Draining a result leaves the Rows open when another result set follows, and a context that ends in
  between cuts the result short, with a last row of nulls if it ends before that row is scanned; only
  Err tells (`RowsDrain.Rows.ConvertTocRows`, `RowsDrain.DrainOutcome`).
- A dropped named argument leaves its name to the plain argument that takes its slot
  (`ArgConversion.StaleName`, `ArgConversion.NamesAreOwnIff`).
- Quotes in a template break the quoting of its arguments, and only quotes do
  (`NimFormat.FormatLexesIff`, `NimFormat.QuotedTemplatesCollide`).
- An empty argument list arrives as one empty argument, and a comma splits one
  (`NimFormat.ArgsRoundTrip`); a digit behind a placeholder joins its number (`NimFormat.PqNumbersIff`).

## Model

| member | source | states |
|---|---|---|
| PoolRuns.StepInv | database-resource/sql.go:1286-1533 | every critical section of the pool, in any state that satisfies the invariant and for any choice it may make, keeps the invariant: ownership, request channels, idle list, count and limits |
| PoolRuns.RunInv | database-resource/sql.go:1286-1533 | after every interleaving of callers, opener, cleaner, limit changes and DBClose the invariant holds |
| PoolRuns.OpenDBInv | database-resource/sql.go:770-794 | the pool that openDB returns satisfies the invariant, with the pool size as its open limit and none for a negative size |
| PoolTheorems.OpenLimitStep | database-resource/sql.go:1202-1218 | no step takes the open count above a positive limit, or further above it when the limit was lowered under a busy pool |
| PoolTheorems.OpenLimit | database-resource/sql.go:1327-1389 | with the limit left alone, connections, dials and opener tokens together never exceed it, so the token queue never fills |
| PoolTheorems.NoStrandedStep | database-resource/sql.go:1202-1533 | every step but a change of the limit keeps this: the limit is used up, or tokens and opener dials are at least the pending requests |
| PoolTheorems.NoStrandedWaiter | database-resource/sql.go:1202-1265 | from openDB on, whatever the schedule, with the limit left alone: while requests are pending in an open pool the limit is used up, or tokens and opener dials are at least as many |
| PoolTheorems.WaiterHasServer | database-resource/sql.go:1301-1336 | a pending request has a connection in use, delivered or closing, or an opening under way, to wait for if and only if more is open than idle; always, if its caller would have taken an idle connection |
| PoolProgress.AnswerableIff | database-resource/sql.go:1286-1533 | a pending request of an open pool can still be answered, with a connection or an error, by what goes on without new callers, limit changes or the cleaner, if and only if more is open than idle and the idle connections leave room in the limit, or fill it exactly while an opening is on its way |
| PoolProgress.DeliverableIff | database-resource/sql.go:1286-1533 | given a connection the driver can still hand out, it can be given a connection if and only if more is open than idle and the idle connections leave room in the limit |
| PoolProgress.WaiterCanBeAnswered | database-resource/sql.go:1286-1533 | after any schedule under a fixed limit a waiter has a continuation that answers it, and one that delivers a connection, exactly if more is open than idle; always, if it would have taken an idle connection |
| PoolProgress.AskerCanBeAnsweredIff | database-resource/sql.go:1301-1336 | what a caller can check before it asks: if it must queue, it can be answered if and only if the same condition holds before the call, under lowered limits too; always, if it would have taken an idle connection |
| PoolProgress.NewConnCallerStuck | database-resource/sql.go:1303-1327 | a concrete schedule in which a caller that insists on a new connection waits on a full and idle pool, and no continuation of the work begun answers it |
| PoolTheorems.RaisedLimitStrands | database-resource/sql.go:1020-1031 | a concrete schedule after which raising the limit strands a waiter |
| PoolTheorems.LimitChangeStrands | database-resource/sql.go:1020-1031 | with more requests than openings under way, changing the limit keeps them served if and only if the new limit is positive and already used up |
| PoolTheorems.ExclusiveOwnership | database-resource/sql.go:1301-1385 | after any run the idle list has no duplicates, its connections are neither in use nor closed nor in a channel and depend on themselves alone, and no two channels hold one connection |
| PoolTheorems.OwnersNeverFail | database-resource/sql.go:560-585 | after any run: the panic of putConn, the duplicate-close error and the panic of removeDep cannot happen to whoever owns a connection, and finalClose always follows |
| PoolTheorems.InUseCount | database-resource/sql.go:1186-1188 | numOpen minus the idle connections is exactly the connections elsewhere, the dials, the tokens and the leaked slots; none are leaked while the pool is open |
| PoolLeak.StepLeaksIff | database-resource/sql.go:1210-1217 | a step loses a slot, and just one, if and only if the pool is closed, a key was left in the map, and a slot is given back, a dial fails or a put discards its connection with room under the limit |
| PoolLeak.RunLeaksIff | database-resource/sql.go:1210-1217 | over any run the lost slots are exactly as many as these steps |
| PoolLeak.ClosedPoolLeaks | database-resource/sql.go:922-924 | a concrete schedule in which a closed pool of size one loses its slot |
| PoolTheorems.NoConnectionLost | database-resource/sql.go:587-616 | a connection leaves the books only by giving its slot back after the driver connection was closed |
| PoolTheorems.AnsweredAtMostOnce | database-resource/sql.go:1503-1523 | a step changes a request channel only from empty and only while its key is pending and its waiter listens; keys are fresh; only the waiter itself goes away |
| PoolTheorems.AnswerIsFinal | database-resource/sql.go:1503-1523 | over any run: a channel once answered or closed is never answered, closed or changed again |
| PoolTheorems.KeyNeverReturns | database-resource/sql.go:1279-1283 | over any run: a request key whose waiter has gone is never used again |
| PoolTheorems.NoScheduleLosesAConnection | database-resource/sql.go:1330-1386 | over any run of delivery, cancellation, puts and DBClose: a connection stays on the books until its finalClose gives the slot back |
| PoolTheorems.DeliveryIsTaken | database-resource/sql.go:1339-1385 | a delivered connection can be taken by its waiter at once; a cancelled waiter ends up holding it |
| PoolTheorems.CleanerTakesExactlyTheExpired | database-resource/sql.go:1122-1157 | the cleaner takes exactly the idle connections created or returned longer ago than the limits allow, first the too old and then the rest of the too long idle, each counter grows by its number, the two lists together are a permutation of the old one, and nothing else changes |
| PoolTheorems.IdleListIsQueue | database-resource/sql.go:1301-1323 | a step takes the head for the caller that asked, who then holds it or must close it as expired, appends at the tail, trims the tail or purges; the list stays within the idle limit, and that within a positive open limit once a limit change is complete |
| PoolQueue.StepOrder | database-resource/sql.go:1301-1323 | but for the cleaner, a lowered idle limit and DBClose, a step takes the head for its caller or puts what it makes idle at the tail, and nothing else moves |
| PoolQueue.FirstInFirstOut | database-resource/sql.go:1301-1323 | over any run of such steps, idle connections are taken in the order in which they became idle |
| PoolInvariant.CleanerSplits | database-resource/sql.go:1122-1157 | the cleaner's two passes split the idle list by age and idle time, with nothing lost and no duplicate made |
| PoolAnswers.OpenDBStarts | database-resource/sql.go:770-794 | a new pool has nothing open and nobody waiting, and keeps as many connections idle as may be open |
| PoolAnswers.ConnTells | database-resource/sql.go:1286-1336 | a caller of conn learns that the pool is closed, that its context has ended, gets the head of the idle list, waits, or dials, each exactly in its case |
| PoolAnswers.ConnTakesHead | database-resource/sql.go:1303-1323 | the head of the idle list is handed out, or is to be closed and counted, the latter exactly if it was created longer ago than the lifetime limit allows |
| PoolAnswers.ConnQueues | database-resource/sql.go:1327-1334 | a request has a fresh key and an empty channel, remembers the lifetime limit of its time, and is counted |
| PoolAnswers.WaiterGets | database-resource/sql.go:1357-1385 | a waiter learns of the closed pool or gets the error or the connection that was sent to it, whole |
| PoolAnswers.WaiterTakes | database-resource/sql.go:1363-1385 | a delivered connection is given up as expired exactly if the waiter would have taken an idle one and it has outlived the limit the waiter remembers; else the waiter has it |
| PoolAnswers.WaiterGoes | database-resource/sql.go:1339-1356 | a cancelled waiter takes its key away, and holds in the end what was sent to it before |
| PoolAnswers.DialOutcome | database-resource/sql.go:1389-1411 | a failed dial gives its slot back and owes openings; a successful one yields a connection in use, created now, that depends on itself |
| PoolAnswers.PutGoes | database-resource/sql.go:1447-1491 | a connection that is put back is closed exactly if the pool is closed or above its limit, the connection is bad or too old, or nobody waits and the idle list is full; else it goes to the picked request, or to the idle list if there is none; the answer says which |
| PoolAnswers.PutLeaves | database-resource/sql.go:1447-1533 | what a put leaves in the connection, in the channel of the request and in the idle list |
| PoolAnswers.PutCounts | database-resource/sql.go:1459-1533 | what it counts, when it owes openings, and that nothing else changes |
| PoolAnswers.OpeningsAre | database-resource/sql.go:1202-1218 | maybeOpenNewConnections sends a token for every pending request the limit has room for, and takes a slot for each; on a closed pool it takes one slot and sends none |
| PoolAnswers.ClosePartDoes | database-resource/sql.go:570-607 | the parts of Close set their flag and drop the dependency of this connection, and do nothing else |
| PoolAnswers.SlotComesBack | database-resource/sql.go:609-612 | the last part forgets the connection, gives its slot back and owes openings |
| PoolAnswers.OpenerInVain | database-resource/sql.go:1233-1252 | a dial that failed, or came too late, gives its slot back; its error is told to the picked request of an open pool that is not above its limit |
| PoolAnswers.OpenerDelivers | database-resource/sql.go:1253-1265 | the opener's connection is kept exactly if the pool is within its limit and somebody waits or the idle list has room; else it is thrown away with its slot |
| PoolAnswers.OpenerDeliversTo | database-resource/sql.go:1253-1265 | if kept it is sent to the picked request, or put at the end of the idle list if there is none |
| PoolAnswers.IdleLimitSet | database-resource/sql.go:986-1011 | the idle limit becomes the number asked for, none if that is not positive and the open limit at most; the connections beyond it are closed and counted |
| PoolAnswers.OpenLimitSet | database-resource/sql.go:1020-1031 | the open limit becomes the number asked for, none if negative; the idle limit must follow exactly if it is now above a positive one |
| PoolAnswers.TimesSet | database-resource/sql.go:1038-1077 | a lifetime or idle time is stored, none if negative |
| PoolAnswers.CloseDBDoes | database-resource/sql.go:905-925 | DBClose closes exactly the idle connections and the channels of the pending requests, once |
| Pool.DB.constructor | database-resource/sql.go:770-783 | the object starts in the state of openDB, with the two limit calls applied |
| Pool.DB.MaybeOpenNewConnections | database-resource/sql.go:1202-1218 | the loop counts and sends exactly the tokens the machine's step says, and on a closed pool counts one slot and sends none |
| Pool.DB.ConnBegin | database-resource/sql.go:1286-1335 | closed pool, ended context, idle connection fresh or expired, request or dial, each exactly in its case, keeping the invariant |
| Pool.DB.PopIdle | database-resource/sql.go:1303-1323 | the head of the idle list goes into use, or to its closing exactly if it was created longer ago than the lifetime limit allows |
| Pool.DB.Enqueue | database-resource/sql.go:1327-1334 | a request with a fresh key and an empty channel |
| Pool.DB.DialFailed | database-resource/sql.go:1393-1397 | the optimistic count is taken back and waiting requests are given openings |
| Pool.DB.DialSucceeded | database-resource/sql.go:1399-1409 | a new connection in use that depends on itself |
| Pool.DB.Receive | database-resource/sql.go:1357-1385 | the waiter gets the connection or the error that was sent, an expired connection to close exactly by the limit it remembers, or learns that the pool is closed |
| Pool.DB.CancelBegin | database-resource/sql.go:1340-1345 | a cancelled waiter takes its key out of the request map |
| Pool.DB.CancelEnd | database-resource/sql.go:1349-1356 | it then finds in its channel the connection it must put back, if one was sent |
| Pool.DB.PutConn | database-resource/sql.go:1447-1491 | a returned connection is out of use, then handed over or kept idle, or left to be closed exactly if it is unwanted, bad or too old; a connection that was never out is reported |
| Pool.DB.PutConnDBLocked | database-resource/sql.go:1502-1533 | for some pending request: the machine's hand-over of a connection or an error, or the idle list, or a refusal |
| Deps.AddTo | database-resource/sql.go:660-671 | afterwards the pair is in the table, and every other pair is there exactly if it was before |
| Deps.AddThenRemove | database-resource/sql.go:654-706 | removing what was just added gives the table back, and asks for finalClose exactly if the entry was made for it |
| Deps.RemoveFrom | database-resource/sql.go:683-706 | comparing sizes before and after tells an unpaired removal from a last one: exactly the pair leaves the table, the entry goes with its last dependency, and the caller learns of either |
| Pool.DB.CloseMark | database-resource/sql.go:570-577 | the first part of Close; false is the duplicate-close error |
| Pool.DB.CloseDep | database-resource/sql.go:579-584 | the second part, which drops the connection's own dependency |
| Pool.DB.DriverClose | database-resource/sql.go:603-607 | the driver connection is closed and still counted |
| Pool.DB.FinalCount | database-resource/sql.go:609-612 | the slot is given back and waiting requests are given openings |
| Pool.DB.OpenerTake | database-resource/sql.go:1221-1230 | one token becomes one opener dial |
| Pool.DB.OpenNewConnection | database-resource/sql.go:1233-1265 | what becomes of the opener's dial in a closed pool, after an error, and with a connection the pool wants or does not want |
| Pool.DB.SetMaxIdleConns | database-resource/sql.go:986-1010 | the idle limit is clamped by the open limit and the tail of the idle list is set aside for closing |
| Pool.DB.SetMaxOpenConns | database-resource/sql.go:1020-1031 | the open limit, and whether the idle limit must follow |
| Pool.DB.SetConnMaxLifetime | database-resource/sql.go:1038-1053 | the lifetime limit, never negative |
| Pool.DB.SetConnMaxIdleTime | database-resource/sql.go:1060-1077 | the idle-time limit, never negative |
| Pool.DB.PurgePass | database-resource/sql.go:1125-1135 | one in-place pass terminates and leaves exactly what the purge of the idle list leaves, in its order |
| Pool.DB.ConnectionCleanerRunLocked | database-resource/sql.go:1122-1157 | both passes and both counters |
| Pool.DB.CloseDBLocked | database-resource/sql.go:560-568 | an idle connection is marked closed and its dependency dropped; a closed one is an error |
| Pool.DB.CloseAllIdle | database-resource/sql.go:916-920 | the loop closes every idle connection, none of which is closed already |
| Pool.DB.ShutRequests | database-resource/sql.go:922-924 | the loop closes the channel of every pending request and of nobody else |
| Pool.DB.DBClose | database-resource/sql.go:905-925 | the whole critical section, and nothing on a second call |
| SwapRemove.PurgePartition | database-resource/sql.go:1125-1135 | overwriting by the last element and looking again splits the list: everything dead leaves, everything else stays, each as often as before |
| SwapRemove.PurgeCounts | database-resource/sql.go:2940-2946 | value by value: kept in full or removed in full |
| SwapRemove.PurgeDistinct | database-resource/sql.go:1125-1135 | the purge never duplicates an element |
| TxTheorems.EndsAtMostOnce | database-resource/sql.go:2447-2523 | the driver is asked to commit or roll back at most once in all, no query runs after that, clean-up follows it directly, and the release is the last thing that happens |
| TxTheorems.ReleasedIffReturned | database-resource/sql.go:2394-2398 | the connection has been released exactly when the winning call has returned |
| TxTheorems.NoQueryDuringEnd | database-resource/sql.go:2411-2421 | from the moment the winner has the write lock, through the driver call and the release and for ever after, no query holds the connection or can run on it |
| TxTheorems.SuccessIsReal | database-resource/sql.go:2470-2489 | a caller told of success is the only one; the last three things on the connection are the driver's commit if and only if it called Commit, else its rollback, without error, the clean-up and the release |
| TxTheorems.OnlyCommitCommits | database-resource/sql.go:2476-2514 | over every run the driver commits for a Commit that won and rolls back for anybody else |
| TxTheorems.WinnerEndsAsAsked | database-resource/sql.go:2394-2523 | when the winner has returned, the connection has seen queries and then exactly the ending it asked for: the driver call, the clean-up unless the connection went bad, and the release, by which awaitDone gives up a connection it may not keep |
| TxTheorems.LateCommitNeverEnds | database-resource/sql.go:2451-2462 | a Commit that finds its context ended returns without ever reaching the driver, whatever goes on; every other call goes on |
| TxTheorems.AwaitDoneWaits | database-resource/sql.go:2368-2377 | over every run awaitDone does nothing before the context has ended |
| Transaction.Tx.CheckContext | database-resource/sql.go:2451-2462 | Commit gives up if the context has ended, the others go on |
| Transaction.Tx.CompareAndSwap | database-resource/sql.go:2463-2466 | true exactly for the call that finds done unset |
| Transaction.Tx.Lock | database-resource/sql.go:2472-2473 | the write lock, taken when nobody reads or writes |
| Transaction.Tx.EndOnDriver | database-resource/sql.go:2476-2478 | the driver's Commit for a commit, its Rollback for the other two, added to what the connection has seen |
| Transaction.Tx.ClosePrepared | database-resource/sql.go:2479-2481 | statements are closed unless the connection went bad |
| Transaction.Tx.Close | database-resource/sql.go:2394-2398 | the release, with the connection discarded by awaitDone unless it is to be kept |
| Transaction.Tx.Finish | database-resource/sql.go:2494-2523 | from the driver call to the return the connection sees exactly the ending that was asked for, and success means no error and no discard |
| Transaction.Tx.ReadLock | database-resource/sql.go:2411-2413 | a query gets the read lock when nobody writes |
| Transaction.Tx.CheckDone | database-resource/sql.go:2414-2421 | the query has the connection exactly if done is not set under the lock, and gives the lock back otherwise |
| Transaction.Tx.ReadUnlock | database-resource/sql.go:2428-2434 | the read lock is given back when the query is over |
| StmtCloseTheorems.CloseOrder | database-resource/sql.go:587-639 | over all interleavings: the driver is asked at most once to close each statement and the connection, and for nothing after the connection |
| StmtCloseTheorems.AllClosedIff | database-resource/sql.go:1418-1433 | every statement is closed with its connection if and only if, when the list is copied, nothing waiting for the next put has left the list unclosed |
| StmtCloseTheorems.PutBackClosesAll | database-resource/sql.go:1463-1469 | a connection that was put back before it is closed closes all its statements |
| StmtCloseTheorems.ClosedUnusedClosesAll | database-resource/sql.go:587-639 | over all interleavings: a connection that has been closed and is not in use has all its statements closed |
| StmtCloseTheorems.ExpiredConnLosesStatement | database-resource/sql.go:1307-1313 | a concrete run in which an expired connection leaves a statement unclosed |
| ConnStatements.ConnStmts.CloseOnce | database-resource/sql.go:630-639 | the driver hears of a statement's close the first time only |
| ConnStatements.ConnStmts.Prepare | database-resource/sql.go:536-557 | the statement is on the connection's list |
| ConnStatements.ConnStmts.PutConn | database-resource/sql.go:1463-1469 | the loop closes everything put off until now, in that order and each once, and empties the list |
| ConnStatements.ConnStmts.Note | database-resource/sql.go:1418-1424 | put off exactly if the connection is in use |
| ConnStatements.ConnStmts.NoteClose | database-resource/sql.go:1425-1432 | closing after the look at finalClosed is harmless: if the connection has been closed since, the driver is not called |
| ConnStatements.ConnStmts.RemoveOpenStmt | database-resource/sql.go:491-495 | the statement leaves the list |
| ConnStatements.ConnStmts.CopyOpen | database-resource/sql.go:590-599 | the list is copied out and cleared |
| ConnStatements.ConnStmts.FinalClose | database-resource/sql.go:587-607 | undisturbed, exactly the open statements are closed, and then the connection |
| PoolStatements.PoolMoves | database-resource/sql.go:1286-1533 | every step of the pool moves every connection in one of eight ways, and a put happens to exactly the connection put back |
| PoolStatements.PoolStepIsConnSteps | database-resource/sql.go:1286-1533 | whatever the pool does to a connection, its statement machine can follow with steps of its owner and show the same owner and in-use flag; a put is among them exactly if the pool puts this connection back |
| PoolStatements.PoolRunIsConnRun | database-resource/sql.go:1286-1533 | over whole runs, with users of statements doing what they want between the pool's steps, the machine follows round by round until the slot is given back: it shows the pool's record before and after every step, and puts exactly when the pool does |
| PoolStatements.PutClosesPutOff | database-resource/sql.go:1463-1469 | in any such run, every put of the connection leaves closed every statement that was put off before it |
| PoolStatements.CloseOrderInPool | database-resource/sql.go:587-639 | for a connection of the pool, from its dialling on and over any such run: each statement and the connection are closed at most once and the connection last, the connection has been closed exactly if the pool's record says so, and if it was not in use then, all its statements are closed too |
| PoolStatements.NewConnShows | database-resource/sql.go:1399-1409 | a dialled connection starts where its machine starts |
| PoolStatements.OpenedConnShows | database-resource/sql.go:1253-1264 | so does one dialled by the opener, idle or handed over |
| Statements.Registry.Prepare | database-resource/sql.go:1645-1649 | a pool statement keeps itself from the start |
| Statements.Registry.LookAtParent | database-resource/sql.go:2616-2650 | a statement becomes the parent of the transaction's one unless it is closed or bound already |
| Statements.Registry.RegisterChild | database-resource/sql.go:2668-2670 | the child keeps its parent, even one closed in between |
| Statements.Registry.CheckOpen | database-resource/sql.go:2957-2962 | a query goes on exactly if the statement is not closed |
| Statements.Registry.AttachRows | database-resource/sql.go:3047-3049 | new Rows keep their statement |
| Statements.Registry.CloseRows | database-resource/sql.go:3053-3056 | closing Rows never panics, and asks for finalClose exactly if nothing keeps the statement any more |
| Statements.Registry.CloseMark | database-resource/sql.go:3144-3151 | the closed flag is set once |
| Statements.Registry.CloseDrop | database-resource/sql.go:3155-3164 | closing drops the statement's own dependency or the one on its parent, never panics, and asks for finalClose exactly if that was the last; a bound statement has none |
| StmtLifeTheorems.DependenciesAreExact | database-resource/sql.go:654-706 | no removeDep is ever unpaired, no entry is empty, and the table lists exactly the open statements, registered children and open Rows |
| StmtLifeTheorems.FinalCloseIsLast | database-resource/sql.go:3137-3178 | when a pool statement's finalClose is about to run, the statement is closed, all its Rows are closed, and so is every child but those registered after a finalClose had been promised |
| StmtLifeTheorems.UnkeptIsFinalised | database-resource/sql.go:683-706 | a pool statement that nothing keeps has been promised its finalClose |
| StmtLifeTheorems.FinalCloseCount | database-resource/sql.go:2605-2675 | finalClose runs once for each entry that has come and gone, and there is a second entry if and only if a child was registered after a finalClose had been promised |
| StmtLifeTheorems.FinalCloseOnceIff | database-resource/sql.go:683-706 | once nothing keeps a statement, finalClose was promised exactly once if and only if there was no such child |
| StmtLifeTheorems.LateChildFinalisesTwice | database-resource/sql.go:2605-2675 | a concrete run in which finalClose runs twice |
| StmtCacheTheorems.CacheIsRight | database-resource/sql.go:2983-3016 | over all runs: one entry at most for a connection, and the driver statement a caller gets was prepared on the connection it holds |
| StmtCacheTheorems.CountsNeverCross | database-resource/sql.go:2928-2937 | lastNumClosed never passes numClosed, so the unsigned test is the true one: the purge is skipped exactly while fewer than ten connections, and at most half as many as there are entries, have been closed since the last |
| StmtCacheTheorems.CountIsExact | database-resource/sql.go:614-614 | over every run numClosed grows by one for each connection whose close is complete, by Close or by DBClose |
| StmtCacheTheorems.SkippedPurgeLeavesFew | database-resource/sql.go:2928-2937 | when the purge is skipped, entries of connections closed by driverConn.Close number fewer than ten and at most half of all, not counting as many as there are such connections whose close is under way; entries of connections closed by DBClose are not bounded |
| StmtCacheTheorems.QuietEntriesStay | database-resource/sql.go:560-568 | for every n a run in which n connections with entries are closed by DBClose, and the purge is skipped with all n entries there |
| StmtCacheTheorems.PurgeKeepsTheLiving | database-resource/sql.go:2939-2947 | the purge keeps exactly the entries whose connection is not marked closed, each as often as before |
| StmtCacheTheorems.PurgeDoes | database-resource/sql.go:2928-2948 | a purge is begun unless the test skips it, keeps exactly the living, and remembers the count it read at its beginning |
| StmtCache.Stmt.constructor | database-resource/sql.go:1645-1647 | a statement starts with the entry it was prepared with and the current count |
| StmtCache.Stmt.RemoveClosedStmtLocked | database-resource/sql.go:2928-2948 | skipped or purged, as the threshold in unsigned arithmetic says; a purge leaves exactly the entries whose connection is not marked closed |
| StmtCache.Stmt.PurgeClosed | database-resource/sql.go:2940-2946 | the in-place loop leaves what the purge leaves |
| StmtCache.Stmt.FindOn | database-resource/sql.go:2983-2990 | the entry found is the first for the connection, none if there is none |
| StmtCache.Stmt.AddOn | database-resource/sql.go:3006-3016 | the walk then finds the new entry for its connection unless there is an earlier one, and for every other connection what it found before |
| RowsTheorems.ClosedOnce | database-resource/sql.go:3569-3601 | under any mix of calls and a cancelled context: the driver rows are closed once, then the statement if any, then the connection is released once, if and only if the Rows are closed, and no call follows |
| RowsTheorems.ClosedIsFinal | database-resource/sql.go:3577-3580 | once closed, nothing changes any more, Err included |
| RowsTheorems.CloseKeepsErr | database-resource/sql.go:3569-3571 | Close never changes Err, and no call after it does |
| RowsTheorems.ErrTellsFailure | database-resource/sql.go:3203-3210 | after Next, Err is None unless the driver has just failed, and then it is that failure, whatever is called later |
| RowsTheorems.ContextShows | database-resource/sql.go:3231-3242 | a cancelled context shows in Err exactly if the Rows were open and the driver had not answered with an end or an error |
| RowsTheorems.DeliveredInOrder | database-resource/sql.go:3260-3293 | within a result set the reader gets the driver's rows in order, none twice, none skipped |
| RowsTheorems.DeliveredAcrossSets | database-resource/sql.go:3260-3335 | over any calls the reader gets the driver's rows in the driver's order across result sets: none skipped or repeated within a set, and each set from its first row |
| RowsTheorems.NextAnswers | database-resource/sql.go:3249-3293 | Next yields the next row exactly if the set has one left; its end closes the Rows unless it is a normal end with another set behind it |
| RowsTheorems.NextSetAnswers | database-resource/sql.go:3303-3335 | NextResultSet succeeds exactly if there is another set and the driver does not fail, and then stands before its first row; else it closes the Rows, and Err tells a failure |
| RowsDrain.Rows.NextLocked | database-resource/sql.go:3260-3293 | a row, the end, or an error, and whether to close |
| RowsDrain.Rows.Next | database-resource/sql.go:3249-3258 | the same with the close done |
| RowsDrain.Rows.NextResultSet | database-resource/sql.go:3303-3335 | the next set, or a close |
| RowsDrain.Rows.CloseWith | database-resource/sql.go:3573-3601 | the close, which keeps the first error |
| RowsDrain.Rows.Scan | database-resource/sql.go:3532-3561 | the current row, if there is one as wide as asked for and no error |
| RowsDrain.Rows.ExportRow | database-resource/sql.go:3718-3731 | every value of the row as it is, bytes as a string of the same characters; nulls if Scan had no row |
| RowsDrain.Rows.ConvertTocRows | database-resource/sql.go:3708-3746 | wherever the context ends between its calls, or if it does not: the loop yields the rest of the result set in order, or as much as came before, column by column the driver's values with bytes as a string of the same characters, a row fetched and not yet scanned as nulls, and leaves the Rows exhausted or closed with the error of the context |
| RowsDrain.DrainedValues | database-resource/sql.go:3718-3731 | how many rows a drain returns, and what is in each of their columns |
| RowsDrain.DrainOutcome | database-resource/sql.go:3280-3290 | a drain closes once and releases once unless it was left alone and the set ended normally with another behind it; Err tells the end of the context, or a failure from an end; without an error no row is missing; later calls change nothing |
| ArgConversion.CheckArg | database-resource/convert.go:153-174 | the verdict on an argument comes after at most three checkers, at most two without both a checker and a converter, one without either |
| ArgConversion.CheckArgIff | database-resource/convert.go:48-196 | the verdict is what the driver's checkers say: the checker's word is final unless it passes the value on; the column converter is asked about the columns there are, by their index from zero, and what lies beyond stands as it is; the default converter has the last word |
| ArgConversion.CheckSlot | database-resource/convert.go:153-196 | the loop with the jump back gives the verdict of the checkers in their order, changing only the value in its slot |
| ArgConversion.DriverArgsConnLocked | database-resource/convert.go:107-206 | the loop over the shrinking buffer stays in range and returns what the conversion of the list is |
| ArgConversion.ResultIsKept | database-resource/convert.go:137-206 | the result is the kept arguments in order with ordinals 1 to n, the names of their slots and the values the checkers made of them, an argument is left out exactly if they removed it, none is badly named, and there are as many as the statement has inputs when that is known |
| ArgConversion.DefaultRoute | database-resource/convert.go:96-99 | without a checker and a column converter every value is what the default converter made of the argument, and what it removes is left out |
| ArgConversion.FailsIff | database-resource/convert.go:137-206 | the conversion fails, and with which error, if and only if it stops at the first argument with a bad name or one whose checkers fail, or reaches the end with a count the statement does not have |
| ArgConversion.NamesAreOwnIff | database-resource/convert.go:144-151 | every argument goes out under its own name if and only if no plain argument is kept in a slot that a dropped one left its name in |
| ArgConversion.StaleName | database-resource/convert.go:182-184 | a concrete list whose plain argument goes out under a dropped one's name |
| IntScan.ScanIntIff | database-resource/convert.go:396-452 | any integer into any integer kind succeeds exactly if it fits and then stores that value; a negative one into an unsigned kind is a syntax error, others are out of range |
| IntScan.ParseIff | database-resource/convert.go:430-452 | text into an integer kind succeeds exactly if it is a decimal number, signed only where signs are allowed, that fits, and then stores it |
| IntScan.SyntaxIff | database-resource/convert.go:430-452 | which error: text that is no number is a syntax error unless the digits it begins with already exceed the unsigned range |
| IntScan.KindRanges | database-resource/convert.go:430-452 | the ranges of the ten integer kinds in figures |
| IntScan.PathsAgree | database-resource/convert.go:409-412 | the decimal path gives what straight assignment gives |
| IntScan.TextRoundTrip | database-resource/convert.go:498-510 | every integer survives being printed and scanned back |
| IntScan.ConvertAssign | database-resource/convert.go:404-452 | writes through the pointer on success only, and only what fits |
| NimFormat.LexQuoted | src/db_wrapper.nim:37-55 | a lexer reads the quoted string as one literal with the original text, and goes on right behind it |
| NimFormat.DbQuoteLoop | src/db_wrapper.nim:37-55 | the loop's text is the quoted escaped string |
| NimFormat.EscapesTheSpecial | src/db_wrapper.nim:37-55 | exactly the ten special characters are escaped, and no control character among them is left as it was |
| NimFormat.DbFormatLoop | src/db_wrapper.nim:57-65 | the loop's text, or the index error exactly if there are more placeholders than arguments |
| NimFormat.FormatLexesIff | src/db_wrapper.nim:37-65 | a lexer gets back exactly the template's characters and the original arguments, whatever they contain, if and only if the template contains no quote |
| NimFormat.FormatInjective | src/db_wrapper.nim:57-65 | for templates without quotes the formatted text determines template and arguments |
| NimFormat.QuotedTemplateLeaks | src/db_wrapper.nim:57-65 | quotes around a placeholder, for one, pair up with those of its argument |
| NimFormat.QuotedTemplatesCollide | src/db_wrapper.nim:57-65 | with quotes in a template two different queries can have the same text |
| NimFormat.PqDBFormat | src/db_wrapper.nim:68-76 | the loop numbers the placeholders from one |
| NimFormat.PqRoundTrip | src/db_wrapper.nim:68-76 | the template can be read back if and only if no placeholder or dollar sign is followed by a digit |
| NimFormat.PqNumbersIff | src/db_wrapper.nim:68-76 | the server sees exactly the numbers 1 to k if and only if no placeholder or dollar sign is followed by a digit |
| NimFormat.StmtFormat | src/db_wrapper.nim:78-87 | the loop joins the arguments with commas |
| NimFormat.ArgsRoundTrip | database-resource/sql.go:3079-3086 | split on the Go side gives back the arguments if and only if there are some and none contains a comma |

## Left out

- C strings, malloc, handle maps, `GetRow`, `GetColumns`, `GetTypes`, `log.Fatal`, generated headers: foreign calls and memory layout.
- Real drivers, dialling, SQL: success, a bad connection or another error are inputs of the steps.
- Timers, the goroutine loop and the wake-up channel of the cleaner; `waitDuration` and `lastPut`.
- `Conn`: it tests `done` before it takes its lock (database-resource/sql.go:2158-2164), and no exported entry point uses it.
- Session reset and connection validation in `conn` and `putConn`: a failed one is a holder that closes its connection, or a put with a bad-connection error.
- The retries after bad connections: bounded loops around `conn`.
- In the close order, statements bound to a transaction or a `Conn`: they can be closed after their connection (database-resource/sql.go:2479-2482). Nor is it modelled that `tx.stmts` holds every statement of the transaction, which it need not (2552-2558).
- In `PoolStatements` the pool takes its steps while nobody is between the parts of `noteUnusedDriverStatement`, which holds the pool's mutex; the step that needs no mutex, closing the driver connection, is only interleaved with those parts in `StmtCloseOrder`.
- In the cache, use by `StmtContext`: two such calls on one transaction can both prepare on its connection and leave two entries. `finalClose` clearing the cache is not modelled either.
- In the reference counts, closemu is given back when the dependency is dropped, a little before the source gives it back; this only allows more interleavings.
- Aliasing of the slices in `SetMaxIdleConns` when limits are raised at the same time: what is set aside is a value.
- Reused row buffers, `RawBytes` and cursors as column values.
- In the arguments, a checker changes the value only, not name or ordinal, and the default converter never passes an argument on (a `Valuer` that fails with `ErrSkip` would make the source loop for ever).
- Reflection, floats, times, decimals, Scanner dispatch, Null types, pointers to pointers: not part of the integer paths.
- What a particular database makes of the backslash escapes, for one `\_` in MySQL: the lexer here undoes exactly what dbQuote does.
- The Nim transaction macro and the async wrappers.
