# go-sqldb: a verified model

This project models the parts of go-sqldb that carry its promises, and proves them for all inputs and all runs:
the nested transaction helpers with savepoints, retries and pinned sessions; the query builders of the four SQL
dialects; batched inserts; the LISTEN/NOTIFY listener; struct reflection and the query caches; and the text
functions for placeholders, whitespace, literals and identifiers. `dafny verify dfyconfig.toml` checks everything.

## How it is laid out

* **Transactions.** `TxModel` gives the database as an abstract machine: a committed store, and per open
  transaction a log and a savepoint stack. Any driver call may fail, by a schedule that is a parameter. A caller is
  a finite tree (`Body`) of statements, driver calls, returned errors, panics, caught errors, recovered panics,
  deferred cleanup, data dependent branches and every helper, nested in any way. `Run` executes a tree and records
  its events. `TxSemantics` says what a tree means without any database, `TxRefinement` proves that `Run` is that,
  `TxTraces` proves what its events keep, `TxTheorems` and `TxSessions` draw the conclusions. `TxSerial`,
  `TxExposure` and `TxSchedules` are about nested serialized calls: where their bodies run, and the exact condition on
  a tree under which that is always a serializable transaction. `Transactions` has the helpers statement by statement on a mutable `Database`, each proved to do exactly what `TxModel` says.
* **Queries.** `Sql` has SQL text as tokens and the two ways to bind arguments, `SqlAst` the statements with their
  text, `SqlReader` a recursive descent that reads bound text as a statement, with keywords of its own, `SqlTables`
  the effect of a statement on a table. What a text does is always the effect of the statement that it is read as.
  `QueryBuilder` and `Dialects` hold the builders with their loops; `ConflictTargets` reads the comma-separated conflict
  target; `Upserts`, `InsertUniques`, `Updates` and `InsertBatches` prove what the texts they build mean.
* **Listener.** `Listener` has the critical sections as a class, and all interleavings of calls, goroutines and
  notifications as runs of atomic actions. `ListenerRaces` is about subscriptions, `ListenerReconnect` about
  restoring them after a lost connection, `ListenerClose` about what a close promises.
* **Reflection and caches.** `Reflection` flattens struct types, `Scanning` reads and writes struct values,
  `QueryCaches` interleaves calls and clears, `CachedUpdates` follows an update call from there to the table, and
  `RowStructs` has a call in the form of the Go code.
* **Texts and tables.** `Numerals`, `Placeholders`, `PlaceholderLimits`, `UniformMarks`, `Whitespace`, `Quoting`, `ForeignKeys`,
  `ValueMaps`. `Common` has the option and result types.

## Where the code and what it says of itself part

Each of these is a lemma below; the code was modelled as it is.

* `SerializedTransaction` says that nested calls run in the parent's serialized transaction. Across an
  `IsolatedTransaction` the context keeps its mark, and the nested body runs in a transaction with whatever options
  that one was begun with (`TxTheorems.IsolatedLosesSerializable`). The exact condition on a tree is
  `TxSchedules.AlwaysSerializableIff`; for a caller it comes to asking every `IsolatedTransaction` for the level
  (`TxExposure.OnlyIsolatedExposes`).
* `SubstitutePlaceholders` goes from the last placeholder to the first so that `$1` is not replaced inside `$10`. That
  is not enough for `$1$11`: once `$11` is a text that begins with `0`, the two read as `$10`. The exact
  condition on a query is `PlaceholderLimits.SimultaneousIff`.
* With `?` marks it fills the leftmost mark with one text after the other, so a text that holds a mark takes the next
  text. The exact condition on the texts is `UniformMarks.UniformIff`.
* `close` of the listener says that all registered unlisten callbacks are called. A listen call that is past its test
  when the stop channel is closed may register afterwards (`ListenerRaces.LateRegistration`); without one, and only
  then, close keeps its promise in every continuation (`ListenerClose.CloseRunsAllIff`).
* A listen call may succeed and leave its callback on a channel that is no longer subscribed
  (`ListenerRaces.LostSubscription`). `ListenerRaces.LostIff` says exactly when, and `ListenerRaces.ApartKeepsSubscribed`
  which rule for callers keeps it from happening.
* After a lost connection `resubscribeChannels` is to subscribe the channels in use again. A listen call that the old
  connection agreed to may register its callback behind the resubscription, which then leaves the channel out. It
  restores a channel in every continuation if and only if the channel was in use when the connection came back or no
  such call is under way (`ListenerReconnect.RestoresIff`).
* A query cache hit reads the fields and does not ask the TypeWrappers, a miss does. They agree if and only if no
  field that is sent is handled by one (`QueryCaches.HitIsMissIff`).
* Oracle folds identifiers without quotes to upper case, so a lower case name is read back as itself if and only if it
  comes out in quotes; one that begins with an underscore is not an identifier at all (`Quoting.TableRoundTrip`,
  `Quoting.PartReadsBack`).
* Oracle's builder puts the values in front for binding by order of appearance. With its numbered placeholders a where
  condition can repeat one or leave one out in the middle, and is then bound differently than it reads: the condition
  that agrees for all arguments is exactly one that uses its placeholders from the first on in order
  (`Updates.InOrderIffInSequence`, with `Updates.RepeatedPlaceholder` as an instance). MySQL writes every placeholder
  as `?`, so there the condition always holds.

## Model

| member | source | states |
|---|---|---|
| TxRefinement.Refines | transaction.go:30-83 | every tree of nested helpers, under every failure schedule, ends with the outcome, the committed statements and the open transaction's data and savepoints that its database-free meaning gives it |
| TxTheorems.AllOrNothing | transaction.go:30-83 | a tree run outside a transaction leaves none open; the store is the old one plus the effects of the committed transactions in commit order, and begins, commits and rollbacks form balanced brackets |
| TxTheorems.HelperIsAtomic | transaction.go:47-83 | called outside a transaction, on a body without isolated ones, each of the four helpers returns nil having committed exactly once, and otherwise leaves the store as it was |
| TxTheorems.WithoutTransactionsIsPlain | db/transaction.go:21-32 | in a context without transactions a tree of any helpers only executes statements and pins: it begins, commits and draws nothing |
| TxTheorems.IsolatedEndsOnce | transaction.go:47-83 | a successful begin gets exactly one commit or rollback attempt, a failed one none, and nil is returned exactly when the commit succeeded |
| TxTraces.Traced | transaction.go:47-83 | every tree's events are balanced, have fresh transaction IDs, honour each accepted option request, and keep every statement on its own session |
| TxTheorems.ScanCounts | transaction.go:47-83 | in balanced events a transaction that is not left open has as many ends as begins |
| TxTheorems.InsideIsQuiet | transaction.go:30-39 | without an isolated transaction in between, a tree inside a transaction begins, commits and rolls back nothing, at any depth |
| TxTheorems.InsideIsPending | transaction.go:30-39 | what such a tree writes is left to the enclosing transaction, none of it durable |
| TxRefinement.SavepointRestores | db/transaction.go:309-337 | an error return whose rollback worked restores the data held at entry and leaves the entry stack with its own savepoint on top; a nil return restores the stack exactly, in spite of savepoints left by failed inner calls |
| TxRefinement.FindOwn | db/transaction.go:309-337 | with fresh names, looking a savepoint up by name below what inner calls left finds the call's own |
| TxSessions.NamesMustBeFresh | db/transaction.go:365-370 | savepoint calls keep their promise on all states, trees and schedules if and only if no name is drawn twice |
| TxSessions.RepeatedNameBreaks | db/transaction.go:365-370 | for any two draws with the same name there is a tree in which the outer rollback stops at an inner leftover |
| TxSessions.CounterNamesAreFresh | db/transaction.go:360-370 | the names of the global counter are never drawn twice |
| TxTheorems.SerializedOnce | db/transaction.go:201-227 | at most the given number of begins, all serializable, at most one commit, nil exactly when one committed, and the store gets the effect of that one attempt alone |
| TxTheorems.AttemptsBounded | db/transaction.go:219-226 | the retry loop with n attempts left begins at most n serializable transactions and commits at most one, exactly on a nil return |
| TxTheorems.LastAttemptAlone | db/transaction.go:219-226 | what the retry loop makes durable is the effect of the last attempt alone, or nothing |
| TxTheorems.RetriesUntilDecided | db/transaction.go:217-226 | the loop ends with the first attempt that does not fail on serialization, or with the last one allowed, whose error it wraps; all attempts before it did fail so |
| TxSerial.SerialInInnermost | db/transaction.go:206-212 | in every tree a nested serialized call runs its body in the innermost transaction open at that moment, under exactly the options that one was begun with |
| TxSchedules.AlwaysSerializableIff | db/transaction.go:194-227 | nested serialized bodies run in a serializable transaction under all failures, branches and retry limits if and only if the tree can reach no nested call whose innermost transaction has lower options, which the tree, the context and the default level decide |
| TxSchedules.Showing | db/transaction.go:206-212 | for every tree that can reach such a call, a schedule of failures and branches under which it does |
| TxExposure.LostIffHits | db/transaction.go:206-212 | the events show such a call exactly when the tree's meaning under the environment has one |
| TxExposure.OnlyIsolatedExposes | transaction.go:42-47 | a tree whose isolated transactions all ask for at least the serializable level cannot reach one |
| TxTheorems.IsolatedLosesSerializable | db/transaction.go:206-216 | an instance: a tree in which a nested serialized body runs, and commits, in a transaction with default options |
| TxSessions.PinnedReturned | db/pinnedconn.go:55-79 | a checked out session is returned exactly once, last, with nothing open on it, and every statement runs on it or on a session begun from within a transaction; if the close fails, the call fails with the causes of the close error and those of the body's |
| TxSessions.RequestsGranted | transaction.go:30-39 | at every depth each body that runs does so in a really begun transaction whose isolation field is at least the one asked for, each with its default, and which is read-only only if that was asked for |
| TxSessions.CheckAccepts | transaction.go:87-114 | on the fields of the options: accepted if and only if a read-only parent meets a read-only child and the child's level is at most the parent's, where none and 0 stand for the default |
| TxSessions.NestedOrRefused | transaction.go:30-39 | inside a transaction a call with acceptable options is its body alone, and any other is refused with nothing done |
| TxSessions.CheckIsPreorder | transaction.go:87-114 | the compatibility check lets through exactly what grants the request, and does so along chains of nested requests |
| Transactions.Database.NextTransactionID | transaction.go:18-20 | the counter goes up by one and gives the new value |
| Transactions.Database.Begin | generictx.go:95-101 | a begin that does not fail opens a transaction with an empty log on the pinned session, or on a new one |
| Transactions.Database.Transaction | transaction.go:30-40 | refines RunTransaction: state, events and outcome |
| Transactions.Database.IsolatedTransaction | transaction.go:47-83 | refines RunIsolated: state, events and outcome |
| Transactions.Database.Deferred | transaction.go:54-80 | the deferred function ends the transaction as Finish says, after a panic, an error or a nil return |
| Transactions.Database.SerializedTransaction | db/transaction.go:201-227 | refines the serialized tree |
| Transactions.Database.Attempts | db/transaction.go:219-226 | the retry loop refines RunAttempts |
| Transactions.Database.TransactionSavepoint | db/transaction.go:309-318 | refines the savepoint tree: pass through, new transaction, or savepoint |
| Transactions.Database.SavepointInTransaction | db/transaction.go:320-336 | refines RunSavepoint statement by statement |
| Transactions.Database.PinnedConn | db/pinnedconn.go:55-79 | refines the pinned tree: pass through, or check out, run and return |
| Sql.BindingsAgreeIff | querybuilder.go:132-159 | binding by number and binding by order of appearance give the same text if and only if the list for the latter begins with the arguments picked in the order in which the placeholders appear |
| SqlAst.BindText | querybuilder.go:132-340 | binding the text of any statement by number is the text of the statement with its slots bound |
| SqlReader.TextReadsBack | querybuilder.go:132-340 | the text of every statement of every builder is read back as exactly that statement |
| QueryBuilder.WriteList | querybuilder.go:132-159 | the comma loop writes the kept columns in order with separators between, or fails at the first bad name |
| QueryBuilder.FirstBadIs | querybuilder.go:132-159 | the error names the first column that the formatter rejects, and there is none if it rejects none |
| QueryBuilder.Insert | querybuilder.go:132-159 | builds the one row insert with placeholder i for column i, or fails on the table or the first bad column |
| QueryBuilder.InsertRows | querybuilder.go:163-199 | builds n rows with placeholder row*numCols+col in each place |
| QueryBuilder.UpdateColumns | querybuilder.go:251-311 | non-key columns first, then key columns, numbered through |
| QueryBuilder.Delete | querybuilder.go:315-340 | one equality per column, numbered in order |
| QueryBuilder.QueryRowWithPK | querybuilder.go:110-129 | one equality per key column, numbered in order |
| QueryBuilder.Update | querybuilder.go:223-245 | SET placeholders numbered behind the where arguments, which come first in the argument list |
| Dialects.PgUpsert | postgres/querybuilder.go:54-107 | the insert with ON CONFLICT on the keys, reusing placeholder i for column i in SET |
| Dialects.PgInsertUnique | postgres/querybuilder.go:37-49 | the insert that does nothing on a conflict with the target, written as given but for a pair of outer parentheses |
| Dialects.MyUpsert | mysqlconn/querybuilder.go:78-114 | the insert with ON DUPLICATE KEY UPDATE of the non-key columns, or an error when there is none |
| Dialects.MyInsertUnique | mysqlconn/querybuilder.go:60-72 | the insert that sets the first name of the comma-separated target, trimmed, to itself, or the error for that name |
| Dialects.UpdateInOrder | mysqlconn/querybuilder.go:32-45 | the same text as the standard builder, with the values copied in front of the where arguments |
| Dialects.MsBuildMerge | mssqlconn/querybuilder.go:67-162 | the MERGE with a VALUES source, matching on the conflict columns |
| Dialects.MsUpsert | mssqlconn/querybuilder.go:42-62 | the MERGE on the key columns, or the first error of its checks |
| Dialects.MsInsertUnique | mssqlconn/querybuilder.go:31-38 | the MERGE on the trimmed names of the comma-separated target that updates nothing |
| Dialects.OraBuildMerge | oraconn/querybuilder.go:92-180 | the MERGE with a SELECT source, matching on the conflict columns |
| Dialects.OraUpsert | oraconn/querybuilder.go:67-87 | the MERGE on the key columns, or the first error of its checks |
| Dialects.OraInsertUnique | oraconn/querybuilder.go:56-63 | the MERGE on the trimmed names of the comma-separated target that updates nothing |
| ConflictTargets.NamesComeBack | querybuilder.go:55-65 | names listed with commas and any whitespace around them come back from the target, and a pair of outer parentheses goes away again |
| Upserts.UpsertsAgree | mssqlconn/querybuilder.go:42-162 | with one argument per column, the four dialects' texts, each bound in its driver's way, are read as statements on the given table which all perform the same upsert, when its only unique key is the primary key |
| InsertUniques.InsertUniquesAgree | oraconn/querybuilder.go:56-63 | with one and the same target that names the primary key columns, in any order, for PostgreSQL also in parentheses, the four dialects' texts, each bound in its driver's way, are read as statements on the given table that insert when the key is absent and else leave the rows alone |
| InsertUniques.MergeIsUnique | mssqlconn/querybuilder.go:31-38 | a MERGE that compares exactly the key and updates nothing is that insert |
| Upserts.PgMeans | postgres/querybuilder.go:54-107 | the PostgreSQL statement is the upsert: insert when the key is absent, else overwrite exactly the non-key columns |
| Upserts.MyMeans | mysqlconn/querybuilder.go:78-114 | so is the MySQL statement |
| Upserts.MsMeans | mssqlconn/querybuilder.go:67-162 | so is the SQL Server statement |
| Upserts.OraMeans | oraconn/querybuilder.go:92-180 | so is the Oracle statement |
| Upserts.UpsertEffect | postgres/querybuilder.go:54-107 | an upsert keeps the table well formed, changes no row with another key, and the row with the key holds the given values |
| Upserts.UpsertIdempotent | upsert.go:19-90 | applying an upsert twice is applying it once |
| Updates.UpdateByNumber | querybuilder.go:223-245 | bound by number, every SET column and every where slot gets its own value, whatever the condition does with its placeholders |
| Updates.UpdateWhereEffect | querybuilder.go:223-245 | with a conjunction of equalities as its condition, in any order and with repeated or unused arguments, the text is read as an UPDATE of exactly the rows that meet it and exactly the given columns |
| Updates.UpdateInOrderIff | oraconn/querybuilder.go:32-45 | bound by order of appearance with the values in front, the text means the intended update if and only if the where arguments begin with those that the condition asks for, in its order |
| Updates.InOrderIffInSequence | oraconn/querybuilder.go:32-45 | it does so for all values and arguments if and only if the condition uses the placeholders from the first on, once each and in order |
| Updates.RepeatedPlaceholder | oraconn/querybuilder.go:32-45 | an instance: a condition that uses its one placeholder twice is bound differently on every table, for every argument |
| Updates.ReorderForUpdate | update.go:242-255 | the two append loops give the entries of non-key columns, then those of key columns |
| Updates.UpdateColumnsBound | update.go:98-173 | after reordering, SET has each non-key column and WHERE each key column with its own value; with a key column WHERE is not empty |
| Updates.RowUpdateEffect | update.go:98-173 | the bound text is read as a statement on the given table that changes exactly the rows whose key columns equal the struct's, and in them exactly the non-key columns, whichever way it is bound |
| Updates.RowDeleteEffect | delete.go:18-86 | the bound text is read as a statement on the given table that removes exactly the rows whose key columns equal the struct's, whichever way it is bound |
| Updates.RowSelectFinds | querybuilder.go:110-129 | the query by primary key is read as a SELECT from the given table that finds exactly the rows with the given key values, whichever way it is bound |
| Updates.DeleteWhere | querybuilder.go:315-340 | its WHERE has one equality per key column, and holds for a row exactly when the row has that key |
| InsertBatches.CollectValues | insert.go:328-342 | the values of the rows of a range one after the other, or the error of the first nil row |
| InsertBatches.MakePlan | insert.go:287-424 | the batching arithmetic: direct, one batch, or full batches and a remainder in a transaction |
| InsertBatches.InsertRowStructs | insert.go:287-424 | runs the plan on a database: state, events and outcome |
| InsertBatches.BatchInserts | insert.go:328-342 | placeholder row*numCols+col is bound to that row's col-th value, and no statement has more than MaxArgs arguments |
| InsertBatches.PlanCovers | insert.go:287-424 | for any number of rows: nothing is planned for no row only, the plan contains an error exactly if a row is nil or a name is refused, and else its statements insert all rows exactly once and in order |
| InsertBatches.InsertsAllOrNothing | insert.go:287-424 | for any number of rows nil means that statements covering all rows in order were executed together, and an error leaves the committed store as it was |
| InsertBatches.ChunksAreRows | insert.go:287-424 | executing the batches is inserting the rows one by one in order |
| InsertBatches.InsertsRowByRow | insert.go:287-424 | for any number of rows: a nil return has committed statements whose texts are read as inserts that make of every table what inserting the rows one by one makes of it, and an error has committed nothing |
| InsertBatches.SucceedsIff | insert.go:287-424 | when no driver call fails, nil is returned if and only if there is no row, or no row is nil, all names are accepted, and several rows have columns and fit the driver's arguments one at a time, or all at once inside a transaction that takes no nested one |
| Listener.Guarded.Register | pqconn/listener.go:220-228 | the critical section of listenOnChannel appends each callback given to its channel's list |
| Listener.Guarded.Take | pqconn/listener.go:246-250 | the critical section of unlistenChannel removes the channel from both maps and gives its unlisten callbacks |
| Listener.Guarded.TakeAll | pqconn/listener.go:294-299 | the critical section of close empties both maps and gives all unlisten callbacks |
| Listener.Guarded.Notify | pqconn/listener.go:188-195 | starts each callback of the channel once, in order, with the notification |
| Listener.Guarded.Channels | pqconn/listener.go:147-157 | the channels to subscribe again are those in use, each once |
| ListenerReconnect.ResubscribesEach | pqconn/listener.go:143-166 | in every run a resubscription that has returned has asked once for each channel that had callbacks when it held the lock, by the history of the lock, and for no other |
| ListenerReconnect.RestoresIff | pqconn/listener.go:143-166 | after a lost connection, a resubscription whose question about a channel is answered well leaves it subscribed while it has callbacks, in every continuation without an unlisten or close of it, if and only if the channel was in use at the loss, or no listen call that was already agreed to is still to register for it, or the listener was stopped |
| Listener.Guarded.IsListening | pqconn/listener.go:265-274 | true exactly when the channel has a callback of either kind |
| Listener.Reachable | pqconn/listener.go:211-313 | every state of every interleaving satisfies the invariant: conservation, calls' goroutine accounts, maps equal to the log, one winner of stopOnce |
| Listener.NoneLostNoneTwice | pqconn/listener.go:211-313 | registered = in the map + taken and not begun + running + finished, for each registration, and none begins more often than it was registered |
| Listener.ReturnedMeansDone | pqconn/listener.go:252-262 | when a call has returned, each callback that it took has finished exactly as often as it was taken |
| Listener.CloseWaitsForCleanup | pqconn/listener.go:284-313 | any close call returns only after the one cleanup, with all its callbacks finished |
| Listener.CleanupOnce | pqconn/listener.go:288-313 | the cleanup happens at most once and the stop channel is never closed twice |
| Listener.NotifyReachesLive | pqconn/listener.go:188-195 | a notification starts exactly the callbacks registered since the channel was last removed |
| ListenerClose.CloseRunsAllIff | pqconn/listener.go:276-313 | after the stop channel is closed, every continuation in which all calls have returned has run every unlisten callback exactly once if and only if at that moment no listen call with one is between its isStopped test and its lock; then no later call registers one either |
| ListenerClose.LeavesOne | pqconn/listener.go:211-228 | from every state of a stopped listener with such a call there is a continuation to a state with no call in progress in which its callback is registered, and nothing ever runs it |
| ListenerRaces.LateRegistration | pqconn/listener.go:211-228 | an instance: a run in which a callback stays registered after close has returned |
| ListenerRaces.LostIff | pqconn/listener.go:215-300 | in every run a channel has callbacks without being subscribed if and only if the connection last agreed to an unlisten or a close of it, or was lost, while the last critical section about it registered a callback |
| ListenerRaces.ApartKeepsSubscribed | pqconn/listener.go:215-300 | as long as the connection is not lost: if no listen call on a channel overlaps an unlisten call on it or the close, the channel is subscribed whenever it has callbacks and no call is in progress |
| ListenerRaces.LostSubscription | pqconn/listener.go:215-250 | an instance: a run in which all calls succeed and a callback is left on a channel that is not subscribed |
| Listener.NeverStuck | pqconn/listener.go:236-313 | as long as a call has not returned, it or the close that it waits for can take a step |
| Reflection.MapStructField | taggedstructreflector.go:80-122 | the column of a field with its type text and flags, and whether it is used, with the tag loop |
| Reflection.FlagsAreOptions | taggedstructreflector.go:100-113 | a flag is set if and only if its word is among the tag's options |
| Reflection.OptionsAreSplit | taggedstructreflector.go:96-113 | the options are the texts between the commas behind the name, without an empty last one |
| Reflection.MappedMeans | taggedstructreflector.go:80-122 | which fields are used, with which name, type text and flags, from the tag cut at its first comma |
| Reflection.FlattenStructFields | cache.go:97-122 | the recursion with its append loop gives the flattened fields |
| Reflection.FlatIsDepthFirst | cache.go:97-122 | on any tree of embedded structs the indices are listed depth first, each before the next at the first difference, so they are distinct and prefix-free |
| Reflection.FlatReaches | cache.go:97-122 | every index leads to a field of the type |
| Reflection.FlatIff | cache.go:97-122 | a field is listed if and only if its index is a path through used embedded fields to a used field with a name, with that field and its column |
| Reflection.ReflectStruct | cache.go:69-84 | succeeds if and only if no two fields have the same column, and then the index maps each column to its field; the error names a repeated column |
| Reflection.PutElsewhere | taggedstructreflector.go:135-146 | writing at one index changes nothing at an index apart from it |
| Scanning.ReflectColumnsFieldIndicesAndValues | taggedstructreflector.go:231-254 | columns, indices and values list the fields that no option leaves out, side by side in order |
| Scanning.ChosenIn | taggedstructreflector.go:236-244 | those are exactly the fields that no option ignores |
| Scanning.ScanableFieldsForColumns | taggedstructreflector.go:126-188 | each column goes to its field or is discarded, or the error that the settings ask for, with its full list |
| Scanning.UnmappedMeans | taggedstructreflector.go:150-170 | the list of unmapped columns is empty just when all columns are mapped |
| Scanning.MissingMeans | taggedstructreflector.go:171-186 | the list of missing fields is empty just when every field has a column |
| Scanning.PathHasColumn | cache.go:69-84 | the column at the end of every such path is in the index with its field |
| Scanning.ColumnHasPath | cache.go:69-84 | every name in the index is the column at the end of such a path |
| Scanning.ScanRestores | taggedstructreflector.go:126-188 | scanning back what was reflected, in any column order, with repeats and unknown columns, gives every field with a column the reflected value and leaves the other fields |
| Scanning.ScanTouchesNothingElse | taggedstructreflector.go:126-188 | nothing apart from the fields with a column changes |
| Scanning.StructRoundTrip | taggedstructreflector.go:126-254 | for any struct type, two of its values and any path through embedded structs to a field with a column, scanning the row of one into the other copies that field if its column is in the result, and else leaves it |
| QueryCaches.CachesAgree | cache.go:127-151 | in every interleaving of calls and clears each cache entry equals recomputation from its key, and each call does what an uncached call or a hit on a fresh entry does |
| QueryCaches.HitIsMissIff | update.go:112-172 | a hit sends the same query with the same arguments in the same order as a miss if and only if no field sent is handled by a TypeWrapper |
| QueryCaches.CachesDoNotShow | cache.go:58-92 | without handled fields, every finished call in every interleaving did what it would have done alone and uncached |
| QueryCaches.OnlyWithKey | upsert.go:58-63 | a cached update, upsert or delete always has a key column |
| CachedUpdates.SentUpdatesTheStruct | update.go:98-173 | in every interleaving an update call that sent a query, from a cache or not, has sent one that changes exactly the rows with the struct's key, and in them exactly the other mapped columns, each to its own field |
| CachedUpdates.SentIsForItsColumns | insert.go:97-162 | in every interleaving each of the four calls that sent a query has sent its own builder function's query for exactly the fields that no option leaves out, less the read-only ones, or for a delete of these the keys, with one argument for each |
| RowStructs.QueryCache.Store | insert.go:138-150 | the nested maps change at exactly the one key |
| RowStructs.ContainsKey | update.go:139-144 | the guard holds exactly when a column is a primary key |
| RowStructs.Uncached | delete.go:48-86 | the outcome of an uncached call with its guards in order, and the indices to remember |
| RowStructs.RowStruct | insert.go:97-162 | one call keeps the cache valid, hits or computes, and stores exactly when it may |
| Placeholders.SubstitutePlaceholders | format.go:133-164 | the Go function: the text, and the errors in the order in which they are met, backwards for numbered placeholders |
| Placeholders.NumberedIsSimultaneous | format.go:147-161 | replacing from the last to the first is substituting all at once, when the result shows no placeholder of its own and none runs into the digits of a longer one |
| Placeholders.SeparatedIsSimultaneous | format.go:147-161 | the same from conditions to check beforehand: no value contains the prefix, and no placeholder is followed by one more than ten times as far along |
| Placeholders.UniformIsSimultaneous | format.go:137-146 | the i-th mark gets the i-th text; marks without an argument stay and arguments without a mark do nothing |
| UniformMarks.UniformIff | format.go:137-146 | filling the leftmost mark with one text after the other is simultaneous substitution for every query if and only if behind a text with a mark in it all texts are just the mark |
| Placeholders.FailuresAreHarmless | format.go:115-125 | an argument that cannot be formatted leaves the sentinel in its own places only, and needs no condition |
| PlaceholderLimits.SimultaneousIff | format.go:147-161 | on a query, replacement is simultaneous substitution for all values if and only if no placeholder is directly followed by one more than ten times as far along |
| PlaceholderLimits.FarBreaks | format.go:147-161 | for every query with such a pair there are texts for which it is not |
| Numerals.ItoaExtends | format.go:148-151 | a numeral that another one extends belongs to a number at least ten times smaller |
| Numerals.ItoaIsDecimal | format.go:148-151 | read as a decimal number the numeral is the number again, and it has no leading zero |
| Whitespace.TrimSurroundingWhitespace | format.go:195-235 | terminates without slicing past a line, and gives the normal form: trimmed, or the right-trimmed non-blank lines without their longest common whitespace prefix |
| Whitespace.TrimLines | format.go:202-208 | the loop that deletes while it goes keeps exactly the trimmed non-blank lines |
| Whitespace.RemoveMargin | format.go:214-232 | the loop removes the longest common whitespace prefix |
| Whitespace.NormalFormUnique | format.go:195-235 | a query has one normal form |
| Whitespace.TrimSpaceTrims | format.go:195-199 | the text is whitespace, then the trimmed text, then whitespace, and the trimmed text has none at its ends |
| Whitespace.OnlyWhitespaceGoes | format.go:195-235 | the normal form has all characters of the query that are not whitespace, in their order |
| Whitespace.TrimIsIdempotent | format.go:195-235 | trimming twice is trimming once, for all texts |
| Quoting.LiteralRoundTrip | format.go:239-241 | a doubled-quote literal (section 5.3 of ISO/IEC 9075-2) is read back as its text and ends where it should |
| Quoting.FormatMySqlLiteral | mysqlconn/queryformatter.go:140-167 | the byte loop writes the escaped bytes between quotes |
| Quoting.MySqlLiteralRoundTrip | mysqlconn/queryformatter.go:140-167 | every byte string survives writing and reading |
| Quoting.EscapeIdentifier | mysqlconn/queryformatter.go:87-108 | quotes exactly when a character or a reserved word asks for it, in each dialect |
| Quoting.ReservedIsQuoted | mssqlconn/queryformatter.go:230-250 | a reserved word in any case cannot be read as an identifier where it stands bare, and what is written for it is read back as the word, in each dialect |
| Quoting.FormatTableName | mssqlconn/queryformatter.go:257-265 | accepts exactly the names of the regular expression, and escapes their parts |
| Quoting.PartReadsBack | oraconn/queryformatter.go:206-211 | a written name part is read back as itself, or in Oracle without quotes as its upper case or, beginning with an underscore, not at all |
| Quoting.TableRoundTrip | oraconn/queryformatter.go:168-203 | every accepted schema.table name is read back as its parts if and only if, in Oracle, all parts came out in quotes |
| Quoting.NamesStayApart | mysqlconn/queryformatter.go:114-122 | two accepted names of MySQL or SQL Server are never written alike |
| ForeignKeys.Aggregate | mssqlconn/information.go:340-371 | the row loop over objects shared through a map gives one entry per constraint in first-seen order, the error of the first row that cannot be scanned, or the error at the end when all rows were |
| ForeignKeys.Paired | mssqlconn/information.go:361-362 | columns and referenced columns stay equal in length |
| ForeignKeys.RowsAreConserved | mssqlconn/information.go:340-371 | every row's column pair is in the entries exactly as often as it was read, under its own constraint |
| ForeignKeys.GroupedRowsComeBack | mssqlconn/information.go:340-371 | for rows grouped by name, writing the entries out gives the rows back in order |
| ForeignKeys.FirstRowDecides | mssqlconn/information.go:349-359 | a constraint's table and actions are those of its first row |
| ForeignKeys.ActionWords | mssqlconn/information.go:375-387 | the four descriptions come out with spaces for underscores, any other as it is |
| ValueMaps.SortedColumnsAndValues | values.go:13-26 | the map's columns strictly sorted by name, each with its value |
| ValueMaps.SameListsEveryTime | values.go:13-26 | the same map gives the same lists every time, whatever its iteration order |
| ValueMaps.SortedOnlyOneWay | values.go:18-20 | names have one strictly sorted arrangement, so the sorting algorithm cannot show |

## Left out

- Drivers, pools and servers: replaced by abstract machines that may fail at any call. A commit that fails is taken as not applied, and a rollback as closing the transaction whatever it returns.
- Transaction IDs, savepoint numbers and sessions are unbounded; the 64 bit wrap-around of the counters is not modelled.
- Error messages are reduced to the set of causes that errors.Is would find. The pq and SQL Server transactions do not mark a failed Commit as a serialization failure, which is a matter of the causes that the failure schedule gives.
- Callers are finite trees. `runtime.Goexit`, bodies that commit or roll back themselves, that swap the connection in the context, that capture an outer context, or that issue raw savepoint SQL are not modelled, nor is the value of a panic.
- The sqlite connection, and the connection wrappers that only forward or disable placeholder substitution.
- SQL text is a sequence of tokens: how a table or column name is written is in Quoting, how a placeholder is written in Placeholders. SQL type conversion and triggers are not modelled.
- InsertUniques.InsertUniquesAgree: conflict targets other than the primary key are modelled as text only, and the count of affected rows is not modelled. PostgreSQL is taken to read a target as its names between commas, without quotes and without folding their case.
- SqlReader.TextReadsBack: the reader takes lists that are empty, which a database would refuse, and knows only the statements of the builders.
- AUTO_INCREMENT and identity columns: a NULL key is an error in every dialect.
- UPDATE ... RETURNING and INSERT ... RETURNING, the prepared row loops of UpdateRowStructs, UpsertRowStructs and DeleteRowStructs, and queryRowStructCache: they would repeat what is proved for the others.
- Transactions.Database.Begin: the read-only and isolation options are recorded and not enforced by the machine.
- Placeholders: FormatValue is not modelled; the arguments come with their formatted texts or their errors. Numbers in a query that are beyond the arguments are not covered by the substitution lemmas.
- Whitespace.TrimSurroundingWhitespace: text is valid UTF-8, as characters; invalid bytes are not modelled.
- Quoting.EscapeIdentifier: the lists of reserved words are a parameter, so the results hold for any list; the PostgreSQL formatter, which has the same form, is not repeated.
- Quoting.ReservedIsQuoted: a reserved word is one of the parameter's lower case words in any case of ASCII letters.
- Reflection: reflect itself, and pointers to embedded structs, which must be structs here. Other StructReflector and QueryBuilder implementations are taken to give the same answer every time.
- Scanning.ScanRestores: conversion by the driver and by TypeWrappers is a pair of inverse functions per field.
- QueryCaches: a call's table name, query and reflected fields are functions of the key; the struct cache is one map in the interleavings and not a class.
- InsertBatches.InsertsRowByRow: a single row is sent without a look at MaxArgs, as in the code, so the bound on arguments is stated for several rows.
- ListenerReconnect.RestoresIff: a lost connection drops all subscriptions at once; lib/pq's own attempt to listen again on a new connection is not modelled.
- ListenerClose: the connection may agree to any call in the model, also after it was closed; the schedule behind CloseRunsAllIff asks it before.
- Listener: the ping ticker, logging and the reconnect inside lib/pq. A callback that panics counts as one that came back. A callback that itself closes the listener from inside the cleanup would wait for itself; callbacks here only begin and end.
- ForeignKeys: the catalog query and the lookups before it.
- ValueMaps.SortedColumnsAndValues: slices.SortFunc is an insertion sort; SortedOnlyOneWay says why that does not matter.
- String quoting of other drivers, secrets, mocks, configuration, information and dropall code.
