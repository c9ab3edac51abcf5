# Verified model of snekql

A Dafny model of the parts of snekql where a mistake is hardest to see: the CHECK printer, tokenizer,
parser and normalizer behind schema verification; the FIFO admission gate in front of a connection pool;
transactions with savepoints and the retry loop built on them; the query and expression compiler; and
row decoding, UNION compatibility and the schema diff.

`dafny verify dfyconfig.toml` checks the whole project.

## How the files fit together

| file | models |
|---|---|
| `TextCodec.dfy` | decimal, hexadecimal and strict UTF-8 text, with their inverses |
| `CheckTree.dfy`, `CheckNormalize.dfy`, `CheckTotal.dfy` | CHECK trees and `normalize_check`, also where it raises |
| `ThreeValued.dfy`, `CheckMeaning.dfy` | their three-valued meaning (section 8.12 of ISO/IEC 9075:1992) |
| `CheckLexer.dfy`, `CheckParser.dfy`, `CheckRender.dfy` | `_tokens`, `_Parser` and `render_check` |
| `CheckRoundTrip.dfy`, `CheckParseBack.dfy`, `SchemaSql.dfy` | tokenizing and parsing rendered SQL; literal defaults |
| `CheckSound.dfy` | bound and parsed trees are ones normalization is sound for |
| `TokenBalance.dfy`, `SchemaColumns.dfy` | SQLite column definitions as compiled, and how they read |
| `CheckCatalog.dfy`, `TableScan.dfy`, `SchemaTables.dfy`, `SchemaIndexes.dfy` | reading CHECKs and index predicates back from compiled DDL |
| `PoolGate.dfy` | `FairAdmissionGate` and every interleaving of its lock-held sections |
| `Transactions.dfy`, `TransactionRuns.dfy`, `TransactionRetry.dfy` | `Transaction`, runs against an unreliable server, `run_with_retry` |
| `CteGraph.dfy` | the depth-first walk that orders WITH definitions |
| `QueryAst.dfy`, `QueryTemplate.dfy`, `QueryCompile.dfy` | query states, their direct rendering, and the compiler |
| `QueryStatement.dfy` | the walk and the compiler together |
| `Expressions.dfy`, `SetOrder.dfy` | building and evaluating computed values; the SET dependency check |
| `Decoding.dfy`, `Unions.dfy`, `JoinedRows.dfy` | decoders, UNION acceptance, joined row shapes |
| `SchemaDiff.dfy` | `compare_table_shapes` |
| `SchemaScaffold.dfy` | a scaffolded table compared with what is read back from its DDL |

Loops and objects of the source are methods and classes proved against specification functions; what the
source promises is then proved of those functions, over all inputs, all runs or all reachable states.

## What turned out not to hold

- Normalization looks inside operands of comparisons. An operand that is a tower of an even number of NOTs
  over a column or literal collapses to its core, which changes its value (`NOT NOT x` is 1 where x is 5).
  Truth is kept for every tree without such an operand, an operand keeps its value exactly when it does not
  collapse, and a collapsed operand changes the meaning of a CHECK that still compares as matched.
- `normalize_check` is not total: a NOT over a NOT without an operand raises, also when AND and OR chains stand
  between them. The condition is exact; neither the binder nor the parser builds such a tree.
- A transaction acquires a second connection when a failed begin's `discard` raises: the transaction is then
  neither closed nor connected and may be entered again. The number of leases is given exactly.
- An exit whose close task fails the ownership check (another task opened a nested block meanwhile) leaves
  the connection open for good, because every later exit sees the finished close task. The condition is exact.
- The SET dependency check compares assignment objects by identity, so one object listed twice passes it;
  an increment listed twice differs between simultaneous and left-to-right evaluation. Updates of distinct
  objects never differ.
- `__nullable_when_extended__` is exact without CASE and an over-approximation with it.

## Model

| member | source | states |
|---|---|---|
| `TextCodec.DecimalRoundTrip` | snekql/_check_catalog.py:185-186 | the decimal text of a natural number is digits only and reads back as that number |
| `TextCodec.Utf8RoundTrip` | snekql/_checks.py:206-213 | strict UTF-8 decoding inverts encoding on every text |
| `TextCodec.HexTextRoundTrip` | snekql/_checks.py:208-212 | the hexadecimal spelling of a text's bytes decodes back to the text |
| `CheckTotal.NormalizeCheck` | snekql/_check_catalog.py:233-271 | terminates on every tree, raising or not: a result never weighs more, with a weight that shrinks across the De Morgan rebuild |
| `CheckTotal.RaisesExactly` | snekql/_check_catalog.py:236-262 | it raises if and only if a NOT stands over a NOT without an operand, directly or through AND and OR chains |
| `CheckTotal.NormalizeCheckAgrees` | snekql/_check_catalog.py:233-271 | where every NOT has an operand nothing is raised, and the result is the one the next rows are about |
| `CheckNormalize.NormalizeIsNormal` | snekql/_check_catalog.py:233-271 | NOT is left only over nodes without a complement, and no AND under AND or OR under OR |
| `CheckNormalize.NormalFixpoint` | snekql/_check_catalog.py:233-271 | a tree in that form is returned unchanged |
| `CheckNormalize.NormalizeIdempotent` | snekql/_check_catalog.py:233-271 | normalizing twice is normalizing once |
| `CheckMeaning.NormalizeKeepsTruth` | snekql/_check_catalog.py:233-271 | three-valued truth is kept on every row and under every collation, when no operand collapses |
| `CheckMeaning.MatchedMeansEqual` | snekql/_schema_shape.py:563-585 | a CHECK or predicate reported as matched has the same truth on every row |
| `CheckMeaning.OperandKeptExactly` | snekql/_check_catalog.py:233-271 | an operand keeps its value in every setting if and only if it is not a collapsing tower of NOTs |
| `CheckMeaning.CollapsedOperandChangesMeaning` | snekql/_check_catalog.py:233-271 | for every collapsing operand, two CHECKs that match differ on some row |
| `CheckMeaning.RebracketingMatches` | snekql/_schema_shape.py:563-585 | trees equal up to the bracketing of AND and OR chains, anywhere, always match |
| `CheckSound.BoundStays` | snekql/_checks.py:58-132 | every tree the binder builds has an operand under each NOT and no operand that collapses |
| `CheckSound.ParsedIsProper` | snekql/_check_catalog.py:111-230 | every tree the catalog parser returns has an operand under each NOT |
| `CheckSound.ReadChecksAreProper` | snekql/_check_catalog.py:285-332 | so has every CHECK read from any CREATE TABLE |
| `CheckLexer.ReadQuoted` | snekql/_check_catalog.py:47-69 | the quoted text read by the loop is the recursive reading, doubled quotes halved, or it is unclosed |
| `CheckLexer.LineEndIsFirst` | snekql/_check_catalog.py:38-40 | a line comment ends after its first newline, or with the text |
| `CheckLexer.AfterNewline` | snekql/_check_catalog.py:39-40 | the search stops after the first newline from its start, or at the end of the text when there is none |
| `CheckLexer.CommentEndIsFirst` | snekql/_check_catalog.py:42-46 | a comment ends with its first closing pair, and is unclosed exactly when it holds none |
| `CheckLexer.FindCommentEnd` | snekql/_check_catalog.py:43 | the first closing pair from its start; none is found exactly when none is there |
| `CheckLexer.ReadToken` | snekql/_check_catalog.py:47-97 | the next token and the position after it |
| `CheckLexer.Tokenize` | snekql/_check_catalog.py:28-98 | the scanning loop produces exactly the recursive reading of the text, or rejects it exactly when that does |
| `CheckParser.Parser.Parse` | snekql/_check_catalog.py:111-115 | the parser object accepts exactly complete expressions of the recursive grammar |
| `CheckParser.Parser.Boolean` | snekql/_check_catalog.py:130-135 | a left-associated AND or OR chain, leaving the position after it |
| `CheckParser.Parser.ParseComparison` | snekql/_check_catalog.py:137-172 | NOT, null tests, membership, BETWEEN and comparisons, as the grammar reads them |
| `CheckParser.Parser.ParseOperand` | snekql/_check_catalog.py:174-230 | parenthesized conditions, signed integers, texts, hexadecimal calls and names, as the grammar reads them |
| `CheckRoundTrip.LexRender` | snekql/_checks.py:201-240 | a rendered tree reads as its own tokens in front of anything that may follow an expression, for both backends |
| `CheckParseBack.TokensParse` | snekql/_check_catalog.py:101-230 | parsing those tokens returns exactly that tree and leaves the tokens after it |
| `SchemaSql.RenderRoundTrip` | snekql/_checks.py:58-132 | for every tree the binder can produce, tokenizing and parsing its SQL returns that tree |
| `SchemaSql.MariadbCheckRoundTrip` | snekql/_check_catalog.py:274-282 | `parse_check` of MariaDB's rendering returns the tree |
| `SchemaSql.RenderedDefaultMatches` | snekql/_server_defaults.py:89-128 | a rendered literal default always compares as matched |
| `SchemaSql.ReportedDefaultMatches` | snekql/_server_defaults.py:105-128 | so does the text SQLite reports for it, without the parentheses of a default expression |
| `CheckCatalog.ReadCheck` | snekql/_check_catalog.py:274-282 | the tokenizer and parser together refine the specification, backslash texts refused |
| `CheckCatalog.ReadDefault` | snekql/_check_catalog.py:335-350 | a literal default is recognized exactly when the specification reads one literal |
| `CheckCatalog.FindClosing` | snekql/_check_catalog.py:313-324 | the parenthesis that closes the group |
| `CheckCatalog.ReadSqliteChecks` | snekql/_check_catalog.py:285-332 | the scan of a CREATE TABLE yields the CHECKs at table level, in order, with names and trees |
| `CheckCatalog.FindWhere` | snekql/_check_catalog.py:381-397 | the first WHERE outside parentheses after the column list has closed |
| `CheckCatalog.ReadIndexPredicate` | snekql/_check_catalog.py:353-401 | the predicate after it, with column names canonical |
| `TokenBalance.RenderBalanced` | snekql/_checks.py:201-240 | a rendered CHECK's tokens are balanced in parentheses |
| `SchemaColumns.ColumnReads` | snekql/sqlite/_schema_ddl.py:59-95 | every compiled column definition reads as balanced tokens without a CHECK of its own, whatever its name and literal default contain |
| `SchemaTables.TableChecksRoundTrip` | snekql/_schema_compile.py:51-84 | from the compiled CREATE TABLE the reader recovers exactly the declared CHECKs, in order, whatever columns, keys and names are around them |
| `SchemaIndexes.IndexPredicateRoundTrip` | snekql/_schema_compile.py:87-108 | from the compiled CREATE INDEX the reader recovers the declared predicate, and none when none was declared |
| `PoolGate.FairAdmissionGate.constructor` | snekql/_pool_gate.py:46-70 | an empty gate |
| `PoolGate.FairAdmissionGate.EnqueueWaiter` | snekql/_pool_gate.py:174-185 | a fresh ticket joins the tail, an old one stays |
| `PoolGate.FairAdmissionGate.DiscardWaiter` | snekql/_pool_gate.py:230-238 | the ticket leaves the queue, if queued, and every sleeper is woken |
| `PoolGate.FairAdmissionGate.TryAdmit` | snekql/_pool_gate.py:116-138 | one pass of the loop under the lock: reject, claim, park or time out |
| `PoolGate.FairAdmissionGate.ReleaseSlot` | snekql/_pool_gate.py:149-160 | one slot back, every sleeper woken |
| `PoolGate.WakeupKept` | snekql/_pool_gate.py:116-160 | no step leaves a slot free while the owner of the head ticket sleeps |
| `PoolGate.CountKept` | snekql/_pool_gate.py:85-100 | every step keeps `admitted` equal to the number of slot owners and within capacity |
| `PoolGate.OrderKept` | snekql/_pool_gate.py:174-238 | every step keeps the queue strictly increasing and below the next ticket |
| `PoolGate.OwnershipKept` | snekql/_pool_gate.py:140-147 | every step keeps exactly one live owner per queued ticket |
| `PoolGate.GateIsSafe` | snekql/_pool_gate.py:85-238 | all of it, in every run of arrivals, admissions, timeouts, cancellations, rejections, releases and wake-ups |
| `PoolGate.NobodyBarges` | snekql/_pool_gate.py:122-137 | a slot is claimed only by the oldest ticket, or by a newcomer when nobody waits |
| `PoolGate.NobodyOvertakes` | snekql/_pool_gate.py:162-185 | over any run the tickets ahead of a waiter only leave, so their number never grows |
| `PoolGate.HeadAdvances` | snekql/_pool_gate.py:128-147 | with a slot free the head ticket's owner can run at once and the queue then advances |
| `PoolGate.NothingLeaks` | snekql/_pool_gate.py:85-160 | when every task is gone no slot, ticket or sleeper is left |
| `Transactions.Transaction.constructor` | snekql/runtime.py:667-711 | a new transaction: unentered, safe, nothing attempted |
| `Transactions.Transaction.RunDriverOperation` | snekql/runtime.py:1666-1700 | a constraint failure of a query fails the innermost block; any other failure makes the connection unsafe |
| `Transactions.Transaction.Enter` | snekql/runtime.py:713-742 | entry is reserved once; a second entry is refused |
| `Transactions.Transaction.FinishAcquire` | snekql/runtime.py:737-749 | the entry goes on with a lease, or gives up its reservation |
| `Transactions.Transaction.FinishBegin` | snekql/runtime.py:749-792 | the connection is kept on success and discarded otherwise; closed only if that discard returns |
| `Transactions.Transaction.Run` | snekql/runtime.py:1186-1189 | a statement is sent exactly when the task owns the transaction and the connection is usable |
| `Transactions.Transaction.OpenChunks` | snekql/runtime.py:376-418 | a stream holds the transaction for its task only if its cursor opened |
| `Transactions.Transaction.FetchChunk` | snekql/runtime.py:497-541 | only the stream's own task fetches, and a failure counts as a query's |
| `Transactions.Transaction.CloseChunks` | snekql/runtime.py:420-450 | closing gives the transaction back whatever the driver answers |
| `Transactions.Transaction.BeginNested` | snekql/runtime.py:552-566 | a savepoint is pushed only after the server acknowledged it |
| `Transactions.Transaction.EndNested` | snekql/runtime.py:568-606 | rollback when raised or failed, then release, and the block is popped on every path |
| `Transactions.Transaction.Exit` | snekql/runtime.py:794-809 | only the first exit that passes the checks starts a close |
| `Transactions.Transaction.FinishClose` | snekql/runtime.py:849-922 | ownership check, detach, unfinished blocks, commit or rollback, evidence, and release or discard |
| `TransactionRuns.LinearKept` | snekql/runtime.py:713-792 | every acquired lease is held or was handed back once, after every step |
| `TransactionRuns.HonestKept` | snekql/runtime.py:881-898 | the reported commit outcome never claims more or less than happened |
| `TransactionRuns.MirrorKept` | snekql/runtime.py:552-606 | while the connection is safe the server's savepoints are the library's nested stack, or a prefix after a caught constraint failure |
| `TransactionRuns.TransactionIsSound` | snekql/runtime.py:713-922 | these hold in every run, whatever the driver answers or loses and however tasks interleave |
| `TransactionRuns.BlockIsAtomic` | snekql/runtime.py:568-606 | over any run inside a block: raised or failed, the contents are those found on entry; clean, those it left; the enclosing blocks and their savepoints are as before |
| `TransactionRuns.BlockIsExclusive` | snekql/runtime.py:1445-1452 | while a block is open, striking every call of every other task from a run gives a run with the same outcome on both sides |
| `TransactionRuns.FailedBlockRefuses` | snekql/runtime.py:1746-1771 | unconnected, closed, unsafe or in a failed block, no statement, stream or savepoint reaches the server |
| `TransactionRuns.UnsafeIsAbsorbing` | snekql/runtime.py:1684-1700 | an unsafe connection stays unsafe, is never released, and is discarded once detached |
| `TransactionRuns.ReleasedMeansConcluded` | snekql/runtime.py:880-922 | a lease is released if and only if its commit or rollback was acknowledged on a safe connection without open blocks |
| `TransactionRuns.DetachedMeansDisposed` | snekql/runtime.py:768-922 | a step hands back exactly the lease it detaches, on every failed begin and every close |
| `TransactionRuns.AtMostOneLease` | snekql/runtime.py:713-792 | leases acquired over a life: one, plus one per failed begin whose discard raised |
| `TransactionRuns.SecondLease` | snekql/runtime.py:768-777 | a run that acquires two |
| `TransactionRuns.CloseRefusedExactly` | snekql/runtime.py:855-861 | a close disposes of nothing if and only if another task owns an open block or there is no connection |
| `TransactionRuns.RefusedCloseKeepsLease` | snekql/runtime.py:805-809 | after such a close the lease is never handed back |
| `TransactionRuns.RefusedCloseHappens` | snekql/runtime.py:849-861 | a run that ends so |
| `TransactionRetry.RetryableCommittedNothing` | examples/transaction_retry.py:50-57 | an attempt that may be retried committed nothing |
| `TransactionRetry.RunWithRetry` | examples/transaction_retry.py:42-65 | the callback's effects commit at most once over all attempts, and exactly once on a normal return |
| `CteGraph.DefinitionGraph.Collect` | snekql/_cte_graph.py:26-39 | the walk terminates, meets every use of the query, adds only what the query reaches, and succeeds on every walkable query |
| `CteGraph.DefinitionGraph.VisitPredicate` | snekql/_cte_graph.py:47-51 | the same for a predicate's nested selects and children |
| `CteGraph.DefinitionGraph.VisitSource` | snekql/_cte_graph.py:53-80 | the same for one source: tables, aliases, combined outputs, seeds and references |
| `CteGraph.DefinitionGraph.TakeName` | snekql/_cte_graph.py:70-79 | a definition's folded name is taken once; a clash means the names are not unique |
| `CteGraph.DefinitionGraph.VisitDefinition` | snekql/_cte_graph.py:82-103 | a definition is listed after everything it mentions, and a cycle is refused |
| `CteGraph.DefinitionGraph.VisitStep` | snekql/_cte_graph.py:91-100 | a recursive step is walked under its own scope, which is then restored |
| `CteGraph.ExactlyReached` | snekql/_cte_graph.py:26-112 | the listed definitions are exactly the reachable ones |
| `CteGraph.CollectCteDefinitions` | snekql/_cte_graph.py:106-112 | success gives each reachable definition once, dependencies first, with names distinct from each other and from visible sources and every seed in its own step; every query whose reachable part is acceptable succeeds, and no other does when a step's scope is used in that step alone |
| `QueryCompile.EmittedFillsBack` | snekql/_query_compile.py:845-885 | giving the placeholders the parameters from left to right restores the direct rendering, none left over |
| `QueryCompile.CompileExpr` | snekql/_value_expression.py:423-446 | text and parameters of a computed value are its template's, operation by operation |
| `QueryCompile.CompileRoot` | snekql/_value_expression.py:354-370 | a column, or a CASE with condition, THEN and ELSE parameters in that order |
| `QueryCompile.CompilePred` | snekql/expressions.py:268-539 | text and parameters of every kind of predicate are its template's, and it is refused exactly when that has none |
| `QueryCompile.CompileMember` | snekql/expressions.py:305-333 | IN over values or a subquery, operand parameters first |
| `QueryCompile.CompileScalar` | snekql/_query_compile.py:171-186 | a parenthesized subquery of exactly one column |
| `QueryCompile.CompilePreds` | snekql/_query_compile.py:337-355 | a conjunction's text and parameters, in order |
| `QueryCompile.CompileFields` | snekql/_query_compile.py:599-645 | the select list with labels and presence marker, scalar parameters in place |
| `QueryCompile.CompileSource` | snekql/_query_compile.py:711-726 | a relation, or a UNION whose left parameters precede its right ones |
| `QueryCompile.CompileJoins` | snekql/_query_compile.py:772-790 | each join's ON parameters in join order |
| `QueryCompile.CompileOrdering` | snekql/_query_compile.py:321-334 | an ordering never binds; one that would is refused |
| `QueryCompile.CompileLimit` | snekql/_query_compile.py:826-842 | limit and offset parameters in the order they are written |
| `QueryCompile.CompileLock` | snekql/_query_compile.py:680-708 | FOR UPDATE only on supported, unnested, plain single-table selects |
| `QueryCompile.CompileSelect` | snekql/_query_compile.py:729-823 | all clauses' texts and parameters in the same order |
| `QueryCompile.CompileDefinition` | snekql/_query_compile.py:864-881 | a WITH definition, its recursive step's parameters after its own |
| `QueryCompile.CompileQuery` | snekql/_query_compile.py:859-885 | WITH definitions and their parameters before the statement's |
| `QueryCompile.CompileSelectSql` | snekql/_query_compile.py:859-885 | a compiled select, executed, is its direct rendering; refused exactly when that does not exist |
| `QueryStatement.CompileStatement` | snekql/_query_compile.py:845-885 | from the state alone: the compiled text, executed, is the rendering of the state behind exactly the definitions it reaches, in dependency order; an acceptable state is refused only if that has no rendering |
| `QueryCompile.RowsAgree` | snekql/_query_compile.py:456-464 | bulk rows are of one model and set the same columns |
| `QueryCompile.CompileRows` | snekql/_query_compile.py:482-486 | placeholders and values row by row, each in column order |
| `QueryCompile.CompileConflict` | snekql/_query_compile.py:403-445 | the conflict action with its parameters, expressions and RETURNING with DO NOTHING refused |
| `QueryCompile.CompileInsert` | snekql/_query_compile.py:448-497 | a compiled insert, executed, is its direct rendering, with every refusal |
| `QueryCompile.EnsureIndependent` | snekql/_query_compile.py:500-509 | accepts exactly when no computed value reads a column another assignment object writes |
| `QueryCompile.CompileUpdate` | snekql/_query_compile.py:512-570 | a compiled update, executed, is its direct rendering, SET before WHERE, with every refusal |
| `QueryCompile.CompileDelete` | snekql/_query_compile.py:573-596 | a compiled delete, executed, is its direct rendering, with every refusal |
| `Expressions.CollectReferenced` | snekql/_value_expression.py:411-421 | the loop gathers exactly the columns read through nested operands and CASE |
| `Expressions.CollectInputs` | snekql/_case.py:26-42 | the columns of a row-local condition, or a refusal |
| `Expressions.FoldNullable` | snekql/_value_expression.py:455-484 | the fold over operations is the recursive announcement |
| `Expressions.BuiltValuesDecode` | snekql/_value_expression.py:34-69 | on every conforming row a built expression evaluates to a value its decoder returns unchanged, NULL only if flagged nullable |
| `Expressions.CaseValue` | snekql/_case.py:62-110 | a built CASE has its branches' common kind and is one of its widened branches |
| `Expressions.AbsentValuesDecode` | snekql/_value_decode.py:213-225 | on a row absent from a LEFT join NULL comes out only where it was announced, and any other value has the declared kind |
| `Expressions.AbsentNullExactly` | snekql/_value_expression.py:455-484 | without CASE the announcement is exact |
| `Expressions.CaseAnnouncesMore` | snekql/_value_expression.py:462-470 | with CASE it is not |
| `SetOrder.BuiltIsHonest` | snekql/_case.py:45-110 | every CASE inside anything built, its conditions included, carries the columns its condition reads |
| `SetOrder.ExprFrame` | snekql/_value_expression.py:411-421 | an expression's value depends only on its referenced columns |
| `SetOrder.AcceptedOrderIrrelevant` | snekql/_query_compile.py:500-547 | an accepted UPDATE gives the same row under simultaneous evaluation (section 13.10 of ISO/IEC 9075:1992) and left-to-right evaluation |
| `SetOrder.DistinctObjectsQualify` | snekql/_query_compile.py:500-509 | updates of distinct assignment objects always qualify |
| `SetOrder.RepeatedObjectDiffers` | snekql/_query_compile.py:500-509 | one self-reading object listed twice is accepted and does differ |
| `Decoding.ResolvedIsGeneral` | snekql/_value_decode.py:152-306 | the decoder resolved once gives the same value or failure as the general one, for every selectable, owner set and raw value |
| `Decoding.ResolvedAggregate` | snekql/_value_decode.py:262-296 | the same for each aggregate over columns and derived outputs |
| `Unions.PolicyDecides` | snekql/_output_provenance.py:59-128 | a value that is not NULL decodes as the retained policy says, through any chain of definitions, aggregates and scalars |
| `Unions.NullabilityCovers` | snekql/_output_layout.py:98-114 | declared nullability covers every NULL either operand of an accepted UNION can produce |
| `Unions.NullDecodes` | snekql/_output_layout.py:36-44 | NULL decodes to None wherever the output is declared nullable |
| `Unions.RightDecodesThroughLeft` | snekql/_compound.py:68-93 | compatible outputs: whatever the right can produce, NULL included, the left decodes as the right would |
| `Unions.CompoundAligns` | snekql/_compound.py:45-65 | an accepted UNION carries each label at the same position on both sides, bound to its original source |
| `Unions.CompoundIsSafe` | snekql/_compound.py:96-151 | so every output of the right operand decodes through the left operand's slot to its own value |
| `JoinedRows.FreshName` | snekql/_materialization_shape.py:80-85 | the search ends with the first variant no column folds to |
| `JoinedRows.ShapeFor` | snekql/_materialization_shape.py:56-101 | every column in order, and a fresh witness exactly where nothing else shows presence |
| `JoinedRows.ShapeForSources` | snekql/_materialization_shape.py:188-202 | spans and fields built together stay contiguous |
| `JoinedRows.SpansTile` | snekql/_materialization_shape.py:188-202 | every SQL field belongs to exactly one span |
| `JoinedRows.SourceRoundTrip` | snekql/_materialization_shape.py:122-169 | a source's row, or its absence, survives encoding and materializing |
| `JoinedRows.JoinedRoundTrip` | snekql/_materialization_shape.py:225-243 | splitting a joined row returns each source's row, nothing exactly for unmatched ones; a matched row of NULLs is still a row |
| `SchemaDiff.GroupsHoldPairs` | snekql/_schema_shape.py:602-616 | grouping neither loses nor invents a column pair |
| `SchemaDiff.GroupsForgetNames` | snekql/_schema_shape.py:441-448 | renaming constraints does not change the groups |
| `SchemaDiff.GroupsForgetOrder` | snekql/_schema_shape.py:602-616 | nor does the order of catalog rows, positions being distinct within a constraint |
| `SchemaDiff.CountGroups` | snekql/_schema_shape.py:602-616 | the grouping loop counts exactly the ordered constraint groups |
| `SchemaDiff.MatchOff` | snekql/_schema_shape.py:476-485 | removing matches one by one leaves exactly the multiset differences |
| `SchemaDiff.Comparison.DiffStorage` | snekql/_schema_shape.py:144-161 | an issue and a drift fact exactly when the options differ |
| `SchemaDiff.Comparison.ColumnDifferences` | snekql/_schema_shape.py:164-266 | drift exactly when some compared property differs |
| `SchemaDiff.Comparison.DiffColumns` | snekql/_schema_shape.py:269-306 | issues and drift exactly when names or columns differ |
| `SchemaDiff.Comparison.IndexDifferences` | snekql/_schema_shape.py:309-376 | drift exactly when some compared property or a readable predicate differs |
| `SchemaDiff.Comparison.DiffIndexes` | snekql/_schema_shape.py:379-416 | issues and drift exactly when names or indexes differ |
| `SchemaDiff.Comparison.DiffForeignKeys` | snekql/_schema_shape.py:451-528 | issues and drift exactly when the multisets of ordered constraint groups differ |
| `SchemaDiff.Comparison.DiffCheck` | snekql/_schema_shape.py:537-585 | one declared CHECK: missing or different is drift, unreadable or ambiguous is left unchecked, with exactly these facts in this order |
| `SchemaDiff.Comparison.DiffChecks` | snekql/_schema_shape.py:531-599 | issues and drift exactly when a declared CHECK does not match |
| `SchemaDiff.CompareTableShapes` | snekql/_schema_shape.py:619-646 | no issue exactly when no fact is drift, and exactly when the shapes match |
| `SchemaScaffold.FreshScaffoldMatches` | snekql/sqlite/schema.py:270-380 | a freshly scaffolded table read back from its own DDL matches: columns and literal defaults, partial-index predicates, foreign keys under any names, CHECKs |
| `SchemaScaffold.MatchedFactMeansEqual` | snekql/_schema_shape.py:563-585 | a matched fact on a declared CHECK means that the one CHECK of that name read from the catalog has the same truth on every row, when no operand of it collapses |

## Left out

- Drivers, sockets and SQL execution: the server is a nondeterministic answerer with contents, savepoints and a commit count.
- Scope, grouping and temporal-comparability checks of the compiler; they only refuse and do not change what is emitted.
- `compile_query_sql` and `inspect_query_sql` (inlining parameters for display).
- `QueryCompile.CompileQuery`: the list of definitions is part of the query; for a select statement `QueryStatement.CompileStatement` computes it, a subquery inside a write carries the list the walk returns for it.
- Dialect-specific selectables and `Attr` subclasses with hooks of their own: the decoders and provenance cover the built-in ones.
- Column codecs, validators and Pydantic models: `Attr.decode` is a function of the decode policy, nullability and the raw value.
- `_CheckBinder.bind` and its error messages; the grammar of what it produces is the predicate `IsBound`.
- The reuse check of a nested context object: each nested block is a new object.
- `SchemaScaffold.FreshScaffoldMatches`: SQLite's PRAGMA answers about names, affinity, nullability, keys and indexed columns are taken to be what was declared, and its reader's detection of collations, AUTOINCREMENT and the clock expression is not modelled.
- `Expressions.BuiltValuesDecode`: arithmetic is ideal, without 64-bit overflow or floating rounding.
- `SetOrder.AcceptedOrderIrrelevant`: one direction only; a repeated self-reading object may still agree, as `x = x + 0` does.
- `JoinedRows.FreshName`: case folding maps each character to a string and leaves the underscore alone.
- `JoinedRows.JoinedRoundTrip`: the payload is returned as fetched; decoding it is the subject of `Decoding.dfy`.
- `SchemaDiff.CompareTableShapes`: messages, their order and the count of undeclared CHECKs per name are not modelled; columns and indexes are given by name.
- Telemetry, logging and message wording; an observer may fail after admission or before begin.
- Migrations, declaration binding, model metaclasses, named projections and temporal types.
