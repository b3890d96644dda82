# corrupttest, modelled in Dafny

corrupttest is a test driver for TiDB's data-corruption detectors: the
mutation checker and transaction assertions. It works in three stages.

- It enumerates a space of small table schemas.
- For every table it runs a chosen workload once per injection. A workload
  re-creates the table, arms the `corruptMutations` failpoint with the
  injection, runs a short statement script, and classifies what happened
  (`Success`, `OtherError`, `Failure` or `Consistent`). It then disarms the
  failpoint.
- Finally it counts the classifications per injection.

The model has six modules, one per file:

- `Wrappers` (`wrappers.dfy`): `Option`.
- `Text` (`text.dfy`): decimal rendering of integers, `join`, ASCII
  lower-casing and substring search. Decimal rendering and `join` come with
  the parsers that read their output back (`DigitsValue` and `ParseInt`,
  `Split`). Lower-casing and search come with lemmas that state what they
  compute (`LowerIdempotent`, `LowerConcat`, `ContainsIff`).
- `Common` (`common.dfy`): the crate root. It holds the ordered list of
  injections and `Effectiveness`.
- `Schema` (`table.rs`, in `table.dfy`):
  - the schema space;
  - the table stream, written as the four nested loops of the source with a
    mutable table counter;
  - `constraint_satisfied`, a method that clears a flag;
  - `create_statement`, which appends to a string inside loops;
  - `drop_statement`, and the rows and their text.
- `Workloads` (`workload.rs`, in `workload.dfy`):
  - the registry and the classifier `collect_result`;
  - the scripts of the five workloads, as data;
  - the engine that runs a workload over the four injections, as methods,
    each proved equal to a specification function;
  - the properties of the traces those functions produce.
- `Driver` (`main.rs`, in `main.dfy`): the driver loop with its 100-table
  cap and the per-injection tally fold.

The database and the failpoint's HTTP endpoint are a `Server`: an oracle
that answers each event given every event sent before it. A workload run
is therefore a function of the oracle. It produces an `Outcome`: how the run
ended, the trace of events it sent, and the results map.

A run ends in one of three ways:

- `Completed`;
- `Aborted(message)`, when an error is returned with `?`;
- `Panicked(reason)`, when an `expect` fails.

Every property about what is sent, and in what order, is stated over the
trace.

Where the repository's description differs from the code, the model
follows the code:

- DROP and CREATE run again for every injection, not once per table.
- The workload component of every results key is the constant
  `"workload_a"`.
- The double insertion never sends COMMIT.
- T3's DELETE compares `c1` with the row's value for the second column.
- The values in UPDATE and DELETE are written without quotes
  (`Datum::to_string`).
- `src/main.rs` names the variants `Inconsistent` and `NoError`, which the
  library does not define. Its printed labels show they stand for `Success`
  and `Failure`, and the tally is modelled that way.
- `src/main.rs` calls the workload as a function given a connection, while
  `src/workload.rs` defines workloads that take a connection from a pool
  themselves. The model follows `src/workload.rs` for the workload and
  `src/main.rs` for the loop around it.
- `src/main.rs` enumerates the tables with `TableIterator::new()`, which
  no file of this revision defines. The model takes the driver's enumeration
  to be `Table::stream` (`src/table.rs:337-370`), the only table enumeration
  `src/table.rs` offers.
- `src/workload.rs` passes `config.status_addr` as an extra argument to
  `enable_failpoint` (five arguments) and `disable_failpoint` (four).
  `src/failpoint.rs` declares four and three parameters and uses a fixed
  status address. The failpoint
  endpoint is not part of this model, so only the failpoint's name and value
  reach the trace.

## Model

| member | source | states |
|---|---|---|
| Text.NatTextRoundTrip | src/table.rs:255 | reading back the decimal text of a natural number gives that number |
| Text.NatTextInjective | src/table.rs:357 | different numbers get different decimal texts, so different table counters give different names |
| Text.IntTextRoundTrip | src/table.rs:50-57 | the text of a signed integer, with its minus sign, parses back to the same integer |
| Text.SplitJoin | src/table.rs:210-211 | splitting at the separator undoes `join`, as long as no part contains the separator |
| Text.JoinAppend | src/table.rs:221-224 | joining a longer list continues the shorter join with each further part after a separator |
| Text.LowerIdempotent | src/workload.rs:57-58 | lower-casing twice is lower-casing once |
| Text.LowerConcat | src/workload.rs:57-58 | lower-casing distributes over concatenation |
| Text.ContainsIff | src/workload.rs:57-58 | the substring search succeeds exactly when the pattern occurs at some position |
| Text.ContainsAppend | src/workload.rs:57-58 | text appended after a match keeps the match |
| Text.ContainsPrepend | src/workload.rs:57-58 | text put before a match keeps the match |
| Schema.Collations | src/table.rs:8-19 | four collations, none first and then three named ones |
| Schema.CollationsDistinct | src/table.rs:10-15 | the four collations are pairwise different |
| Schema.ColumnTypes | src/table.rs:60-69 | `Int` first, then a string type for each collation, in collation order |
| Schema.Columns | src/table.rs:79-91 | one column per column type, in order, all under the given name |
| Schema.ColumnsMember | src/table.rs:79-91 | a column is streamed exactly when it has the given name and one of the column types |
| Schema.IndexColumns | src/table.rs:101-112 | for each name in order, the full column before the 3-character prefix |
| Schema.IndexColumnsMember | src/table.rs:101-112 | an index column is streamed exactly when it names one of the columns, with no length or length 3 |
| Schema.Uniquenesses | src/table.rs:128-135 | four uniquenesses, of which exactly the last two are primary |
| Schema.UniquenessRank | src/table.rs:128-135 | every uniqueness occurs in the stream |
| Schema.IndexesWith | src/table.rs:156-165 | four indices for each second column, in the order of the second columns; within each, one per uniqueness in the order non-unique, unique, clustered primary, non-clustered primary |
| Schema.IndexesWithMember | src/table.rs:156-165 | an index is produced for a fixed first column exactly when it has two columns, that first one and one of the seconds |
| Schema.IndexesMember | src/table.rs:146-169 | an index is streamed exactly when it has the name and two index columns, each over one of the columns |
| Schema.Find | src/table.rs:305-308 | the lookup finds a column exactly when one has the name, and then it is the first column with that name, as `find` over an iterator returns |
| Schema.ConstraintSatisfied | src/table.rs:276-318 | the flag stays set exactly when at most one index is primary, no index has more than two columns, and every index column is over a string column |
| Schema.PrimaryCountOfTwo | src/table.rs:279-288 | two indices pass the primary-key check exactly when they are not both primary |
| Schema.CandidatesMember | src/table.rs:337-360 | the candidates are exactly the unnamed tables over `c1`, `c2` of any column types, with `i1` and `i2` each over two index columns of those two |
| Schema.CandidateAdmissible | src/table.rs:292-299 | every index column of a candidate names a declared column, so the sanity check never fails |
| Schema.CandidatesAdmissible | src/table.rs:348-352 | every candidate is admissible |
| Schema.SurvivorsMember | src/table.rs:361-364 | a candidate survives exactly when it passes the constraint check and the pruning rule |
| Schema.Named | src/table.rs:357 | the k-th survivor is named `t{k}` and is otherwise unchanged |
| Schema.KeepIgnoresName | src/table.rs:356-361 | the checks do not depend on the table's name, so naming before or after filtering is the same |
| Schema.Visit | src/table.rs:356-364 | the candidate of one loop turn, named with the current counter, and whether it is kept |
| Schema.Stream | src/table.rs:337-370 | the four nested loops with the counter yield exactly the surviving candidates, in loop order, named `t0`, `t1`, … without gaps |
| Schema.StreamSecondColumns | src/table.rs:347-367 | the loop over `c2` appends the survivors among that column's candidates, numbered on from the tables so far |
| Schema.StreamIndexes | src/table.rs:351-366 | the loop over `i1` appends the survivors among that index's candidates, numbered on |
| Schema.StreamSecondIndexes | src/table.rs:355-365 | the loop over `i2` appends each kept candidate under the next free name |
| Schema.Advance | src/table.rs:361-364 | one candidate adds a table named with the current count exactly when it is kept, and otherwise takes no number |
| Schema.CandidateFromLoops | src/table.rs:343-356 | every combination the loops visit is a candidate |
| Schema.KeepIff | src/table.rs:276-335 | a candidate is kept exactly when both columns are strings, `i1` is over (c1, c2), `i2` is over (c2, c1), and they are not both primary |
| Schema.OptimizedStrings | src/table.rs:301-315 | for a candidate that passes the pruning rule, the prefix check holds exactly when both columns are strings, whatever the prefix lengths |
| Schema.YieldedTable | src/table.rs:321-364 | the k-th table is `t{k}`, has two string columns `c1` and `c2`, has `i1` over (c1, c2) and `i2` over (c2, c1), and has at most one primary index |
| Schema.YieldedIsKept | src/table.rs:356-364 | the k-th table is the k-th kept candidate, renamed |
| Schema.YieldedIffKept | src/table.rs:356-364 | a candidate appears under some name exactly when it has the kept shape |
| Schema.YieldedNamesDistinct | src/table.rs:357-363 | no two tables have the same name |
| Schema.NewDatum | src/table.rs:35-40 | a new datum has the column's kind |
| Schema.NextDatum | src/table.rs:42-47 | the next datum differs from the old one and keeps its kind; an integer grows; a string is extended |
| Schema.NewRow | src/table.rs:184-188 | one datum per column, each the column type's first value |
| Schema.NextRow | src/table.rs:191-199 | the same length, with every datum advanced |
| Schema.NextRowFits | src/table.rs:191-199 | the next row still fits the table and differs from the old row in every column |
| Schema.LiteralRoundTrip | src/table.rs:206-209 | an integer is written bare and a string in single quotes, and each parses back to the datum |
| Schema.ParseLiteralsRoundTrip | src/table.rs:204-210 | a list of literals parses back to its data |
| Schema.RowTextRoundTrip | src/table.rs:202-213 | splitting the row text at commas and parsing each literal gives back the row, when no string holds a comma |
| Schema.ColumnTypeSqlRoundTrip | src/table.rs:227-236 | the column type clause (`INT`, `VARCHAR(10)`, with ` COLLATE c` only when there is a collation) determines the type |
| Schema.IndexColumnSqlRoundTrip | src/table.rs:252-257 | the index column text, with `(n)` only when there is a length, determines the index column |
| Schema.KeyBody | src/table.rs:245-259 | every index body starts with `KEY ` and ends with `)` |
| Schema.DeclaredUniquenessOf | src/table.rs:240-262 | the `UNIQUE `/`PRIMARY ` prefix and the ` CLUSTERED` suffix around any key body determine the uniqueness |
| Schema.IndexDefUniqueness | src/table.rs:238-262 | the uniqueness of an index can be read back from its clause |
| Schema.CreateSqlIsList | src/table.rs:216-266 | the statement is `CREATE TABLE {name} (`, then the column definitions and index clauses separated by `, `, then `)` |
| Schema.IndexClausesConcat | src/table.rs:238-263 | each index clause follows a `, ` |
| Schema.CreateStatement | src/table.rs:216-266 | the string built by pushing pieces in the loops is the statement above |
| Schema.PushColumnDefs | src/table.rs:221-237 | the column loop appends the definitions separated by `, ` |
| Schema.PushColumnDef | src/table.rs:225-236 | one column appends its name, a space and its type clause |
| Schema.PushIndexClauses | src/table.rs:238-263 | the index loop appends `, ` and a clause per index |
| Schema.PushIndexDef | src/table.rs:239-262 | one index appends prefix, `KEY `, name, column list and the clustered suffix |
| Schema.PushIndexColumns | src/table.rs:248-258 | the index column loop appends the columns separated by `, ` |
| Schema.PushIndexColumn | src/table.rs:252-257 | one index column appends its name and its length in parentheses if any |
| Schema.DropSqlNamesTable | src/table.rs:268-270 | the drop statement is `DROP TABLE IF EXISTS` followed by exactly the table's name |
| Workloads.FindWorkloadExactly | src/workload.rs:19-29 | a name finds a workload exactly when it is that workload's registered name; nothing else is registered |
| Workloads.Verdict | src/workload.rs:56-65 | an error is `Success` exactly when its lower-cased text contains "inconsist" or "assertion", and `OtherError` otherwise |
| Workloads.VerdictIgnoresCase | src/workload.rs:57-58 | the verdict does not depend on letter case |
| Workloads.VerdictOfWrapped | src/workload.rs:57-58 | text wrapped around an error that reports an inconsistency does not change its class |
| Workloads.Collect | src/workload.rs:44-71 | `admin check table` is sent only after a script that succeeded; exactly the key (table, "workload_a", injection) is added or replaced; every other entry is kept |
| Workloads.CollectClassifies | src/workload.rs:51-66 | `Consistent` iff Ok and the check passed; `Failure` iff Ok and the check failed; `Success` iff an error reporting an inconsistency; `OtherError` iff any other error |
| Workloads.CollectResult | src/workload.rs:44-71 | the classifier and the insertion into the map compute `Collect` |
| Workloads.Script | src/workload.rs:203-208 | a script sends at most its steps; it sends all of them when none fails; it sends at least one when it fails |
| Workloads.ScriptStopsAtFirstError | src/workload.rs:275-284 | every step before the last one sent was accepted; a failed script's error is the reply to its last step; nothing after it is sent |
| Workloads.EnableFeatures | src/workload.rs:75-92 | taking a connection and the two session settings, each with `?`, compute `Opening` |
| Workloads.OpeningSends | src/workload.rs:75-92 | the opening sends the connection request and the two `set @@…` statements in that order, up to the first refused; it records nothing; it completes only when all three are accepted, and otherwise ends with the refusal's message |
| Workloads.WorkloadOpens | src/workload.rs:124-125 | every workload run starts with taking a connection, then the mutation-checker setting, then the assertion-level setting |
| Workloads.RunFinish | src/workload.rs:286-298 | a rollback after a failed script (with `?`), the classification and the disabling of the failpoint (with `?`) compute `Finish` |
| Workloads.RunScripts | src/workload.rs:256-288 | the setup with `?`, the script, and the `expect` on the failpoint inside T4's script compute `Scripts` |
| Workloads.RunRound | src/workload.rs:250-252 | one iteration of the loop over injections, with DROP and CREATE checked by `expect`, computes `Round` |
| Workloads.RunRounds | src/workload.rs:250-299 | the loop over the injections, in order, stopping at the first round that does not complete, computes `Rounds` |
| Workloads.Execute | src/workload.rs:241-302 | `execute` computes `Workload`: the opening, then one round per injection |
| Workloads.SingleEvents | src/workload.rs:132-145 | the single insertion arms the failpoint, then sends its one insert |
| Workloads.DoubleEvents | src/workload.rs:186-205 | the double insertion arms, sends `BEGIN OPTIMISTIC`, then the two inserts |
| Workloads.T2Events | src/workload.rs:256-281 | T2 arms, then sends begin, insert, commit, begin, update, commit |
| Workloads.T3Events | src/workload.rs:332-364 | T3 arms, sends begin, then insert, commit, begin, update, delete, commit |
| Workloads.T4Events | src/workload.rs:414-441 | T4 sends begin, insert, commit, begin, then arms, then update and commit |
| Workloads.PlanArms | src/workload.rs:137 | every arming uses the workload's value (`return(...)` for the single insertion and `1*return(...)` otherwise); every workload but T4 arms before any statement |
| Workloads.RoundFollowsPlan | src/workload.rs:250-298 | a round's trace is DROP, CREATE, then a prefix of the script's events, then closing events only (rollback, admin check, disable) |
| Workloads.RoundOfFollowsPlan | src/workload.rs:250-298 | the same for any script |
| Workloads.ScriptsFollowPlan | src/workload.rs:275-288 | the setup and script send a prefix of their events, then closing events only |
| Workloads.CompletedRound | src/workload.rs:286-298 | a completed round keeps its history; it sends a rollback exactly when its script failed and the workload has one; it sends `admin check table` exactly when its script succeeded; it disables the failpoint last; only the single insertion has no rollback |
| Workloads.CompletedRoundOf | src/workload.rs:286-298 | the same for any script |
| Workloads.ClosesFacts | src/workload.rs:286-298 | the closing events end with the disabling, hold a rollback exactly on a failed script with a rollback, and an admin check exactly on success |
| Workloads.RoundArms | src/workload.rs:132-139 | every arming a round sends uses the workload's failpoint value for that injection |
| Workloads.ArmedBeforeScript | src/workload.rs:256-281 | outside T4, no script statement is sent before the failpoint is armed right after DROP and CREATE |
| Workloads.T4ArmsBeforeUpdate | src/workload.rs:426-441 | in T4 the failpoint is armed only after the insert, the first commit and the second begin, and the update always comes right after the arming |
| Workloads.DoubleNeverCommits | src/workload.rs:194-212 | no statement of a double-insertion round is a COMMIT, in any letter case |
| Workloads.RoundRecords | src/workload.rs:67-70 | a completed round adds exactly its own key and keeps every other entry |
| Workloads.RoundExtends | src/workload.rs:250-298 | a round only appends to the trace |
| Workloads.RoundsExtend | src/workload.rs:250-299 | the loop over injections only appends to the trace |
| Workloads.RoundsRecordInjections | src/workload.rs:250-299 | rounds that all completed record one key per injection for the table, and keep every other entry |
| Workloads.WorkloadRecordsEveryInjection | src/workload.rs:241-302 | a completed workload run records the table's four keys and nothing else |
| Workloads.FourKeys | src/lib.rs:5-10 | a table has four keys, one per injection |
| Driver.Count | src/main.rs:42-47 | one fold step raises the four counters' sum by one |
| Driver.MapOf | src/main.rs:39-40 | the keys of the map are exactly the keys the iteration yields |
| Driver.BucketsInsert | src/main.rs:42-47 | a new entry moves an injection's bucket sizes exactly as a fold step does when the entry is for that injection, and leaves them alone otherwise |
| Driver.TallyCounts | src/main.rs:38-47 | over any enumeration of the map, the fold counts exactly the entries for the injection with each effectiveness |
| Driver.TallyIgnoresOrder | src/main.rs:39-40 | two enumerations of the same map give the same counts, so the map's iteration order does not matter |
| Driver.BucketsPartition | src/main.rs:42-47 | the four buckets are disjoint, their union is the injection's entries, and their sizes add up to the number of those entries |
| Driver.TallySkipsOtherInjections | src/main.rs:41 | entries for other injections leave the counts unchanged |
| Driver.Report | src/main.rs:38-52 | one line per injection, in the listed order, each with that injection's bucket sizes |
| Driver.LoopRuns | src/main.rs:26-36 | the loop counts at most a hundred tables; its outcome is that of running them in order; on completion it counted the first hundred (or all, if fewer); otherwise the last counted table is the one whose run failed |
| Driver.RunTables | src/main.rs:26-36 | the loop that counts a table, runs its workload, stops on an error, and breaks at a hundred, computes `Loop` |
| Driver.AllKeys | src/main.rs:26-28 | every recorded key names one of the tables run, "workload_a" and one of the injections |
| Driver.RunsRecord | src/main.rs:26-28 | completed runs over tables record the four keys of each table and keep every other entry |
| Driver.MatchingAllKeys | src/main.rs:38-41 | distinct tables give each injection one key per table |
| Driver.KeysCounted | src/main.rs:38-47 | results holding the keys of n distinct tables count n entries for each injection |
| Driver.CountsCoverTables | src/main.rs:21-47 | when every run completes, each injection's four counters add up to the number of tables run |
| Driver.YieldedRunnable | src/main.rs:21-26 | the tables `Table::stream` enumerates have the columns every workload reads and pairwise distinct names |
| Driver.Drive | src/main.rs:21-47 | the enumeration, taken to be `Table::stream`, and the driver loop end as `LoopRuns` says; when every run completed, each injection's counters add up to the number of tables |

## Left out

- The failpoint's HTTP endpoint (`src/failpoint.rs`): arming and disarming are the trace events `Enable` and `Disable`, answered by the oracle.
- The SQL server: every statement's reply comes from the `Server` oracle. No database semantics (indexes, corruption, transactions) are modelled.
- `pool.acquire` is one `Acquire` event. The `admin check table` sent on a pooled connection is an event in the same trace.
- Command-line parsing and workload selection (`init_app`, `src/main.rs:57-74`) and `src/config.rs`: the workload and the two settings are parameters. `find_workload` and the registry are modelled.
- The connection URL and the two `SET ... tidb_txn_mode` statements in `src/main.rs:15-20`, which run before the loop.
- Logging, timing, the tables-per-second print, the `CREATE_TABLE_DURAION_MS` counter, async execution, `src/error.rs` and `src/bin/log2csv.rs`.
- `Schema.Stream`: the lazy stream is a method returning the whole sequence. The consumer's early stop is modelled by the driver reading only a prefix.
- `Schema.NextDatum`: integers are unbounded. The i64 overflow of `Datum::next` cannot occur, since a row is advanced at most once from 10.
- `Text.Lower`: lower-casing is ASCII only. Rust's `to_lowercase` also folds non-ASCII letters, which cannot affect matching "inconsist" or "assertion".
- Panics from `expect` are the outcome `Panicked`. `find_workload`'s `unwrap` on an unknown name is `None`.
- The `&mut` results map is passed in and returned by value.
- `Workloads.Execute`: the UPDATE and DELETE statements index the first two columns. The model requires them (`Formable`) for T2, T3 and T4 instead of modelling the panic on tables with fewer columns. Every enumerated table has two.
- The map's iteration order is unspecified in the source. The tally takes the iteration as a sequence of entries that enumerates the map, and is proved independent of that order.
- When a workload run returns an error, `main` returns it and prints no tally. `Driver.Drive` returns the outcome, and `Driver.Report` applies to the results of completed runs.
- The number of enumerated tables (16 column-type pairs × 192 index pairs = 3072) is not proved. `Schema.YieldedIffKept` characterises which candidates are yielded, but not how many.
