# markovchain-discord: migrations, channel counters and message handling in Dafny

This project models the parts of the markovchain-discord bot that hold its state and its rules.

- **The schema migration engine** (`src/migrations.rs`):
  - It scans a migrations directory into a catalog of `up.sql` / `down.sql` script paths, keyed by folder name.
  - It orders the folder names by the unsigned integer before their first `_`.
  - It applies the `up` scripts the ledger table does not record yet, or reverts with the `down` scripts the ones it does.
  - It records or erases each migration in the ledger as it goes and stops at the first error.
- **The per-channel generation counter**, a small state machine over the `enabled_guilds` table:
  - The `enable_gen`, `disable_gen` and `interval` commands (`src/commands.rs`) insert, delete or update a channel's row.
  - Every message in a guild channel ticks the channel's counter (`update_gen_interval` in `src/event_handler.rs`). The channel is due for an automatic text when the counter reaches zero, and the counter then starts over.
- **Message handling** (`src/event_handler.rs`):
  - Messages from people (not bots) are fed to the text generator as input.
  - Mentions from anyone but the bot itself are answered.
  - A message "continuation" is produced by seeding the generator with the message's last word and dropping the first word of the generated text. It is retried once, unseeded, if nothing is left.

## Modules

| file | module | contents |
|---|---|---|
| `base.dfy` | `Base` | `Option` and `Result` |
| `text.dfy` | `Text` | splitting at a separator, decimal rendering |
| `postgres.dfy` | `Postgres` | the database client as a class: the ledger table, the log of submitted scripts, and the operations the server rejects (`faults`) |
| `migration_order.dfy` | `MigrationOrder` | `u64::from_str` of the name prefix, the sort by ordinal, the listing of a map's keys |
| `migrations.dfy` | `SchemaMigrations` | the catalog scan `New`, the ledger operations, `Up` and `Down` as methods on the client, and the functions `Scan`, `Step`, `Run` and `Migrate` that specify them |
| `migration_laws.dfy` | `MigrationLaws` | what `up` and `down` guarantee: round trip, idempotence, fail-fast |
| `enabled_guilds.dfy` | `EnabledGuilds` | the `enabled_guilds` table, SQL `least`, and the range invariant |
| `commands.dfy` | `Commands` | the three commands, as table functions and as methods on the database, with their replies |
| `event_handler.dfy` | `EventHandler` | the counter tick, the continuation of a message, and the message handler |

### How the model maps onto the program

- **Migrations.**
  - `SchemaMigrations.Migrations` is a value, because `up` and `down` take `&self` and never change it.
  - The database is a `Postgres.Client` object. Its `ledger` set, `hasLedger` flag and `executed` log are updated in place.
  - A statement whose `Op` is in the client's `faults` is rejected. This stands for any server-side error.
  - The ledger statements also fail on the database's own terms. The row count, the INSERT and the DELETE fail when the ledger table does not exist, and the INSERT fails on a name that is already recorded (the primary key).
  - The script files are a map from path to contents. Reading a path that is not in the map fails.
- **Map iteration order.** Rust's `HashMap` key order is unspecified. `OrderNames` picks the keys one at a time with `:|`, so every proof holds for any iteration order. The unstable order of names with equal ordinals is therefore also left open.
- **The ordering panic.** The `unwrap` on the ordinal can panic. It is the error `InvalidOrdinal`, raised after the ledger table is ensured. Rust's sort never calls its key for fewer than two elements, so a catalog of a single badly named migration does not panic. The model follows this (`OrderingFails`).
- **`down` order.** `down` visits names in ascending ordinal order, as the source does, not in reverse. `LedgerRoundTrip` states this: `NamesOf(down.ran) == order'`, with `order'` ascending.
- **Randomness.** The draw from `5..=50` is a nondeterministic choice (`:|`) in the methods. It is returned as a ghost out-parameter, so the contracts can name it; the specification functions take it as a parameter.
- **The text generator.** It is a `MarkovChain` object holding the queue of answers it will give. It logs every input and every generation request. Which content strings it accepts (`ContentString::try_from`) is a predicate parameter `valid`.

## Model

| member | source | states |
|---|---|---|
| Text.AfterLast | src/event_handler.rs:130-134 | the start word is the longest space-free suffix: it holds no space, is a suffix of the message, and is preceded by a space when shorter than the message |
| Text.AfterFirst | src/event_handler.rs:138 | `split_once(' ').1`: when the text has a space it is the text after its first word and that space, otherwise empty |
| Text.SplitFirstJoin | src/event_handler.rs:138 | splitting `w + [sep] + rest` at the first separator gives back `w` and `rest` when `w` has no separator |
| Text.SplitLastJoin | src/event_handler.rs:130-133 | the part after the last separator of `p + [sep] + w` is `w` when `w` has no separator |
| Text.BeforeFirst | src/migrations.rs:105 | `split('_').next()`: a prefix of the name without `_`, followed by `_` when shorter than the name |
| Text.Decimal | src/commands.rs:148 | `to_string` of a number is a non-empty string of digits |
| Text.DecimalValue | src/commands.rs:148 | reading a decimal rendering back gives the number |
| Text.DecimalInjective | src/commands.rs:148 | different numbers are rendered differently |
| MigrationOrder.ParseDecimal | src/migrations.rs:105 | `u64::from_str` reads every value below 2^64 back from its decimal rendering |
| MigrationOrder.InsertSorted | src/migrations.rs:105 | inserting into a list sorted by key keeps it sorted |
| MigrationOrder.InsertDistinct | src/migrations.rs:105 | inserting a new name keeps the names distinct |
| MigrationOrder.InsertionSortArranges | src/migrations.rs:105 | `sort_by_key` yields a permutation (same multiset) sorted by key, and keeps names distinct |
| MigrationOrder.ListNames | src/migrations.rs:104 | `keys().collect()` lists every key of the map exactly once |
| MigrationOrder.SortArranges | src/migrations.rs:104-105 | sorting the key list gives each catalog name once, in ascending ordinal order |
| MigrationOrder.OrderNames | src/migrations.rs:104-105 | the sort panics exactly when there are two or more names and one has no `u64` prefix; otherwise it yields every name once, by ascending ordinal |
| MigrationOrder.ArrangedUnique | src/migrations.rs:105 | when ordinals strictly ascend along one order of the names, every ascending order of them equals it |
| MigrationOrder.NumericNotLexical | src/migrations.rs:105 | `1_a, 2_b, 10_c` is the only order of those names, so the order is numeric and not `1_a, 10_c, 2_b` |
| SchemaMigrations.ScanSucceedsIffSound | src/migrations.rs:17-57 | the scan succeeds exactly when every entry can be typed and every folder has both `up.sql` and `down.sql` |
| SchemaMigrations.ScanFailsAtFirstBroken | src/migrations.rs:36-42 | a failed scan reports the error of the first broken entry (its missing path, or its unreadable type); every entry before it is sound |
| SchemaMigrations.ScanCatalog | src/migrations.rs:26-49 | a successful scan keeps the table name; `up` and `down` have exactly the folder names as keys (files are skipped) and map each to `<dir>/<name>/up.sql` and `<dir>/<name>/down.sql` |
| SchemaMigrations.ScanStaysFailed | src/migrations.rs:36-42 | once a prefix of the listing fails, the whole scan fails with that error, so no partial catalog is returned |
| SchemaMigrations.New | src/migrations.rs:17-57 | the loop with early exits returns exactly the scan of the directory listing |
| SchemaMigrations.ExecuteScript | src/migrations.rs:59-62 | the script is submitted (logged) and the call fails exactly when the server rejects it |
| SchemaMigrations.CreateTable | src/migrations.rs:78-86 | the ledger table exists afterwards unless creation failed, and its contents are untouched |
| SchemaMigrations.Exists | src/migrations.rs:88-96 | answers whether the ledger records the name; fails exactly when the table is missing or the query is rejected |
| SchemaMigrations.InsertMigration | src/migrations.rs:64-69 | adds the name to the ledger, or fails (missing table, rejected statement, duplicate key) and changes nothing |
| SchemaMigrations.DeleteMigration | src/migrations.rs:71-76 | removes the name from the ledger, or fails and changes nothing |
| SchemaMigrations.RunStaysFailed | src/migrations.rs:107-116 | once a prefix of the loop fails, later names are never visited |
| SchemaMigrations.MigrateOne | src/migrations.rs:108-115 | one loop turn: ledger query, then (only if the ledger calls for it) read, execute, record or erase, with the ledger and the script log as `Step` says |
| SchemaMigrations.RunLoop | src/migrations.rs:107-117 | the loop over the sorted names ends in the state `Run` describes and stops at the first error |
| SchemaMigrations.Up | src/migrations.rs:99-118 | `up` ensures the ledger table, sorts by ordinal and runs the loop; the result, ledger and script log are those of `Migrate(Upward, …)` |
| SchemaMigrations.Down | src/migrations.rs:121-140 | `down` likewise, with `Migrate(Downward, …)` and the same ascending order |
| MigrationLaws.PendingMembers | src/migrations.rs:108-115 | a name's script is due exactly when the name is in the order and the ledger calls for it (absent for `up`, present for `down`) |
| MigrationLaws.RunRanPending | src/migrations.rs:107-116 | the scripts executed are, in order, a prefix of the due ones, and all of them when the run succeeds |
| MigrationLaws.RunLedger | src/migrations.rs:113-114 | a successful run adds (up) or removes (down) every name of the order; names outside the order keep their state; a run that executed nothing changed nothing |
| MigrationLaws.RunScriptsMatch | src/migrations.rs:111-113 | every executed script is the contents of that migration's script file |
| MigrationLaws.FailedAt | src/migrations.rs:113-114 | the migration a run failed at has no effect on the ledger, and all earlier ones took effect |
| MigrationLaws.FailurePoint | src/migrations.rs:107-116 | a failed run stopped at one name: everything before it succeeded and nothing after it was tried |
| MigrationLaws.FailFast | src/migrations.rs:113-114 | fail-fast without rollback: the run stopped at `order[k]`, earlier migrations stay recorded (or erased), and the failing one is not recorded |
| MigrationLaws.RunQuiet | src/migrations.rs:129-138 | with nothing due and every query answered, a run succeeds, executes nothing and keeps the ledger |
| MigrationLaws.RunSucceedsWithoutFaults | src/migrations.rs:107-117 | against a server that rejects nothing, with all script files present, a run succeeds |
| MigrationLaws.ArrangedElems | src/migrations.rs:104 | the sorted list holds exactly the catalog names |
| MigrationLaws.UpOutcome | src/migrations.rs:107-116 | after a successful `up` the ledger is the old ledger plus every catalog name; exactly the names absent before had their script executed, each once and in order; other ledger rows are untouched |
| MigrationLaws.UpIdempotent | src/migrations.rs:108 | a second `up` after a successful one executes no script and leaves the ledger as it is, whatever the server and the files |
| MigrationLaws.DownOutcome | src/migrations.rs:129-138 | after a successful `down` every catalog name is gone from the ledger, and exactly the recorded ones had their down script executed, in ascending order |
| MigrationLaws.LedgerRoundTrip | src/migrations.rs:99-140 | `up` then `down`: every catalog name is recorded after `up`; `down` runs every down script in ascending order and leaves the original ledger minus the catalog names |
| MigrationLaws.DownOnEmptyLedger | src/migrations.rs:121-140 | `down` on an empty ledger executes nothing and deletes nothing, and succeeds unless table creation, the ordering or a ledger query fails |
| EnabledGuilds.Least | src/commands.rs:141 | SQL `least` with a possibly NULL first argument: the smallest non-NULL argument |
| Commands.IntervalTextLength | src/commands.rs:148 | an accepted interval is written with one or two digits, while the text for a missing one has six letters, so the two never coincide |
| Commands.IntervalTextInjective | src/commands.rs:148 | different accepted intervals are reported with different words |
| Commands.ReplyTextInjective | src/commands.rs:72-153 | the reply texts tell every outcome of the three commands apart |
| Commands.EnableGen | src/commands.rs:45-89 | checks for the row, then inserts one with a drawn count in 5..=50; the reply and the new table are those of `Enable` |
| Commands.DisableGen | src/commands.rs:93-120 | deletes the row and reports by the number of rows deleted; reply and table as `Disable` |
| Commands.Interval | src/commands.rs:124-156 | updates an existing row with the interval and `least(interval, count)`, reporting whether a row was updated; reply and table as `SetInterval` |
| Commands.EnableWhenEnabled | src/commands.rs:66-75 | on an enabled channel `enable_gen` replies "already enabled" and leaves the table unchanged |
| Commands.EnableWhenNew | src/commands.rs:77-87 | on a new channel `enable_gen` adds exactly one row, holding the drawn count (5..=50) and no interval, and replies "enabled" |
| Commands.DisableReports | src/commands.rs:106-117 | after `disable_gen` the channel has no row; it reports "disabled" exactly when there was one, and otherwise leaves the table unchanged |
| Commands.IntervalWhenDisabled | src/commands.rs:145-153 | `interval` on a channel without a row refuses and changes nothing |
| Commands.IntervalWhenEnabled | src/commands.rs:138-150 | `interval` on an enabled channel stores the interval; the count becomes the smaller of interval and count, and stays as it was without an interval |
| Commands.CommandsTouchOneRow | src/commands.rs:138-143 | each command changes only the invoking channel's row |
| Commands.CommandsKeepInRange | src/commands.rs:77-85 | each command keeps every row waiting 1..=50 messages, with an interval in 5..=50 or none |
| Commands.EnableDisableRoundTrip | src/commands.rs:106-111 | enabling a new channel and disabling it restores the table |
| Commands.CommandsIdempotent | src/commands.rs:72-75 | repeating any command changes nothing more |
| EventHandler.UpdateGenInterval | src/event_handler.rs:94-127 | decrement, read back and conditionally reset the row; result and new table are those of `Ticked`, and an out-of-range decrement changes nothing |
| EventHandler.TickWhenDisabled | src/event_handler.rs:104-106 | without a row the tick is not due and the table is unchanged |
| EventHandler.TickWhenEnabled | src/event_handler.rs:97-126 | with a row, the count drops by exactly one; the tick is due exactly when the count was one; at zero or below the count restarts at the interval or the draw; the interval and all other rows are unchanged |
| EventHandler.TickKeepsInRange | src/event_handler.rs:111-124 | ticking keeps every row waiting 1..=50 messages and then never fails |
| EventHandler.Countdown | src/event_handler.rs:97-126 | a channel waiting `c` messages is quiet for `c - 1` messages, due on the `c`-th, and then waits its interval or the draw |
| EventHandler.FixedInterval | src/event_handler.rs:111-113 | with a fixed interval `n`, a channel that has just generated waits exactly `n` messages again |
| EventHandler.MarkovChain.Generate | src/event_handler.rs:147-151 | a generation request is logged with its seed, and the service's next answer is returned |
| EventHandler.ContinueMessage | src/event_handler.rs:129-145 | seeds with the last word (if valid), drops the first word, and asks once more unseeded if nothing is left; requests and result as `Continued` |
| EventHandler.StartWordIsLastWord | src/event_handler.rs:130-134 | the seed is the word after the message's last space when it is valid content, and none otherwise |
| EventHandler.StartWordOfOneWord | src/event_handler.rs:130-134 | a message without spaces seeds with itself when valid |
| EventHandler.DropFirstWordOfJoin | src/event_handler.rs:136-138 | the generated text loses exactly its first word and the space after it |
| EventHandler.SingleWordRegenerates | src/event_handler.rs:138-142 | a one-word generated text leaves nothing, so the unseeded retry's answer is the result |
| EventHandler.ContinuedNonEmpty | src/event_handler.rs:136-144 | a continuation is empty only when the retry was empty too; text after the first word is returned as is; a failure is passed on |
| EventHandler.AnswerToMention | src/event_handler.rs:57-75 | a message that does not mention the bot gets no answer and sends the generator nothing; a mention is answered with the continuation of the message, or not at all when generation fails, with the requests and queue of `continue_message` |
| EventHandler.GenerateFromInterval | src/event_handler.rs:77-92 | the result is `Posted` and the table `Counted`; the generator is asked for a continuation of the message (seeded with its last word) exactly when the channel is due, and is left untouched otherwise |
| EventHandler.PostedWhenDue | src/event_handler.rs:77-92 | a text is posted exactly when the channel is due and the continuation succeeds, and it is that continuation; on a table in range the tick never panics and keeps the table in range; without a guild nothing is counted or posted |
| EventHandler.OnMessage | src/event_handler.rs:19-34 | input is saved exactly for non-bot authors with valid content; a mention from anyone but the bot is answered with the continuation of the message, and nothing else is answered; then the message is counted, and a due channel gets a continuation from the answers left in the queue; the answer stands even when counting panics |

## Left out

- Logging, `tracing` calls, Discord typing indicators and the `ready` event carry no state and are not modelled.
- `src/main.rs`, `src/settings.rs` and `src/database.rs` hold startup wiring, configuration loading and connection pooling. They are not part of this model. Only the draw range `5..=50` at `src/main.rs:79` is used.
- The `generate` and `continue_context_menu` commands are forwarding calls to the remote generator. They are not modelled, including the floating-point `len * 1.5` length bound.
- The `expect` panic on an unreadable migrations directory is left out. So are the `flatten` that skips entries the directory iterator fails to produce, and non-UTF-8 file names (the `unwrap` on `into_string`). The listing is given as a sequence of readable entries.
- `Path::join` is modelled as joining with `/`. Absolute components and normalisation are not modelled.
- SchemaMigrations.CreateTable: the `CREATE TABLE IF NOT EXISTS` statement is its own client operation, not a logged script. So `executed` holds only migration scripts.
- SchemaMigrations.Up: the order of migrations with equal ordinals is left unspecified, as the unstable iteration order of the map makes it in the source.
- Network and database failures are abstract: one `Op` per statement, failing when listed in `faults`. Timeouts, partial execution inside a batch script, and transactions are not modelled.
- Concurrency is outside this sequential model. This covers simultaneous messages racing on the two-statement counter update, and concurrent migration runs without a lock.
- Commands.EnableGen: database errors and the `expect` panics of the commands are not modelled. Each command is assumed to reach the database.
- Commands.DisableGen: database errors are not modelled.
- Commands.Interval: database errors are not modelled. The argument range `5..=50` that the command framework enforces is a precondition.
- EventHandler.UpdateGenInterval: a failure of the second statement (the reset), after the decrement was committed, is not modelled. Only the range error of the decrement is.
- The `i64::try_from` conversions of guild and channel ids are taken as always succeeding. Ids are plain integers.
- `ContentString::try_from` validation is a predicate parameter. Whether `mentions_me` can fail is folded into the message's `mentionsMe` flag.
- The i16 width of the counter is modelled only where it matters: the decrement fails below -32768. The `as i16` of the draw is exact, since 5..=50 fits.
