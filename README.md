# OpenVPN usage monitor — a Dafny model of its accounting core

`monitor.py` polls an OpenVPN status file. It extracts one row per connected
client: common name, real address, raw received and sent byte counters, and the
connected-since text. It then folds those rows into a per-common-name record
that keeps running totals across reconnects and counter resets, shows the records
as a table sorted by traffic, and can persist the totals in a JSON state file.

This project models the following parts of that program and proves properties
about them:

- **Status extraction** (`parse_status`, module `StatusParser`). The file's lines
  are a `seq<string>`. The first pass reads the version-3 `CLIENT_LIST` dialect,
  with its regular expression written as a predicate. The second pass is the
  version-2 CSV fallback: the block after the exact header line, up to the
  routing table. Both passes are methods with loops. Each is proved equal to a
  specification function whose properties are proved as lemmas.
- **Delta accounting** (the update loop of `main`, module `Accounting`).
  `ClientState` is a class whose fields the loop updates in place. The loop is
  the method `ApplyRows` over a map of such objects. It is proved to leave the
  objects' contents (`Contents`, a map of `Record` values) equal to `Fold` of
  the old contents. `Fold` folds one row at a time (`Observe`).
- **Persistence** (`load_state` / `save_state`, module `Persistence`). The JSON
  document is the value tree that `json.load` returns and `json.dumps` consumes.
  The load loop is the method `LoadClients`. `LoadState` applies the version
  gate and then calls it. Together they build new, unshared `ClientState`
  objects whose contents are proved equal to `Restore` of the document.
- **Presentation rules** (module `Presentation`): the online test and the
  traffic-descending stable sort of the table.
- **Python string built-ins** (module `Text`) that the parser depends on:
  `str.isspace`, `lstrip`, `rstrip`, `strip`, `split`, `startswith`, `int(str)`
  and `str(int)`.
  Module `Wrappers` holds the `Option` type.

The model follows the code as written:

- When a raw counter drops, the code treats it as a reconnect and credits the
  new raw value (`max(0, rx)`). It does not credit nothing. `DropAddsNewValue`
  shows this: (500, 600) followed by raw (50, 80) becomes (550, 680).
- There is no session identifier and no comparison of connected-since markers.
  A new session is detected only by a counter going down.
- The version-3 "Bytes Received" field (index 5) is taken as the received
  counter, exactly as written. No received/sent swap is applied.
- The state file holds only the totals, the address, the connected-since text
  and the last-seen time. The raw counters are neither saved nor restored.

## Model

| member | source | states |
|---|---|---|
| StatusParser.NormalizeTabs | monitor.py:65 | `replace("\t", ",")` keeps the length and leaves no tab |
| StatusParser.IsClientListLine | monitor.py:45 | the pattern `^\s*CLIENT_LIST[\t,]`, a definition; `JoinedIsClientList`, `V2HeaderNotClientList` and `RoutingHeaderNotClientList` state which lines match |
| StatusParser.StripAll | monitor.py:66 | stripping every field keeps the number of fields (the value of each field is stated by `StripAllFields`) |
| StatusParser.StripAllFields | monitor.py:66 | field `i` of the stripped list is field `i` stripped |
| StatusParser.V3Fields | monitor.py:65-66 | `[p.strip() for p in line.replace("\t", ",").split(",")]`, a definition; `JoinedFields` and `LayoutFields` state which fields it reads from a tab-joined line |
| StatusParser.V2Fields | monitor.py:98 | `[p.strip() for p in line.split(",")]`, a definition; `V2LineFields` states that it reads back the fields of a written line |
| StatusParser.NormalizeTabsJoin | monitor.py:65 | replacing tabs in tab-joined tab-free fields gives the comma-joined fields |
| StatusParser.StripAllTrimmed | monitor.py:66 | stripping fields that are already trimmed changes nothing |
| StatusParser.CollectAll | monitor.py:63-81 | when every line yields a row, the extracted rows are exactly those, in order |
| StatusParser.V3Row | monitor.py:63-82 | a line yields a row iff it is a client-list line with at least 8 tab/comma fields and a common name that is neither empty nor `UNDEF`; the row carries fields 1, 2 and 7 stripped, and the counters of fields 5 and 6 when both parse as integers, otherwise 0 and 0 |
| StatusParser.FieldsRow | monitor.py:69-81 | the row made from a line's stripped fields, a definition; `V3Row`'s contract and `LayoutFieldsRow` state what it yields |
| StatusParser.V2Row | monitor.py:98-110 | a CSV line yields a row iff it has at least 5 fields, a name that is not empty, `UNDEF` or `Common Name`, and fields 2 and 3 that both parse as integers; the row is exactly those stripped fields; `V2LineRoundTrip` is its inverse |
| StatusParser.Collect | monitor.py:63-81 | the rows extracted from a list of lines number at most the lines |
| StatusParser.FirstIndex | monitor.py:89-92 | `lines.index(x)`: `None` iff `x` is not a line; otherwise the first position holding `x` |
| StatusParser.BlockEnd | monitor.py:95-97 | the end of the version-2 block lies between its start and the end of the lines |
| StatusParser.BlockEndIsFirstRouting | monitor.py:95-97 | the version-2 block ends at the first `ROUTING TABLE`/`ROUTING_TABLE` line, or at the end of the file when there is none |
| StatusParser.IsRoutingLine | monitor.py:96 | the `break` test, a definition; `BlockEndIsFirstRouting` and `BlockEndAt` state that the block ends at the first such line |
| StatusParser.BlockEndAt | monitor.py:95-97 | a routing-table line with none before it is exactly where the block ends |
| StatusParser.UntilRouting | monitor.py:95-97 | the lines the loop visits before its `break`, a definition; `BlockEndIsFirstRouting` states that it stops at the first routing-table line, and `V2WindowPosition` which lines it holds |
| StatusParser.V2Window | monitor.py:88-97 | the lines of the version-2 block, a definition; `V2WindowPosition` states which lines it holds |
| StatusParser.V3Rows | monitor.py:61-82 | the first pass's rows, a definition; `ParseV3` computes it, `CollectMember` and `CollectAppend` state its contents and order |
| StatusParser.V2Rows | monitor.py:87-110 | the second pass's rows, a definition; `ParseV2` computes it and `V2RowsWindow` states which rows it holds |
| StatusParser.StatusRows | monitor.py:84-112 | the result of `parse_status`, a definition; `DialectSelection` states which pass it comes from and `ParseStatus` computes it |
| StatusParser.CollectStep | monitor.py:95-110 | one more line adds that line's row, if it yields one: the step of the second pass's loop |
| StatusParser.CollectNone | monitor.py:63-82 | lines none of which yields a row yield no rows |
| StatusParser.ParseV3 | monitor.py:62-82 | the first-pass loop returns exactly the version-3 rows of the lines, in order, with their count |
| StatusParser.FindHeader | monitor.py:88-92 | returns -1 iff the exact version-2 header is absent, otherwise its first position |
| StatusParser.ParseV2Line | monitor.py:98-110 | the loop body's result for one line is `V2Row` of the line, so it reads a written line back as its row (`V2LineRoundTrip`) |
| StatusParser.ParseV2Block | monitor.py:95-110 | the loop with its `break` returns the version-2 rows of the lines before the first routing-table line, in order |
| StatusParser.ParseV2 | monitor.py:87-112 | the second pass returns the version-2 rows of the block after the first header, or none without a header |
| StatusParser.ParseStatus | monitor.py:47-112 | the whole parse returns `StatusRows`: the version-3 rows if there are any, otherwise the version-2 rows |
| StatusParser.CollectMember | monitor.py:63-81 | a row is extracted iff some line yields it |
| StatusParser.CollectAppend | monitor.py:63-81 | the rows of concatenated lines are the rows of each part, concatenated: output order follows file order |
| StatusParser.DialectSelection | monitor.py:84-85 | one usable version-3 line makes the result the version-3 rows; with none, the result is the version-2 rows |
| StatusParser.V2WindowPosition | monitor.py:94-97 | line `i` is inside the version-2 block iff the header is first at `h` and `i` falls within the block's window, which then holds line `i` |
| StatusParser.V2RowsOfHeader | monitor.py:88-95 | with the header first at `h`, the version-2 rows are those of the block after it |
| StatusParser.V2RowFromBlock | monitor.py:94-110 | every version-2 row comes from a line of the version-2 block |
| StatusParser.V2RowOfBlock | monitor.py:94-110 | every line of the version-2 block contributes the row it yields |
| StatusParser.V2RowsWindow | monitor.py:88-110 | a row is a version-2 row iff some line after the first header and before any routing-table line yields it |
| StatusParser.StatusRowsUsable | monitor.py:71-72 | every extracted row has a usable common name (not empty, not `UNDEF`) and comes from one input line |
| StatusParser.JoinedFields | monitor.py:65-66 | plain fields joined by tabs are read back as those same fields |
| StatusParser.JoinedIsClientList | monitor.py:45 | a tab-joined line whose first field is the tag is a client-list line |
| StatusParser.LayoutFields | monitor.py:63-66 | the written layout of a row is a client-list line whose fields are that layout |
| StatusParser.LayoutFieldsRow | monitor.py:69-81 | the fields of the written layout make the row again when its counter texts read as its counters |
| StatusParser.V3LineRoundTrip | monitor.py:63-82 | a client-list line written from a row with plain fields reads back as that same row |
| StatusParser.V3StatusRoundTrip | monitor.py:47-85 | a status file written as client-list lines from such rows parses back to exactly those rows, in order |
| StatusParser.FormatV3Line | monitor.py:67-68 | a client-list line written from a row, with the field positions the first pass reads; `V3LineRoundTrip` is the round trip |
| StatusParser.FormatV2Line | monitor.py:98-110 | a version-2 CSV client line written from a row; `V2LineRoundTrip` is the round trip |
| StatusParser.V2PartsPlain | monitor.py:98 | the written fields of a row with plain text hold no comma, no tab and no surrounding whitespace |
| StatusParser.V2LineFields | monitor.py:98 | splitting and stripping a written version-2 line gives back its five fields |
| StatusParser.V2LineRoundTrip | monitor.py:98-110 | a version-2 line written from a row with plain text and a usable name other than `Common Name` reads back as exactly that row |
| StatusParser.NormalizeTabsFree | monitor.py:65 | `replace("\t", ",")` leaves a tab-free line unchanged |
| StatusParser.JoinTabFree | monitor.py:65 | tab-free fields joined with commas make a tab-free line |
| StatusParser.V2LineNotV3 | monitor.py:63-72 | a written version-2 line, with its five fields, never yields a version-3 row |
| StatusParser.LStripUnspaced | monitor.py:45 | `lstrip` leaves a line that does not start with whitespace unchanged |
| StatusParser.V2HeaderNotClientList | monitor.py:45 | the version-2 header does not match the client-list pattern |
| StatusParser.RoutingHeaderNotClientList | monitor.py:45 | the routing-table header does not match the client-list pattern |
| StatusParser.V2File | monitor.py:88-97 | a version-2 file: the header, one line per client, then the routing-table header, a definition; the three lemmas below state how it parses |
| StatusParser.V2FileNoV3 | monitor.py:61-85 | a written version-2 file has no version-3 rows, so the first pass falls through to the second |
| StatusParser.V2FileWindow | monitor.py:88-97 | the version-2 block of a written file is exactly its client lines |
| StatusParser.V2StatusRoundTrip | monitor.py:47-112 | a version-2 file written from rows with plain text, usable names other than `Common Name`, and no line starting as a routing-table line parses back to exactly those rows, in order |
| Text.LStrip | monitor.py:45 | `lstrip`: removes a whitespace-only prefix and leaves a string that does not begin with whitespace |
| Text.IsSpace | monitor.py:45 | the characters `str.isspace()` accepts, which are also what `\s` matches and what `strip()` removes (monitor.py:66), a definition; the contracts of `LStrip`, `RStrip` and `Strip` state what removing them gives |
| Text.RStrip | monitor.py:66 | `rstrip`: the mirror image of `LStrip` |
| Text.Strip | monitor.py:66 | `strip`: the result is a piece of the input with only whitespace before and after it (`InfixAt`), has no whitespace at either end, is never longer, and is the input itself when that is trimmed |
| Text.StripInfix | monitor.py:66 | the stripped text starts where the whitespace prefix ends, and only whitespace surrounds it |
| Text.StripTrailing | monitor.py:66 | every character after the stripped text is whitespace |
| Text.Split | monitor.py:66 | `split(sep)`: at least one part, no part contains the separator, and joining the parts gives back the input |
| Text.SplitJoin | monitor.py:66 | splitting undoes joining when no part contains the separator |
| Text.SplitField | monitor.py:66 | a leading separator-free field comes out as the first part |
| Text.SplitSingle | monitor.py:66 | a separator-free string splits into itself |
| Text.ParseInt | monitor.py:75-76 | `int(s)` succeeds iff `s` is digits with an optional sign, and gives a non-negative value for unsigned digits |
| Text.DigitsValue | monitor.py:75-76 | the value `int()` reads from a run of digits, most significant first, a definition; `ParseIntOneDigit`, `ParseIntAppendDigit`, `ParseIntLeadingZero` and `DigitsValueOfDecimal` state its properties |
| Text.ParseIntOneDigit | monitor.py:75-76 | `int` of one digit is that digit's value |
| Text.ParseIntAppendDigit | monitor.py:75-76 | appending a digit multiplies the value by ten and adds the digit |
| Text.ParseIntSign | monitor.py:75-76 | `int("+" + d) == int(d)` and `int("-" + d) == -int(d)` for digits `d` |
| Text.ParseIntLeadingZero | monitor.py:75-76 | `int("0" + d) == int(d)`: a leading zero does not change the value |
| Text.NatDecimal | monitor.py:75-76 | `str(n)` of a natural is digits without a leading zero |
| Text.ParseDecimal | monitor.py:75-76 | `int(str(n)) == n` for every integer |
| Text.DigitsValueOfDecimal | monitor.py:75-76 | the digits of `n` have the value `n` |
| Text.DecimalShape | monitor.py:66 | `str(n)` has no surrounding whitespace and contains no separator |
| Text.Decimal | monitor.py:196-197 | `str(n)` of an integer is never empty; `NatDecimal` and `ParseDecimal` state its digits and that `int` reads it back |
| Text.StartsWith | monitor.py:96 | `str.startswith`, a definition; `BlockEndIsFirstRouting` states where the block ends because of it |
| Accounting.Credit | monitor.py:279-294 | the amount a raw counter adds to its total is never negative |
| Accounting.Observe | monitor.py:279-301 | totals never decrease; a first sighting adds nothing; an advance adds exactly the advance; a drop adds the new raw value when positive; the raw counters become the row's; address and since change only to non-empty values; last-seen becomes now |
| Accounting.Lookup | monitor.py:274-276 | the name's record, or a new one, a definition; `Enter` states that the loop does the same |
| Accounting.Step | monitor.py:273-301 | one iteration on the record map, a definition; `Visit` states that the loop body computes it and `StepEntered` relates it to the entry step |
| Accounting.Fold | monitor.py:272-302 | the update loop on the record map, a definition; `ApplyRows` computes it, and `FoldPerClient`, `FoldAbsentUnchanged`, `FoldMonotone` and `FoldSeen` state its properties |
| Accounting.Track | monitor.py:279-301 | one record folded over its own rows, a definition; `FoldPerClient` ties it to `Fold` and the `Track...` lemmas state its properties |
| Accounting.ClientState.constructor | monitor.py:115-124 | a new record object holds no raw counters, zero totals, empty text and last-seen 0 |
| Accounting.UpdateRecord | monitor.py:279-301 | the loop body changes only the one record object, and its new contents are `Observe` of its old ones |
| Accounting.ContentsPut | monitor.py:274-276 | entering a record object under a name gives that name the object's contents and leaves the other names alone |
| Accounting.Enter | monitor.py:273-276 | the name's existing object is used, or a fresh one holding a new record is entered; no other entry changes and no object is shared |
| Accounting.StepEntered | monitor.py:273-301 | updating the entered record is the same step as on the map before the entry |
| Accounting.Visit | monitor.py:273-301 | one iteration keeps every existing object under its name, adds only fresh unshared ones, and leaves the contents as `Step` of the old contents |
| Accounting.ApplyRows | monitor.py:272-302 | the update loop updates the existing record objects in place, adds fresh ones for new names, keeps them unshared, and leaves the contents as `Fold` of the old contents over the rows, in order |
| Accounting.RowsOf | monitor.py:272-273 | the rows of one common name are at most all rows and all have that name |
| Accounting.FoldPerClient | monitor.py:272-302 | a name has a record afterwards iff it had one or a row carries it; its record is its old one (or a new one) folded over exactly its own rows |
| Accounting.FoldAbsentUnchanged | monitor.py:272-302 | a name with no row keeps its record unchanged, with every field intact |
| Accounting.RowsOfFrom | monitor.py:272 | each row of one name is one of the rows |
| Accounting.RowsOfNonEmpty | monitor.py:272-276 | a name that has a row has at least one in its own rows, ending with that name |
| Accounting.TrackMonotone | monitor.py:293-294 | totals never decrease over any sequence of rows |
| Accounting.TrackLast | monitor.py:295-301 | after a run of rows the record holds the last row's raw counters and was seen now |
| Accounting.TrackTextFields | monitor.py:297-300 | address and since are either the old values or the non-empty value of some row, and stay unchanged when every row leaves them empty |
| Accounting.TrackContinuing | monitor.py:279-294 | within one connection (counters never drop) the totals grow by exactly the raw counters' advance: nothing is lost or counted twice |
| Accounting.TrackFront | monitor.py:272-302 | folding a run of rows equals taking the first row, then the rest |
| Accounting.TrackFirstSighting | monitor.py:279-294 | from a first sighting on, within one connection, totals grow by the last row's counters minus the first row's |
| Accounting.FoldMonotone | monitor.py:293-294 | across a whole pass, no record's total decreases |
| Accounting.FoldSeen | monitor.py:301 | every name in the rows has a record last seen now |
| Accounting.FirstSightingCountsNothing | monitor.py:283-291 | a first sighting with raw (1000, 2000) leaves the totals at 0 and sets the raw counter |
| Accounting.AdvanceAddsDifference | monitor.py:279-294 | raw (1000, 2000) then (1500, 2600) adds (500, 600) |
| Accounting.DropAddsNewValue | monitor.py:279-294 | totals (500, 600), raw (1500, 2600), then raw (50, 80) gives totals (550, 680) |
| Accounting.SharedNameAlternates | monitor.py:272-294 | two connections under one name with unmoving received counters 1000 and 10 add 1000 on every pass |
| Presentation.SeenIsOnline | monitor.py:147 | a name seen in this pass is shown online when the clock is positive and the grace period is not negative |
| Presentation.AbsentGoesOffline | monitor.py:147 | a name missing from this pass keeps its record and is shown offline once the grace period has passed |
| Presentation.Online | monitor.py:147 | the online test, a definition; `SeenIsOnline` and `AbsentGoesOffline` state when it holds |
| Presentation.Entries | monitor.py:139-140 | given an order that lists every name of the dictionary once (`ListsKeys`), one entry per name, in that order, with its total traffic |
| Presentation.ListsEveryKey | monitor.py:139-140 | a listing without repetitions, as long as the dictionary, names every key of it |
| Presentation.EntriesOnce | monitor.py:139-140 | before sorting, each client has exactly one entry, carrying its total |
| Presentation.TableListsEachClientOnce | monitor.py:139-146 | the sorted table has exactly one row per client, and every row for a name carries that client's total |
| Presentation.Insert | monitor.py:139-143 | insertion after the entries of at least the same total, a definition; `InsertHead`, `InsertMultiset`, `InsertDescending` and `InsertStable` state its properties |
| Presentation.InsertHead | monitor.py:139-143 | after an insertion the first entry is the inserted one or the old first one |
| Presentation.InsertMultiset | monitor.py:139-143 | inserting adds exactly one entry |
| Presentation.InsertDescending | monitor.py:139-143 | inserting into a descending sequence keeps it descending |
| Presentation.SortByTotal | monitor.py:139-143 | in the table order each total is at least the next one, and the order is a permutation of the entries |
| Presentation.StepDescendingHead | monitor.py:139-143 | in a descending sequence the first total bounds all the others |
| Presentation.StepDescendingIsDescending | monitor.py:139-143 | each total is at least every later one, not only the next |
| Presentation.SortSorted | monitor.py:139-143 | the table order is sorted by total, largest first (every earlier total at least every later one), and holds exactly the entries |
| Presentation.WithTotalAppend | monitor.py:139-143 | filtering by total distributes over concatenation |
| Presentation.WithTotalNone | monitor.py:139-143 | filtering by a total above every total in the sequence keeps nothing |
| Presentation.InsertStableBehind | monitor.py:139-143 | inserting behind the first entry keeps the order of equal totals, given the same for the rest |
| Presentation.InsertStableInFront | monitor.py:139-143 | an entry placed in front of smaller totals is the last of its total |
| Presentation.InsertStable | monitor.py:139-143 | inserting places the new entry after every entry with the same total |
| Presentation.SortStable | monitor.py:139-143 | the sort is stable: entries with equal totals keep their dictionary order |
| Persistence.Truncate | monitor.py:196-197 | `s[:n]` has exactly `min(len(s), n)` characters, is a prefix of `s`, and is `s` itself when `s` is already short enough |
| Persistence.Get | monitor.py:184-198 | `dict.get(key, default)`, a definition used by the restore functions |
| Persistence.PyInt | monitor.py:194-198 | `int()` of a decoded JSON value, a definition; `RestoreRecord`'s contract and `RecordRoundTrip` state what restoring through it gives |
| Persistence.PyStr | monitor.py:196-197 | `str()` of a decoded JSON value, a definition; `RestoreRecord` states the length limits of its truncated result |
| Persistence.VersionMatches | monitor.py:184 | the version gate, a definition; `Restore` and `OtherVersionRestoresNothing` state what failing it does |
| Persistence.RestoreEntries | monitor.py:191-202 | the loop's result over a set of saved names, a definition; `RestoreEntriesAdd` gives its step and `LoadClients` computes it |
| Persistence.RestoreRecord | monitor.py:192-202 | an entry restores only if it is an object; a restored record has no raw counters, and its address and since fit 128 and 64 characters |
| Persistence.Restore | monitor.py:184-203 | a document that is not an object, or whose version is not 1, restores nothing; every restored record has unset raw counters and text within 128/64 characters |
| Persistence.Build | monitor.py:193-198 | a fresh record object is built holding exactly the restored record |
| Persistence.LoadClients | monitor.py:190-202 | the loop over the saved entries returns fresh, unshared record objects whose contents are the entries that convert |
| Persistence.LoadState | monitor.py:174-203 | load returns fresh, unshared record objects whose contents are `Restore` of the document |
| Persistence.SaveRecord | monitor.py:221-227 | one saved client entry, a definition; `SavedFields` states what it holds |
| Persistence.SavedClients | monitor.py:220-229 | the saved `clients` object, a definition; `RestoreSaved` states how it reloads |
| Persistence.SavePayload | monitor.py:217-230 | the saved document, a definition; `SaveRestoreRoundTrip` and `SaveRestoreStable` state how it reloads |
| Persistence.Reloaded | monitor.py:192-200 | a record as it comes back from a save and load, a definition; `RecordRoundTrip` and `ReloadedStable` state its properties |
| Persistence.SavedFields | monitor.py:221-227 | a saved entry holds exactly total_rx, total_tx, real, since and last_seen, and never the raw counters |
| Persistence.RecordRoundTrip | monitor.py:192-200 | a saved entry restores as its reloaded form: the same totals and last-seen time, the text cut to 128/64 characters, and unset raw counters |
| Persistence.RestoreSaved | monitor.py:184-191 | a saved document passes the version gate and its saved client entries are restored one by one |
| Persistence.RestoreEntriesAdd | monitor.py:191-202 | restoring one more entry adds its record when it converts and leaves the result alone when it does not |
| Persistence.SaveRestoreRoundTrip | monitor.py:174-231 | loading a saved state gives back exactly the saved names, each in its reloaded form: equal totals and last-seen time, truncated text, unset raw counters |
| Persistence.ReloadedStable | monitor.py:196-197 | truncation is idempotent, so a reloaded record reloads as itself |
| Persistence.SaveRestoreStable | monitor.py:174-231 | a second save/load cycle changes nothing |
| Persistence.OtherVersionRestoresNothing | monitor.py:184-185 | a document with any other integer version restores nothing |

## Left out

- File and terminal I/O are not modelled. This covers `open` and `splitlines` on
  the status file (lines arrive as a `seq<string>`), the missing-file case, and
  decoding errors. It also covers `json.load`/`json.dumps` text (the document is
  a value tree), `atomic_write` with its temporary file, `fsync` and rename, and
  `clear_screen` and all `print` output.
- The clock, the sleep interval, the periodic and final saves, argument parsing
  and `KeyboardInterrupt` are not modelled. The time is the parameter `now` (and
  `savedAt` for saving).
- `human_bytes`, `make_style`, colours and the column layout of `print_table` are
  not modelled. Only the online test and the row order are.
- `seen_this_tick` is not modelled: it is filled but never read.
- The regular expression `^\s*CLIENT_LIST(?:[\t,])` is written as a predicate,
  not as a regex engine.
- Text.ParseInt: models `int()` on strings as an optional sign followed by ASCII
  digits. Underscores between digits and non-ASCII Unicode digits, which Python
  also accepts, are left out.
- Persistence.PyStr: models `str()` of a JSON array or object as the empty string
  instead of Python's repr text. The 128/64 limits proved in `RestoreRecord`
  hold for any text.
- Persistence.PyInt: JSON floats are not part of the value tree, so
  `int(2.5)` truncation and `version == 1.0` are not modelled.
- The `Dict[str, ClientState]` itself is a map value that `ApplyRows` and
  `LoadState` return, not a dictionary object mutated in place. The record
  objects in it are heap objects, updated in place. The functions that only read
  records (`print_table`'s rules, `save_state`, the lemmas) take their contents,
  `Contents(states)`.
- Integers are unbounded, as they are in Python.
- Presentation.Entries: `order` stands for the dictionary's iteration order, which
  is insertion order in Python: first sightings in the update loop
  (monitor.py:276) and file order of the saved entries in `load_state`
  (monitor.py:191-200). The model leaves it a free parameter and requires only
  that it lists every name once.
- StatusParser.StripAll: its own contract states only the length; the value of
  each field is stated by the lemma `StripAllFields`, because a quantified
  per-field clause on the function makes every proof that uses it much slower.
- A client whose version-2 line starts with `ROUTING TABLE` or `ROUTING_TABLE`
  ends the block early, as the code does; `V2StatusRoundTrip` therefore assumes
  no written line does.

Two connections open at once under one common name are measured against each
other's raw counter, because records are keyed by common name (monitor.py:272-276).
Take two sessions whose raw received counters stay at 1000 and 10. In each pass
the 1000 row sees an advance from 10 and credits 990. The 10 row then sees a drop
from 1000, takes it as a reset and credits its new value, 10. So every pass adds
990 + 10 = 1000, the larger of the two counters, although no byte moved.
`Accounting.SharedNameAlternates` states this behaviour of the code as written.
