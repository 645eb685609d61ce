# X12 835 parser core, modelled in Dafny

The modelled system reads an X12 835 (005010X221A1, health care claim
payment/advice) transaction and writes its segments to SQLite tables. This
project models five parts of it:

- **The loop cursor** (`loopstate.dfy`). `changeState` moves the parser
  between the heading, loops 1000, 2000, 2100, 2105 and 2110, and the summary
  when a segment opens a loop. It also keeps the ordinal of each loop's
  current instance.
- **The per-segment loop of `parseX12`** (`parser.dfy`):
  - adopting a transition;
  - numbering repeated segments (`currentSegmentOrder`);
  - dispatching to `decodeHeading`, `decode1000`, `decode2000` and
    `decode2100`, which call the insert functions and keep the row handles
    they return.

  The insert functions are seen only as a log of calls, where each call's
  handle is its position. Over the whole loop each parent handle is
  undefined or names a row written earlier. When the file has every segment
  in its place, every row other than the header has a defined parent
  written before it.
- **`reparseSegment`** (`reparse.dfy`). It repairs an element that the
  tokenizer flattened because of a repetition separator: the element's parts
  are joined, split on the repetition separator and stored as `i(k)_m` keys.
  The model proves:
  - the round trip;
  - that nothing else changes;
  - the stop conditions of both loops;
  - idempotence;
  - the repository's own RAS example.
- **The data inserter** (`inserter.dfy`, `records.dfy`, `composites.dfy`,
  `formats.dfy`, `columns.dfy`, `sink.dfy`). This covers:
  - `mapValues` and `insertRow`;
  - the date and time formatters;
  - every segment insert, as one operation parameterised by the segment
    kind;
  - the construction of the composite segments C001 (K3, QTY), C058 (RAS),
    C040 (RDM, REF) and the CLP element-11 composite (C022).

  The database is a class holding the log of rows written.
- **`PeekTransform`** (`peek.dfy`). This stream stage passes bytes through
  and reports the first `peekBytes` bytes once. The model proves that the
  whole stream comes out unchanged and that a non-empty stream is peeked
  once, at its first min(peekBytes, length) bytes; an empty stream gives no
  peek unless peekBytes is 0 and a chunk came.

`wrappers.dfy` holds `Option`/`Result`. `text.dfy` holds the JavaScript
string operations the source relies on (`substring`, `split`, `join`,
`${n}`).

The table below lists the members whose contracts state something. They
are stated about these defining functions, which follow the source and
carry no contract of their own:
- `LoopState.ChangeState` is `changeState` (parser.ts:256-324).
- `Parser.Step` is one pass of `parseX12`'s loop, and `Parser.Run` the
  whole loop (parser.ts:33-89). `Parser.HeadingStep`, `Loop1000Step`,
  `Loop2000Step` and `Loop2100Step` are `decodeHeading`, `decode1000`,
  `decode2000` and `decode2100` (parser.ts:91-254).
- `Records.Put` is an assignment `mapped[key] = value`.
  `Records.Project` is `mapValues` (dataInserter.ts:864-876), and
  `Records.Statement` is the statement `insertRow` prepares
  (dataInserter.ts:878-886).
- `Reparse.Reparsed` is `reparseSegment`, and `Reparse.RepairAt` is one
  pass of its outer loop (parserHelper.ts:6-59).
- `Composites.C001Run` is the component loop of the C001 composite
  (dataInserter.ts:281-292). `Composites.RasRun` is the component loop of
  RAS (dataInserter.ts:561-587). `Composites.C040Slots` and
  `Composites.C022Slots` are the object literals of the C040 and C022
  composites (dataInserter.ts:609-619, 169-184).
- `Inserter.SegmentRecord` is the record a segment insert writes:
  - mapped with the type's column map (`Columns.AmtColumns` …
    `Columns.Ts3Columns`, chosen by `Inserter.ColumnsOf`);
  - linked by `Inserter.LinkOf`;
  - ordered when `Inserter.TakesOrder` holds;
  - converted by `Inserter.ConvertAll` with `Inserter.ConversionsOf`.

  `Inserter.CompositeOf` names the composites the insert writes after the
  row, and `Inserter.PlanOf` gathers all of these for one segment type.
- `Peek.Emit` appends what one `push` emitted (peakTransform.ts:25).

## Model

| member | source | states |
|---|---|---|
| LoopState.Initial | src/edi835Parsing/parser.ts:38-43 | the parser starts in the heading with segment order 0, no previous segment, the separators "^" and ":", every loop index and every row handle undefined, and a coherent record |
| LoopState.ChangeStateNull | src/edi835Parsing/parser.ts:256-324 | changeState returns a new record (so the loop resets the previous name, the order and n1Id) exactly for N1, LX, CLP, SVC, PLB and SE, except SE in the summary |
| LoopState.ChangeStateKeeps | src/edi835Parsing/parser.ts:260-323 | a transition copies every handle, both separators, the previous segment name, the order and every index it does not name |
| LoopState.N1Transition | src/edi835Parsing/parser.ts:261-272 | N1 opens loop 1000 at ordinal 0 from the heading, counts the next 1000 instance, opens 2105 at 0 from a claim, and elsewhere keeps the level and counts another 2105 |
| LoopState.LXTransition | src/edi835Parsing/parser.ts:273-290 | LX always enters loop 2000: ordinal 0 from the heading or 1000, otherwise the next ordinal with the 2100/2105/2110 indices cleared |
| LoopState.CLPTransition | src/edi835Parsing/parser.ts:291-306 | CLP always enters 2100: ordinal 0 from loop 2000, otherwise the next claim with 2105/2110 cleared |
| LoopState.SVCTransition | src/edi835Parsing/parser.ts:307-315 | SVC enters 2110: the next ordinal inside 2110, ordinal 0 from anywhere else |
| LoopState.SummaryTransition | src/edi835Parsing/parser.ts:316-323 | PLB yields the summary from every level (the summary included); SE yields it from every other level |
| LoopState.ExpectedTransition | src/edi835Parsing/parser.ts:260-320 | in a coherent record, an opening segment met in a level the source expects never reads an undefined index, and the new record is coherent |
| Parser.Store.constructor | src/edi835Parsing/parser.ts:34 | the store starts with no rows |
| Parser.Store.Insert | src/edi835Parsing/parser.ts:103-104 | an insert call is appended to the log and returns a handle no earlier call received |
| Parser.DecodedKeeps | src/edi835Parsing/parser.ts:91-254 | the decoders change only handles and separators; the level, indices and segment order pass through |
| Parser.FoldAdvance | src/edi835Parsing/parser.ts:47-83 | running the loop body on the next segment leaves the same final record and calls still to come |
| Parser.StepOrder | src/edi835Parsing/parser.ts:50-82 | after a segment, the order is one more than before when it repeats the previous segment without opening a loop, else 0, and the segment becomes the previous one |
| Parser.RepeatedOrder | src/edi835Parsing/parser.ts:60-66 | k copies of a non-opening segment are numbered 0..k-1, or continue the previous count when they repeat the previous segment |
| Parser.HeadingRefersBack | src/edi835Parsing/parser.ts:91-139 | each heading call's parent handle is undefined or names an earlier row, and the header handle names a written row; every parent is defined exactly when the header handle is, for BPR, NTE, TRN, CUR, REF and DTM (`headerId!`) |
| Parser.Loop1000RefersBack | src/edi835Parsing/parser.ts:141-194 | each parent handle is undefined or names an earlier row; every parent is defined exactly when the handle the segment reads is (header for N1, N1 row for N2-N4, 1000 row for REF, PER, RDM, DTM); the N1 row's parent is the 1000 row written just before it |
| Parser.Loop2000RefersBack | src/edi835Parsing/parser.ts:196-218 | each parent handle is undefined or names an earlier row; every parent is defined exactly when the header handle (LX) or the 2000 row handle (TS3, TS2) is |
| Parser.Loop2100RefersBack | src/edi835Parsing/parser.ts:220-254 | each parent handle is undefined or names an earlier row; every parent is defined exactly when the 2000 row handle (CLP) or the 2100 row handle (CAS) is; the CLP row's parent is the 2100 row written just before it |
| Parser.StepRefersBack | src/edi835Parsing/parser.ts:47-83 | one loop pass writes only parent handles that are undefined or name earlier rows, keeps only handles of written rows, and writes only defined parents exactly when the current decoder's handle is defined |
| Parser.FoldRefersBack | src/edi835Parsing/parser.ts:47-83 | a loop whose body refers back keeps every call referring back |
| Parser.RunRefersBack | src/edi835Parsing/parser.ts:47-83 | over the whole file no insert refers forwards: each parent handle is undefined or names a row inserted before it |
| Parser.StepGrounded | src/edi835Parsing/parser.ts:47-83 | a segment in its place reads only defined indices and the handle its decoder needs, and keeps the loop handles of the current level defined |
| Parser.StepAnchored | src/edi835Parsing/parser.ts:47-83 | a segment in its place writes only rows with a defined parent written before it |
| Parser.RunAnchored | src/edi835Parsing/parser.ts:47-83 | a stream with every segment in its place is parsable, and every row other than the header has a defined parent written before it |
| Parser.ParseAnchored | src/edi835Parsing/parser.ts:33-89 | from the initial record, a file with ST before any insert or loop opener and each opener where expected is parsed, and every row other than the header has a defined, earlier parent |
| Parser.ExpectedParsable | src/edi835Parsing/parser.ts:256-324 | from a coherent record, a stream meeting every opening segment where the source expects it never reads an undefined index, so parseX12's precondition holds |
| Parser.StepDispatch | src/edi835Parsing/parser.ts:68-105 | 2105, 2110 and the summary write nothing; ISA only sets the separators from elements 11 and 16; ST writes the header and then ST pointing at it |
| Parser.StepN1 | src/edi835Parsing/parser.ts:147-159 | N1 in loop 1000 writes the loop row under the header, then the N1 row pointing at it, and keeps both handles |
| Parser.StepCLP | src/edi835Parsing/parser.ts:226-233 | CLP writes the 2100 loop row under the 2000 row, then the CLP row pointing at it, and keeps the 2100 handle |
| Parser.StepCoherent | src/edi835Parsing/parser.ts:47-83 | a segment met where expected keeps the record coherent and never reads an undefined index |
| Parser.DecodeHeading | src/edi835Parsing/parser.ts:91-139 | the method makes the heading's calls and returns the heading's record |
| Parser.Decode1000 | src/edi835Parsing/parser.ts:141-194 | the method makes loop 1000's calls and returns its record |
| Parser.Decode2000 | src/edi835Parsing/parser.ts:196-218 | the method makes loop 2000's calls and returns its record |
| Parser.Decode2100 | src/edi835Parsing/parser.ts:220-254 | the method makes loop 2100's calls and returns its record |
| Parser.ParseSegment | src/edi835Parsing/parser.ts:48-82 | one pass of the loop body: the new record and calls are those of one step |
| Parser.ParseFrom | src/edi835Parsing/parser.ts:47-83 | the loop over all segments produces the fold's final record and all its calls |
| Parser.ParseX12 | src/edi835Parsing/parser.ts:33-89 | parsing from the initial record gives the run's record and calls |
| Reparse.ExtentBounds | src/edi835Parsing/parserHelper.ts:21-25 | the inner scan takes i-1, i-2, ... contiguously, at most maxSubKeys of them, stopping early only at a missing key |
| Reparse.PartsAt | src/edi835Parsing/parserHelper.ts:27-33 | part 0 is the value of i and part j the value of i-j |
| Reparse.CollectParts | src/edi835Parsing/parserHelper.ts:17-35 | the inner loop returns the parts of i, the count of sub-fields, and whether no part holds the repetition separator |
| Reparse.DeleteElement | src/edi835Parsing/parserHelper.ts:43-46 | i and i-1..i-maxJ are removed and nothing else |
| Reparse.StoreRepetitions | src/edi835Parsing/parserHelper.ts:49-56 | every component of every repetition is stored at i(k)_m, on top of the existing keys |
| Reparse.RepairIndex | src/edi835Parsing/parserHelper.ts:17-56 | one pass of the outer loop equals the pass function for index i |
| Reparse.ReparseSegment | src/edi835Parsing/parserHelper.ts:6-59 | the function returns the reparsed copy, computed from the unchanged input |
| Reparse.RepairAtKeeps | src/edi835Parsing/parserHelper.ts:42-56 | a pass touches only the keys of its own index |
| Reparse.RepairFromKeeps | src/edi835Parsing/parserHelper.ts:15-57 | the passes from i on leave earlier indices, the stop index onward and name as they were |
| Reparse.ReparseKeeps | src/edi835Parsing/parserHelper.ts:15-16 | keys at or after the first missing index, and keys of no index, come back unchanged |
| Reparse.RepairAtClean | src/edi835Parsing/parserHelper.ts:36 | an element without i-1, or whose parts are free of the repetition separator, is left unchanged |
| Reparse.EntriesRoundTrip | src/edi835Parsing/parserHelper.ts:49-56 | the stored keys are exactly i(k)_m for the shape of the text, and rejoining them gives the text back |
| Reparse.RepairRoundTrip | src/edi835Parsing/parserHelper.ts:38-56 | a repaired element loses i and i-1..i-m, and its repetition keys read back to the parts joined with the composite separator |
| Reparse.ExtentStops | src/edi835Parsing/parserHelper.ts:17 | with name and 1..i present, the maxSubKeys bound never cuts the scan short |
| Reparse.FirstRepair | src/edi835Parsing/parserHelper.ts:15-57 | when i is the first element repaired, the earlier elements and name are kept and i is gone |
| Reparse.ReparseIdempotent | src/edi835Parsing/parserHelper.ts:6-59 | reparsing a reparsed segment changes nothing |
| Reparse.RasExample | src/edi835Parsing/parserHelper.spec.ts:21-43 | the RAS example comes back as 3(0)_1=AA, 3(0)_2=BB, 3(1)_1=CC, 3(1)_2=DD, 3(1)_3=EE, 3(2)_1=FF, with 1, 2, 4 and name kept |
| Text.NatStrDigits | src/edi835Parsing/dataInserter.ts:289 | a template-formatted number is digits without a leading zero, one digit exactly below 10 |
| Text.Substring | src/edi835Parsing/dataInserter.ts:894-896 | `substring` returns the slice for in-range bounds, clamps an end past the string or a negative start, swaps bounds given in reverse, and is empty past the end |
| Text.Split | src/edi835Parsing/parserHelper.ts:49-52 | a split has at least one piece and no piece contains the separator |
| Text.JoinSplit | src/edi835Parsing/parserHelper.ts:38-52 | joining a split with its separator gives the string back |
| Text.SplitJoin | src/edi835Parsing/parserHelper.ts:49-54 | splitting a join of separator-free pieces gives the pieces back |
| Records.Get | src/edi835Parsing/dataInserter.ts:282 | `data[key]` is defined exactly when some entry has that key |
| Records.GetDistinct | src/edi835Parsing/dataInserter.ts:282 | when no key repeats, as in a tokenized segment, `data[key]` is the value of the one entry with that key |
| Records.KeysAt | src/edi835Parsing/dataInserter.ts:882 | `Object.keys` lists the entry names in order |
| Records.ValuesAt | src/edi835Parsing/dataInserter.ts:885 | `Object.values` lists the values in key order |
| Records.Lookup | src/edi835Parsing/dataInserter.ts:104 | a record lookup is defined exactly for its keys |
| Records.PutLookup | src/edi835Parsing/dataInserter.ts:104 | after an assignment the key holds the new value and every other key is unchanged |
| Records.PutKeys | src/edi835Parsing/dataInserter.ts:278-279 | an existing key keeps its place and a new key goes last |
| Records.PutDistinct | src/edi835Parsing/dataInserter.ts:278-279 | an assignment keeps the keys distinct |
| Records.Column | src/edi835Parsing/dataInserter.ts:872-873 | an element maps to a column exactly when the map has a non-empty column for its key |
| Records.LastFor | src/edi835Parsing/dataInserter.ts:871-874 | the last element mapped to a column exists exactly when some element maps there |
| Records.MapValues | src/edi835Parsing/dataInserter.ts:864-876 | the method builds the projected record |
| Records.ProjectLookup | src/edi835Parsing/dataInserter.ts:871-874 | each column other than segment_order holds the value of the last element mapped to it, and is absent if none is |
| Records.ProjectHead | src/edi835Parsing/dataInserter.ts:869-870 | segment_order is the first column and holds the order |
| Records.ProjectOrder | src/edi835Parsing/dataInserter.ts:870 | segment_order holds the order unless the map itself targets segment_order |
| Records.ProjectDistinct | src/edi835Parsing/dataInserter.ts:869-875 | the mapped record has no repeated column |
| Records.ProjectColumns | src/edi835Parsing/dataInserter.ts:871-874 | the columns are exactly segment_order and the columns some element maps to |
| Records.SegmentOrderKept | src/edi835Parsing/dataInserter.ts:870-873 | segment_order is always a column |
| Records.StatementShape | src/edi835Parsing/dataInserter.ts:882-885 | column i of the INSERT is key i of the record, with one placeholder each, bound to value i |
| Sink.Database.constructor | src/edi835Parsing/dataInserter.ts:8-10 | a fresh database log is empty |
| Sink.Database.Run | src/edi835Parsing/dataInserter.ts:885 | running an INSERT appends its row and returns a handle no earlier row has |
| Formats.FormatEightDigitDate | src/edi835Parsing/dataInserter.ts:888-899 | the date is accepted exactly when it is eight digits, and the result is ten characters with dashes at 4 and 7 and digits elsewhere |
| Formats.DateRoundTrip | src/edi835Parsing/dataInserter.ts:894-898 | removing the dashes from a formatted date gives the eight digits back |
| Formats.FormatTimeAsWritten | src/edi835Parsing/dataInserter.ts:901-923 | the guard as written accepts exactly the all-digit strings shorter than 4, and yields text ending in ":00" |
| Formats.TimeGuardInverted | src/edi835Parsing/dataInserter.ts:903-907 | every HHMM, HHMMSS and HHMMSSDD time is rejected by the guard as written |
| Formats.ThreeDigitTimeAccepted | src/edi835Parsing/dataInserter.ts:903-916 | "123" passes the written guard and becomes "12:3:00" |
| Formats.FormatTime | src/edi835Parsing/dataInserter.ts:901-923 | with the guard its message describes, a time is accepted exactly when it is all digits and at least four long; the result has colons at 2 and 5 |
| Formats.FormattedTime | src/edi835Parsing/dataInserter.ts:909-922 | a formatted time is HH:MM:SS, with 00 seconds for four digits and a short seconds field for five, then "." and digits 7 and 8 (or only 7) when there are more than six |
| Formats.TimeRoundTrip | src/edi835Parsing/dataInserter.ts:909-922 | removing ':' and '.' from a formatted time gives back its first eight digits (all of them for 5 to 8 digits); HHMM comes back with 00 added |
| Formats.LongTimeTruncated | src/edi835Parsing/dataInserter.ts:913-920 | a nine-digit time loses its ninth digit: "123456789" gives "12:34:56.78" |
| Composites.Kept | src/edi835Parsing/dataInserter.ts:613 | a conditional spread contributes the value exactly when it is truthy |
| Composites.C001RunLength | src/edi835Parsing/dataInserter.ts:285-286 | the C001 loop never goes past 3-14 |
| Composites.C001RunAt | src/edi835Parsing/dataInserter.ts:286-289 | component k+1 of the run is the truthy sub-element 3-k |
| Composites.C001RunStops | src/edi835Parsing/dataInserter.ts:287-288 | the run ends at 3-14 or at the first sub-element that is not truthy |
| Composites.C001Of | src/edi835Parsing/dataInserter.ts:281-291 | a C001 exists exactly when element 3 is truthy; it starts with element 3, has 2 to 16 entries and ends with its name |
| Composites.BuildC001 | src/edi835Parsing/dataInserter.ts:281-291 | the K3/QTY loop builds that composite |
| Composites.RasRunLength | src/edi835Parsing/dataInserter.ts:566 | a repetition has at most seven components |
| Composites.RasRunAt | src/edi835Parsing/dataInserter.ts:566-579 | entry k of a repetition is component c+k+1, read from the truthy key 3-w-rep with the first repetition shifted by one |
| Composites.RasRunEntry | src/edi835Parsing/dataInserter.ts:566-579 | the same, with the sub-element and component numbers named |
| Composites.RasRunStops | src/edi835Parsing/dataInserter.ts:577-582 | a repetition ends after seven components or at the first key that is not truthy |
| Composites.RasRunEnd | src/edi835Parsing/dataInserter.ts:577-582 | the same, with the end position named |
| Composites.C058At | src/edi835Parsing/dataInserter.ts:564-585 | the first C058 always exists; repetition r+1 exists exactly when 3-1-(r+1) is truthy; each has 1 to 8 entries and ends with its name |
| Composites.C058List | src/edi835Parsing/dataInserter.ts:563-586 | at most 15 - r composites come from repetition r+1 on |
| Composites.C058Shape | src/edi835Parsing/dataInserter.ts:563-586 | a RAS segment yields 1 to 15 C058 composites, the first being the first repetition |
| Composites.C058ListStep | src/edi835Parsing/dataInserter.ts:563-586 | the list is repetition r's composite, if it exists, followed by the rest |
| Composites.BuildC058At | src/edi835Parsing/dataInserter.ts:564-585 | the inner RAS loop builds repetition r's composite |
| Composites.BuildC058From | src/edi835Parsing/dataInserter.ts:563-586 | the outer RAS loop from a repetition on builds the list |
| Composites.BuildC058 | src/edi835Parsing/dataInserter.ts:561-586 | all fifteen repetitions give the C058 list |
| Composites.EntriesMissing | src/edi835Parsing/dataInserter.ts:610-618 | an object literal built from slots has no key that no slot names |
| Composites.EntriesGet | src/edi835Parsing/dataInserter.ts:610-618 | with distinct slots, each slot's key gives that slot's value |
| Composites.C040Of | src/edi835Parsing/dataInserter.ts:609-619 | a C040 exists exactly when its element is truthy; slot 1 is the element, slot k+1 is e-k when truthy, and the name is C040 |
| Composites.C022Of | src/edi835Parsing/dataInserter.ts:169-184 | the CLP composite exists exactly when element 11 is truthy; slot 2 is 11-1 as it is; slots 3 to 6 hold the last truthy of their candidate keys |
| Inserter.LinkedLookup | src/edi835Parsing/dataInserter.ts:277-279 | linking puts the parent reference in its columns and leaves the others unchanged |
| Inserter.ConvertFacts | src/edi835Parsing/dataInserter.ts:257-263 | a conversion fails exactly for a non-empty text the formatter refuses; otherwise it rewrites only its column and keeps the key order |
| Inserter.C058Rows | src/edi835Parsing/dataInserter.ts:589-591 | one C058 row per composite |
| Inserter.ConvertAllKeeps | src/edi835Parsing/dataInserter.ts:224-234 | the conversions keep the columns in order and every column they do not name |
| Inserter.ConvertAllFails | src/edi835Parsing/dataInserter.ts:224-234 | with distinct columns, the conversions fail exactly when one of them alone fails |
| Inserter.LinkedProjectLookup | src/edi835Parsing/dataInserter.ts:523-525 | a mapped and linked record holds the parent reference, the order, and the last element mapped to each other column |
| Inserter.SegmentRecordLookup | src/edi835Parsing/dataInserter.ts:253-265 | a written segment row holds that record's value in every column no conversion touches |
| Inserter.ConvertAllAt | src/edi835Parsing/dataInserter.ts:224-234 | with distinct columns, the column of conversion i holds that conversion applied to what the record held there |
| Inserter.ConvertedColumnLookup | src/edi835Parsing/dataInserter.ts:221-236 | for conversions apart from each other, segment_order and the link, a written row's converted column holds the last element mapped to it, reformatted when it is a non-empty text the format accepts |
| Inserter.SegmentConvertedLookup | src/edi835Parsing/dataInserter.ts:224-234 | for every segment type, each date and time column of a written row holds the converted value of the last element mapped to it |
| Inserter.C058RowsAt | src/edi835Parsing/dataInserter.ts:589-591 | row i is composite i, written with order i |
| Inserter.C058RecordLinks | src/edi835Parsing/dataInserter.ts:856-857 | a C058 row points at its RAS row and holds its position as its order |
| Inserter.RasRowsShape | src/edi835Parsing/dataInserter.ts:561-591 | RAS writes 1 to 15 C058 rows, row i from composite i with order i |
| Inserter.C040RecordLinks | src/edi835Parsing/dataInserter.ts:835-837 | a C040 row points at its segment row through parent_type and parent_id and holds the given order |
| Inserter.RdmRowsShape | src/edi835Parsing/dataInserter.ts:603-637 | RDM writes the C040 of element 4 with order 0, then that of element 5 with order 1, each only when the element is truthy |
| Inserter.C022RecordLinks | src/edi835Parsing/dataInserter.ts:815-816 | a C022 row points at its CLP row with order 0 |
| Inserter.ClpRowsShape | src/edi835Parsing/dataInserter.ts:169-191 | CLP writes one C022 row exactly when element 11 is truthy |
| Inserter.C001RowsShape | src/edi835Parsing/dataInserter.ts:281-296 | K3 and QTY write one C001 row exactly when element 3 is truthy, pointing at the segment row |
| Inserter.ConversionsSound | src/edi835Parsing/dataInserter.ts:224-234 | each segment type converts distinct columns, never segment_order or a link column |
| Inserter.ClpAsWrittenDropsLowElements | src/edi835Parsing/dataInserter.ts:150-159 | the written CLP map has no column for the element keys "1".."9" |
| Inserter.ClpColumnsCoverLowElements | src/edi835Parsing/dataInserter.ts:150-166 | the corrected CLP map has a column for each of "1".."9" |
| Inserter.C001AsWrittenDropsLowComponents | src/edi835Parsing/dataInserter.ts:777-786 | the written C001 map has no column for the component keys "1".."9" |
| Inserter.C001ColumnsCoverLowComponents | src/edi835Parsing/dataInserter.ts:777-793 | the corrected C001 map has a column for each of "1".."9" |
| Inserter.DataInserter.constructor | src/edi835Parsing/dataInserter.ts:8-10 | the inserter writes to the given database |
| Inserter.DataInserter.InsertRow | src/edi835Parsing/dataInserter.ts:878-886 | one INSERT of the record's columns and values is appended, and its handle returned |
| Inserter.DataInserter.InsertHeader | src/edi835Parsing/dataInserter.ts:12-17 | a header row with default values only |
| Inserter.DataInserter.InsertLoop | src/edi835Parsing/dataInserter.ts:19-57 | a loop row with its ordinal and parent handle |
| Inserter.DataInserter.InsertC001 | src/edi835Parsing/dataInserter.ts:772-799 | the C001 row: mapped with order 0, linked by parent_type and parent_id |
| Inserter.DataInserter.InsertC022 | src/edi835Parsing/dataInserter.ts:801-818 | the C022 row linked by x12_clp_id |
| Inserter.DataInserter.InsertC040 | src/edi835Parsing/dataInserter.ts:820-840 | the C040 row with its order, linked by parent_type and parent_id |
| Inserter.DataInserter.InsertC058 | src/edi835Parsing/dataInserter.ts:842-860 | the C058 row with its order, linked by x12_ras_id |
| Inserter.DataInserter.ConvertColumns | src/edi835Parsing/dataInserter.ts:224-234 | the conversion loop gives the result of the conversions in turn, stopping at the first failure |
| Inserter.DataInserter.InsertC058s | src/edi835Parsing/dataInserter.ts:588-591 | the C058 rows are written in order, each with its position |
| Inserter.DataInserter.InsertC001s | src/edi835Parsing/dataInserter.ts:293-296 | the C001 row, if any, is written after the segment row |
| Inserter.DataInserter.InsertRasComposites | src/edi835Parsing/dataInserter.ts:561-591 | the RAS segment's C058 rows are written |
| Inserter.DataInserter.InsertOptionalC040 | src/edi835Parsing/dataInserter.ts:632-637 | the C040 row is written only when the composite exists |
| Inserter.DataInserter.InsertRdmComposites | src/edi835Parsing/dataInserter.ts:603-639 | the RDM segment's C040 rows are written |
| Inserter.DataInserter.InsertRefComposites | src/edi835Parsing/dataInserter.ts:653-674 | the REF segment's C040 row is written |
| Inserter.DataInserter.InsertClpComposites | src/edi835Parsing/dataInserter.ts:167-191 | the CLP segment's C022 row is written |
| Inserter.DataInserter.InsertComposites | src/edi835Parsing/dataInserter.ts:293-296 | a segment type's composite rows follow its own row |
| Inserter.DataInserter.InsertSegmentRow | src/edi835Parsing/dataInserter.ts:221-236 | the segment row is mapped, linked, converted and written; a refused date or time writes nothing |
| Inserter.DataInserter.InsertSegment | src/edi835Parsing/dataInserter.ts:60-769 | a segment insert writes its row and then its composites and returns the row's handle, or fails with nothing written |
| Peek.PeekTransform.constructor | src/edi835Parsing/peakTransform.ts:9-12 | a new stage has received, sent and peeked at nothing |
| Peek.PeekTransform.Transform | src/edi835Parsing/peakTransform.ts:14-37 | the chunk is held until peekBytes bytes are seen; then one peek of the first peekBytes bytes and everything held is pushed; afterwards chunks pass through |
| Peek.PeekTransform.Flush | src/edi835Parsing/peakTransform.ts:39-46 | at the end, bytes still held are peeked at and pushed |
| Peek.PeekTransform.Ended | src/edi835Parsing/peakTransform.ts:39-46 | at the end every byte received has gone out, with at most one peek, of the first peekBytes bytes or of all of them |
| Peek.Pipe | src/edi835Parsing/peakTransform.ts:3-46 | a stream through the stage comes out byte for byte; for a non-empty stream, one peek at its first min(peekBytes, length) bytes, no later than the first chunk pushed; an empty stream gives no peek unless peekBytes is 0 and a chunk came |
| Peek.Finish | src/edi835Parsing/peakTransform.ts:39-46 | the flush ends the stream with the whole input sent and at most one peek: for a non-empty stream, one peek at its first min(peekBytes, length) bytes; an empty stream gives no peek unless peekBytes is 0 and a chunk came |
| Peek.ConcatEmit | src/edi835Parsing/peakTransform.ts:25 | pushing a chunk appends its bytes to the output |

## Left out

- Reading the file, the X12 tokenizer (`x12-parser`), console output,
  `printStateInfo` and the try/catch of `parseX12` are not modelled. The
  model starts from the stream of tokenized segments.
- The insert functions `parser.ts` calls are imported from `library.ts`,
  which does not define them. They are modelled as a log of calls
  (`Parser.Call`), where a handle is the call's position.
- The SQL text and SQLite itself are not modelled. A row is its table, its
  columns, its placeholders and its bound values. A `number | bigint`
  handle is a natural number: its position in the log.
- Node streams are not modelled. In `PeekTransform`, `push` and `emit`
  become return values and the stream encoding argument is ignored.
- The tokenizer never stores an `undefined` value in a segment, but the
  source can: the first C058 component copies `data["3"]`, and the CLP
  composite copies `data["11-1"]`. The model leaves those keys out when the
  value is undefined. The source would instead map the column with an
  `undefined` value.
- Reparse.ReparseSegment: the order of keys in the returned object is not
  modelled (a segment is a map), and separators are single characters.
- Reparse.ReparseSegment: the copy `{ ...data }` is modelled by value
  semantics. The repository's "not mutated" test (parserHelper.spec.ts
  lines 5-19) therefore holds by construction.
- Reparse.ReparseIdempotent requires `name` to be present, because
  `keys.length` counts it when bounding the inner loop.
- RAS decoding in loop 2100 is commented out in the source
  (parser.ts lines 243-250), so the parser model writes nothing for RAS.
- The separators read from ISA are kept as they are. `undefined` is
  `None`.
- In these places the code departs from the usual 835 loop nesting; the
  model follows the code:
  - PLB in the summary still returns a new record, the summary.
  - N1 met outside the heading, loop 1000 and loop 2100 keeps the current
    level and increments the 2105 index.
  - SVC opens loop 2110 from any level.
- Parser.ParseX12 (and `Parser.Run`, `Parser.ParseFrom`) requires
  `Parsable`: no segment reaches an `idx! + 1` in `changeState` while that
  index is undefined. The source does not stop there. The `!` is erased,
  `undefined + 1` is `NaN`, and parsing carries on, writing loop rows with
  `NaN` ordinals from then on. The files left out are those with:
  - N1 in loop 2000, loop 2110 or the summary before any 2105 instance of
    the current claim (parser.ts line 270);
  - LX in the summary, or in loop 2110 reached by SVC, before any 2000 loop
    (parser.ts line 283);
  - CLP in the heading, in loop 1000, in the summary, or in loop 2110
    reached without a claim (parser.ts line 301).

  `Parser.ExpectedParsable` shows that no file is left out whose opening
  segments all appear where the source's comments expect them, and
  `Parser.ParseAnchored` shows the same for a file whose segments are all
  in their place.
- A segment that reads an undefined handle (`headerId!`, `n1Id!`,
  `loop1000Id!`, `loop2000Id!` or `loop2100Id!`, e.g. BPR before ST) is
  written with an undefined parent, as in the source. The per-decoder
  lemmas say exactly when that happens, and `Parser.RunAnchored` rules it
  out for a file whose segments are all in their place.
- `insertHeader` and the loop inserts are modelled, but `insert2105` and
  `insert2110` are never called by the parser, which has no decoder for
  those levels.

## Findings

| source | as written | input that shows it | evidently intended | confidence | as-written member | corrected member |
|---|---|---|---|---|---|---|
| src/edi835Parsing/dataInserter.ts:903 | `formatTime` throws when the string has 4 or more characters | "1230" is refused; "123" is accepted as "12:3:00" | refuse strings shorter than 4 digits, as the error message says | not executed | Formats.TimeGuardInverted | Formats.TimeRoundTrip |
| src/edi835Parsing/dataInserter.ts:150-159 | the CLP map is keyed "01".."09" | a CLP whose element 1 is under key "1" never stores claim_submitter_id | keys "1".."9", as in every other map | not executed | Inserter.ClpAsWrittenDropsLowElements | Inserter.ClpColumnsCoverLowElements |
| src/edi835Parsing/dataInserter.ts:777-786 | the C001 map is keyed "01".."09" | a C001 built by K3 with component "1" never stores units_1 | keys "1".."9", as the composite is built | not executed | Inserter.C001AsWrittenDropsLowComponents | Inserter.C001ColumnsCoverLowComponents |

In each row the corrected member is the one the rest of the model uses:
- the segment inserts convert times with `Formats.FormatTime`;
- the CLP inserts map columns with `Columns.ClpColumns`;
- the C001 inserts map columns with `Columns.C001Columns`.
