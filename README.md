# django-charitychecker: the Publication 78 update pipeline, in Dafny

This project models the part of django-charitychecker that keeps its
`IRSNonprofitData` table in step with IRS Publication 78, and proves what
that pipeline does. The pipeline has four parts:

- **Normaliser.** `ignore_blank_space` right-strips each line of the
  downloaded file and drops the blank ones. `_normalize_data` then drops the
  lines of foreign-registered organisations, which are the lines that
  `.*FORGN(?:,[A-Z]{2,5})*$` matches.
- **Decoder.** `convert_line` splits a line on `|` and zips the pieces onto
  `ein`, `name`, `city`, `state`, `country` and `deductability_code`.
- **Reconciliation.** `update_database_from_file` runs as one
  `transaction.atomic()` block:
  - it snapshots the table by primary key;
  - it walks the feed, popping each identifier;
  - it overwrites and saves a stored row only when the change fold finds a
    differing attribute;
  - it queues new rows for identifiers not in the snapshot;
  - it bulk-creates the queue;
  - it deletes every identifier the feed never named.
- **Queries.** `verify_nonprofit` and `get_deductability_code` are point
  lookups by EIN with optional attribute matchers.

Modules, one file each:

- `Records` (records.dfy): the record, `getattr`/`setattr`, `model(**data)`
  and the change fold.
- `Normalize` (normalize.dfy): the normaliser.
- `Decode` (decode.dfy): `str.split`, `str.join` and `convert_line`.
- `Queries` (queries.dfy): the two queries.
- `Reconcile` (reconcile.dfy): the reconciliation.

The normaliser, the decoder and the queries are pure, so they are
functions. The update routine is imperative. The table is the class
`NonprofitTable`, and the routine is its method `UpdateFromFile`. That
method keeps `db_data_map`, the saved rows and `to_create` in variables,
proves its loop against the fold `Walk` of one loop turn `Turn`, and proves
its result against the specification function `Reconciled`.

Two behaviours of the code differ from what a reader might expect, and the
model follows the code:

- One might expect "last seen wins" for an identifier that occurs twice in
  one feed. The code fails instead. The second occurrence finds the
  identifier already popped and queues a second row with that primary key.
  `bulk_create` then violates the key: the stored row, or the first queued
  copy, already holds it. So the whole transaction rolls back.
  `UpdateFromFile` proves this: the run succeeds exactly when no identifier
  repeats, and a failed run leaves the table as it was.
- A line with fewer or more than six fields does not raise: `zip`
  truncates it. The dict of a short line lacks the trailing attributes, so
  a new row gets `''` for them and a stored row keeps its own. Fields after
  the sixth are dropped. `ConvertLineItems`, `SetFieldsGet` and
  `FromDataGet` state this.

## Model

| member | source | states |
|---|---|---|
| Records.Get | test_project_python27/test_project_python27/charitychecker/utilities.py:136 | `getattr(row, f)`: the value of attribute `f` of the row |
| Records.Set | charitychecker/models.py:9-20 | `setattr` changes the named attribute to the value and leaves the other five as they were |
| Records.RecordExtensionality | charitychecker/models.py:9-20 | two rows with equal attributes are the same row |
| Records.Lookup | test_project_python27/test_project_python27/charitychecker/utilities.py:159-161 | `data[f]` is present exactly when some item of the dict has name `f`, and then it is one of those items' values |
| Records.LookupItem | test_project_python27/test_project_python27/charitychecker/utilities.py:159-161 | in a dict whose names are distinct, every item is found under its own name |
| Records.SetFields | test_project_python27/test_project_python27/charitychecker/utilities.py:139-140 | the `setattr` loop over the dict's items, applied in order to the row; `SetFieldsGet` states the resulting attributes |
| Records.SetFieldsGet | test_project_python27/test_project_python27/charitychecker/utilities.py:139-140 | after the `setattr` loop, each attribute named in the dict holds the dict's value; every other attribute keeps its old value |
| Records.FromData | test_project_python27/test_project_python27/charitychecker/utilities.py:143 | `model(**data)`: the dict written over `Blank`, the row with every CharField at its default `''`; `FromDataGet` states the resulting attributes |
| Records.FromDataGet | test_project_python27/test_project_python27/charitychecker/utilities.py:143 | `model(**data)` has the dict's values for the attributes the dict names, and the CharField default `''` for the rest |
| Records.DiffFold | test_project_python27/test_project_python27/charitychecker/utilities.py:134-138 | the `reduce` over the items is true exactly when the initial accumulator is true or some item differs from the row's attribute |
| Records.NoDifferenceNoChange | test_project_python27/test_project_python27/charitychecker/utilities.py:134-141 | when the fold finds no difference, writing the dict over the row would leave it unchanged, so skipping the save loses nothing |
| Records.SetFieldsAgrees | test_project_python27/test_project_python27/charitychecker/utilities.py:134-140 | once a dict with distinct names has been written into a row, the fold finds no difference between them |
| Records.SetFieldsIdempotent | test_project_python27/test_project_python27/charitychecker/utilities.py:139-140 | writing the same dict a second time changes nothing |
| Normalize.IsSpace | charitychecker/utilities.py:46 | the characters `rstrip()` removes from a Python 2 byte string: space, tab, line feed, carriage return, vertical tab and form feed |
| Normalize.RStrip | charitychecker/utilities.py:46 | `rstrip()` returns a prefix of the line, cuts off only whitespace, and leaves no trailing whitespace |
| Normalize.RStripUnique | charitychecker/utilities.py:46 | these three properties determine the stripped line |
| Normalize.RStripClean | charitychecker/utilities.py:46 | a line without trailing whitespace is left as it is |
| Normalize.RStripKeepsLeadingSpace | charitychecker/tests.py:122-123 | `"   b   "` strips to `"   b"` and `"e \t "` to `"e"`: leading whitespace is kept |
| Normalize.IgnoreBlankSpace | charitychecker/utilities.py:40-48 | every line it yields is non-empty and ends in no whitespace, and it yields at most as many lines as it reads |
| Normalize.IgnoreBlankSpaceMembers | charitychecker/utilities.py:45-48 | a line is yielded exactly when it is the non-empty stripped form of some input line |
| Normalize.IgnoreBlankSpaceAppend | charitychecker/utilities.py:45-48 | the generator works line by line: the output for two files read in turn is the two outputs in turn |
| Normalize.IgnoreBlankSpaceLine | charitychecker/utilities.py:45-48 | one line is yielded stripped, unless it strips to nothing |
| Normalize.IgnoreBlankSpaceClean | charitychecker/tests.py:108-116 | non-empty lines without trailing whitespace pass through unchanged |
| Normalize.IgnoreBlankSpaceIdempotent | charitychecker/utilities.py:45-48 | applying the filter to its own output changes nothing |
| Normalize.IgnoreBlankSpaceExample | charitychecker/tests.py:129-137 | the lines of `"\n\nsome text\n\nmore text\n\n"` give exactly `["some text", "more text"]` |
| Normalize.IsCodeTail | charitychecker/utilities.py:60 | `(?:,[A-Z]{2,5})*` matches the whole string: it is empty, or a comma, two to five capitals and again such a tail |
| Normalize.CodeThenTail | charitychecker/utilities.py:60 | one group of the tail with exactly `n` capitals after its comma, followed by a code tail |
| Normalize.TailToEnd | charitychecker/utilities.py:60 | the code tail followed by `$`: it runs to the end of the string, or to just before a final line feed |
| Normalize.ForeignAt | charitychecker/utilities.py:58-61 | the match with `FORGN` at index `i`: `.*` covers the characters before it, none of them a line feed, and the tail runs to `$` |
| Normalize.IsForeign | charitychecker/utilities.py:58-61 | `re.match` succeeds: backtracking finds some index at which `ForeignAt` holds |
| Normalize.ForeignStripped | charitychecker/utilities.py:57-61 | on a right-stripped line, the pattern matches exactly when `FORGN` is followed only by `,[A-Z]{2,5}` groups to the end of the line, with no line feed before it |
| Normalize.NotForeignWithoutTag | charitychecker/utilities.py:58-61 | a line that nowhere holds `FORGN` is never matched by the pattern, so it is kept |
| Normalize.ForeignTagged | charitychecker/utilities.py:58-61 | a line ending in `FORGN` plus any list of codes matches, whatever precedes it (short of a line feed) |
| Normalize.ForeignExample | charitychecker/utilities.py:58-61 | `FORGN,PC,SO` matches |
| Normalize.NotForeignExamples | charitychecker/utilities.py:58-61 | `FORGN,P` and `FORGN,ABCDEF` do not match: codes have two to five capitals |
| Normalize.DropForeign | charitychecker/utilities.py:57-62 | the filter keeps only input lines the pattern does not match |
| Normalize.NormalizeData | charitychecker/utilities.py:51-62 | every line `_normalize_data` yields is non-empty, has no trailing whitespace, and is not matched by the pattern |
| Normalize.NormalizeDataMembers | charitychecker/utilities.py:57-62 | a line is yielded exactly when it is the stripped form of some input line, non-empty and not matched by the pattern |
| Normalize.NormalizeDataLine | charitychecker/utilities.py:57-62 | one line is dropped exactly when it strips to nothing or its stripped form matches; otherwise its stripped form is kept |
| Normalize.NormalizeDataAppend | charitychecker/utilities.py:57-62 | `_normalize_data` works line by line |
| Normalize.DropForeignSubsequence | charitychecker/utilities.py:57-62 | the foreign filter keeps a subsequence of its input, in order |
| Normalize.NormalizeDataSubsequence | charitychecker/utilities.py:57-58 | the output of `_normalize_data` is an order-preserving subsequence of the output of `ignore_blank_space` |
| Decode.Split | test_project_python27/test_project_python27/charitychecker/utilities.py:161 | `split` on the separator always yields at least one piece, even for the empty line |
| Decode.JoinPrepend | test_project_python27/test_project_python27/charitychecker/utilities.py:161 | prefixing the first piece prefixes the joined string |
| Decode.SplitPieces | test_project_python27/test_project_python27/charitychecker/utilities.py:161 | no piece holds the separator, and the pieces joined with it give back the line |
| Decode.SplitPrefix | test_project_python27/test_project_python27/charitychecker/utilities.py:161 | a separator-free head followed by the separator splits off as the first piece |
| Decode.SplitNoSeparator | test_project_python27/test_project_python27/charitychecker/utilities.py:161 | a pipe-free string is one piece |
| Decode.SplitJoin | test_project_python27/test_project_python27/charitychecker/utilities.py:161 | splitting undoes joining for pipe-free pieces |
| Decode.Zip | test_project_python27/test_project_python27/charitychecker/utilities.py:159-161 | `zip` stops at the end of the shorter list |
| Decode.ZipItems | test_project_python27/test_project_python27/charitychecker/utilities.py:159-161 | each zipped pair holds the name and the value at its own position |
| Decode.LineKey | test_project_python27/test_project_python27/charitychecker/utilities.py:132 | `data[pk_field]`: the characters of the line up to its first separator |
| Decode.LineKeyShape | test_project_python27/test_project_python27/charitychecker/utilities.py:132 | the identifier is a prefix of the line that holds no separator and is followed by a separator unless it is the whole line |
| Decode.LineKeyFirstPiece | test_project_python27/test_project_python27/charitychecker/utilities.py:132 | the identifier of a line (what precedes its first separator) is the first piece of the split |
| Decode.ConvertLine | test_project_python27/test_project_python27/charitychecker/utilities.py:159-161 | the dict zips the pieces onto `Columns` (`ein`, `name`, `city`, `state`, `country`, `deductability_code`) and always holds `ein`, set to the line's identifier |
| Decode.ConvertLineItems | test_project_python27/test_project_python27/charitychecker/utilities.py:159-161 | the dict holds the first `min(pieces, 6)` pieces, in order, under the six column names, which are distinct |
| Decode.ConvertLineRoundTrip | test_project_python27/test_project_python27/charitychecker/utilities.py:159-161 | a line of six pipe-free fields decodes to exactly those six values in order under `ein` … `deductability_code`, and every attribute is found with its value |
| Decode.OverwriteWithFormatted | test_project_python27/test_project_python27/charitychecker/utilities.py:139-143 | writing a formatted record's dict over any row, or building a new row from it, gives the record |
| Queries.Matches | charitychecker/models.py:57-60 | one pair of a query: an argument that is `None` is ignored, any other must equal the stored attribute |
| Queries.MatchFold | charitychecker/models.py:53-60 | the loop over the pairs is true exactly when the accumulator starts true and every supplied argument equals the stored attribute |
| Queries.VerifyNonprofit | charitychecker/models.py:39-61 | false for an unknown EIN whatever else is passed; otherwise true exactly when each argument is `None` or equals the stored attribute |
| Queries.GetDeductabilityCode | charitychecker/models.py:63-88 | `''` for an unknown EIN; otherwise the stored code when `verify_nonprofit` with the same arguments and no code holds, else `''` |
| Queries.JustEin | charitychecker/models.py:48-61 | with only the EIN supplied, a stored organisation is verified and its code returned |
| Queries.QueryExamples | charitychecker/tests.py:169-297 | the Red Cross cases: all arguments, some left out, a wrong city, and an unknown EIN, for both queries |
| Reconcile.FeedKeysMembers | test_project_python27/test_project_python27/charitychecker/utilities.py:130-132 | an identifier is in the feed's key set exactly when some line carries it |
| Reconcile.HasDuplicateKeysIff | test_project_python27/test_project_python27/charitychecker/utilities.py:130-132 | the feed repeats an identifier exactly when two distinct lines carry the same one |
| Reconcile.DataFor | test_project_python27/test_project_python27/charitychecker/utilities.py:131-132 | the dict chosen for an identifier has that identifier as its `ein` |
| Reconcile.FeedSnoc | test_project_python27/test_project_python27/charitychecker/utilities.py:130-132 | appending a line adds its identifier, repeats one exactly when it was already present, and supplies that identifier's dict |
| Reconcile.DataForSnoc | test_project_python27/test_project_python27/charitychecker/utilities.py:130-132 | an appended line leaves the dicts of the other identifiers alone |
| Reconcile.DataForLine | test_project_python27/test_project_python27/charitychecker/utilities.py:130-132 | in a feed without repeats, the dict for a line's identifier is that line's dict |
| Reconcile.Merge | test_project_python27/test_project_python27/charitychecker/utilities.py:139-143 | the row a dict leaves under its identifier: the stored row with the dict written over it, or a new row made from the dict |
| Reconcile.MergeKeyed | test_project_python27/test_project_python27/charitychecker/utilities.py:139-143 | a row merged from an identifier's dict is filed under that identifier |
| Reconcile.Reconciled | test_project_python27/test_project_python27/charitychecker/utilities.py:127-145 | after a successful run, the table holds exactly the feed's identifiers, each row under its own primary key |
| Reconcile.ReconciledLine | test_project_python27/test_project_python27/charitychecker/utilities.py:132-143 | each feed line ends up in the table: written over the stored row when its identifier was stored, otherwise a new row made from the line |
| Reconcile.ReconciledFormattedLine | test_project_python27/test_project_python27/charitychecker/utilities.py:139-144 | a line of six pipe-free fields is stored as exactly the record it encodes, whether or not it was stored before |
| Reconcile.ReconciledUnchanged | test_project_python27/test_project_python27/charitychecker/utilities.py:133-141 | a stored row that the fold finds equal to its line is left exactly as it was |
| Reconcile.ReconciledAgrees | test_project_python27/test_project_python27/charitychecker/utilities.py:132-143 | after a run, every line finds its identifier stored and the fold finds no difference, so a second run neither saves nor creates |
| Reconcile.MergeTwice | test_project_python27/test_project_python27/charitychecker/utilities.py:139-143 | merging a dict into the row it already produced changes nothing |
| Reconcile.ReconcileTwiceAt | test_project_python27/test_project_python27/charitychecker/utilities.py:127-145 | after a second run with the same feed, each identifier's row is as the first run left it |
| Reconcile.ReconcileIdempotent | test_project_python27/test_project_python27/charitychecker/utilities.py:127-145 | a second run with the same feed leaves the table exactly as the first run left it |
| Reconcile.StoredKeysFromKeptLines | test_project_python27/test_project_python27/charitychecker/utilities.py:156-163 | every identifier left after a run over the normalised file comes from a file line that is neither blank nor foreign |
| Reconcile.RowsByKey | test_project_python27/test_project_python27/charitychecker/utilities.py:144 | the inserted rows, filed by primary key, hold exactly the queued keys, each row under its own key |
| Reconcile.NewRows | test_project_python27/test_project_python27/charitychecker/utilities.py:142-143 | the rows a successful run creates are those of the feed identifiers missing from the snapshot |
| Reconcile.InsertConflict | test_project_python27/test_project_python27/charitychecker/utilities.py:144 | `bulk_create` violates the primary key: a queued row's key is already stored, or two queued rows share a key |
| Reconcile.AppendConflict | test_project_python27/test_project_python27/charitychecker/utilities.py:143-144 | queuing a row whose key is taken or already queued makes the insert conflict, and a conflict stays |
| Reconcile.AppendNoConflict | test_project_python27/test_project_python27/charitychecker/utilities.py:143-144 | queuing a row with a fresh key keeps the insert free of conflicts |
| Reconcile.RowsByKeySnoc | test_project_python27/test_project_python27/charitychecker/utilities.py:143 | queuing one more row files it under its key |
| Reconcile.NewRowKey | test_project_python27/test_project_python27/charitychecker/utilities.py:139-143 | the row a line creates, or writes over, carries the line's identifier as its primary key |
| Reconcile.Turn | test_project_python27/test_project_python27/charitychecker/utilities.py:130-143 | one pass of the loop: pop the identifier and write the dict over its row, or queue a new row made from the dict when the identifier is not in `db_data_map` |
| Reconcile.Walk | test_project_python27/test_project_python27/charitychecker/utilities.py:127-143 | the whole loop from the snapshot: the turns over the lines in order, starting with `db_data_map` and the table equal to the snapshot and an empty queue |
| Reconcile.TurnPopped | test_project_python27/test_project_python27/charitychecker/utilities.py:132 | after a turn, `db_data_map` holds exactly the snapshot entries that no line read so far names |
| Reconcile.TurnUntouched | test_project_python27/test_project_python27/charitychecker/utilities.py:132-141 | a turn writes only the row of the line's identifier; rows that no line read so far names keep their snapshot value |
| Reconcile.TurnFromFeed | test_project_python27/test_project_python27/charitychecker/utilities.py:142-143 | every queued row carries an identifier of the lines read so far |
| Reconcile.TurnConflict | test_project_python27/test_project_python27/charitychecker/utilities.py:132-144 | once the lines repeat an identifier, the queue conflicts with the snapshot or with itself |
| Reconcile.TurnMergedAt | test_project_python27/test_project_python27/charitychecker/utilities.py:132-141 | without repeats, after a turn a stored identifier that was read holds its dict written over its snapshot row |
| Reconcile.TurnMerged | test_project_python27/test_project_python27/charitychecker/utilities.py:132-141 | the same for every stored identifier read so far |
| Reconcile.NewRowsSnoc | test_project_python27/test_project_python27/charitychecker/utilities.py:142-143 | a line with an unseen, unstored identifier adds exactly one new row, made from its dict |
| Reconcile.NewRowsSnocKeys | test_project_python27/test_project_python27/charitychecker/utilities.py:142-143 | the set identity that `NewRowsSnoc` uses: a key that is not stored, added to the feed keys, is added to the new keys |
| Reconcile.NewRowsSnocAt | test_project_python27/test_project_python27/charitychecker/utilities.py:142-143 | `NewRowsSnoc` at one identifier |
| Reconcile.NewRowsStored | test_project_python27/test_project_python27/charitychecker/utilities.py:132-141 | a line with a stored identifier adds no new row |
| Reconcile.TurnQueuedNew | test_project_python27/test_project_python27/charitychecker/utilities.py:142-144 | without repeats, the queue stays free of conflicts and holds exactly the new rows so far |
| Reconcile.StageTurn | test_project_python27/test_project_python27/charitychecker/utilities.py:130-143 | one turn of the loop keeps the staged state (popped entries, saved rows, queue) in step with the lines read |
| Reconcile.WalkStaged | test_project_python27/test_project_python27/charitychecker/utilities.py:127-143 | the loop over any prefix of the feed stages what the reconciled table needs, or a conflicting queue if the prefix repeats an identifier |
| Reconcile.StagedRow | test_project_python27/test_project_python27/charitychecker/utilities.py:132-133 | an identifier not yet popped still has its snapshot row in the table |
| Reconcile.StagedConflict | test_project_python27/test_project_python27/charitychecker/utilities.py:144 | after the loop, `bulk_create` conflicts exactly when the feed repeats an identifier |
| Reconcile.StagedDone | test_project_python27/test_project_python27/charitychecker/utilities.py:144-145 | after the loop over a feed without repeats, inserting the queue and deleting the unpopped keys yields the reconciled table |
| Reconcile.Overwrite | test_project_python27/test_project_python27/charitychecker/utilities.py:139-140 | the `setattr` loop over the items yields the dict written over the row |
| Reconcile.NonprofitTable.Save | test_project_python27/test_project_python27/charitychecker/utilities.py:141 | `row.save()` stores the row under its primary key and changes nothing else |
| Reconcile.NonprofitTable.BulkCreate | test_project_python27/test_project_python27/charitychecker/utilities.py:144 | `bulk_create` inserts every queued row unless a key is taken or repeated, and inserts nothing if so |
| Reconcile.NonprofitTable.Delete | test_project_python27/test_project_python27/charitychecker/utilities.py:145 | `filter(pk__in=...).delete()` removes exactly those keys |
| Reconcile.NonprofitTable.UpdateFromFile | test_project_python27/test_project_python27/charitychecker/utilities.py:108-145 | the run succeeds exactly when no identifier repeats in the feed; it then leaves the reconciled table, otherwise the transaction rolls back and the table is as before |
| Reconcile.UpdateCharitycheckerData | test_project_python27/test_project_python27/charitychecker/utilities.py:148-163 | the update over the normalised file: it succeeds exactly when the normalised lines repeat no identifier, then leaves their reconciled table, otherwise the old table |

## Left out

- Fetching and unzipping the file (`open_zip_from_url`, `OpenZipFromURL`,
  `irs_nonprofit_data_context_manager`, `IRSNonprofitDataContextManager`):
  network and archive I/O. The file's lines are a parameter (`raw`).
- The `update_database_from_file` and `update_charitychecker_data` of
  charitychecker/utilities.py: one is a stub and the other does not parse.
  The test_project versions are modelled instead.
- `ignore_blank_space` and `_normalize_data` in the test_project copy of
  utilities.py (lines 35-57) are textually the same as in
  charitychecker/utilities.py and are modelled once.
- The Django ORM and SQL: `objects.all()`, `save`, `bulk_create`,
  `filter(...).delete()` and `transaction.atomic()` are map operations on
  `NonprofitTable.rows`. The transaction is a savepoint that a failed
  `bulk_create` restores. No other database failure is modelled.
- The `IntegrityError` that a failed `bulk_create` raises, and that
  propagates out of `update_database_from_file` and
  `update_charitychecker_data`, is the result `ok == false` of
  `UpdateFromFile` and `UpdateCharitycheckerData`.
- Generators: the lazy `for`/`yield` filters are functions on the whole
  sequence of lines. Each produced line is the same, in the same order.
- Dict iteration order: `data.items()` is taken in `zip` order. Every column
  name occurs once, so the order does not change the result.
- `row` truthiness at line 133: a Django model instance is always true, so
  only the popped-or-absent distinction is modelled.
- Field `max_length` limits (charitychecker/models.py:9-20): a database
  schema constraint, not logic of the code.
- `__unicode__`, `__repr__` and `__str__`: formatting only.
- test_project_python27/test_project_python27/charitychecker/models.py is
  not part of this model. It is a copy of the queries whose methods cannot
  run as written.
- The management command (timing, console output), admin.py and setup.py.
- `pk_field` and `model` of `update_database_from_file` are fixed to the
  values `update_charitychecker_data` passes: `'ein'` and `IRSNonprofitData`.
- Characters are Dafny `char`s. Python 2 byte-string whitespace is the six
  ASCII characters that `str.rstrip()` removes. Encoding is not modelled.
