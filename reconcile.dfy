/** The reconciliation engine, `update_database_from_file` as
    `update_charitychecker_data` calls it: inside one transaction it
    snapshots the table by primary key, walks the feed, overwrites and saves
    a stored row only when some attribute differs, queues rows for the
    identifiers it has not popped, bulk-creates the queue and deletes every
    identifier left in the snapshot. */
module Reconcile {
  import opened Records
  import opened Decode
  import opened Normalize

  // ---------------------------------------------------------------------
  // The feed's identifiers
  // ---------------------------------------------------------------------

  /** The identifiers of the feed lines. */
  function FeedKeys(lines: seq<string>): set<string> {
    if lines == [] then {} else FeedKeys(lines[..|lines| - 1]) + {LineKey(lines[|lines| - 1])}
  }

  /** An identifier belongs to the feed exactly when some line carries it. */
  lemma {:induction false} FeedKeysMembers(lines: seq<string>, k: string)
    ensures k in FeedKeys(lines) <==> exists i :: 0 <= i < |lines| && LineKey(lines[i]) == k
  {
    if lines != [] {
      var init := lines[..|lines| - 1];
      FeedKeysMembers(init, k);
      assert forall i :: 0 <= i < |init| ==> init[i] == lines[i];
    }
  }

  /** Some identifier appears on two lines of the feed. */
  function HasDuplicateKeys(lines: seq<string>): bool {
    if lines == [] then false
    else
      var init := lines[..|lines| - 1];
      HasDuplicateKeys(init) || LineKey(lines[|lines| - 1]) in FeedKeys(init)
  }

  lemma {:induction false} HasDuplicateKeysIff(lines: seq<string>)
    ensures HasDuplicateKeys(lines) <==>
            exists i, j :: 0 <= i < j < |lines| && LineKey(lines[i]) == LineKey(lines[j])
  {
    if lines != [] {
      var n := |lines| - 1;
      var init := lines[..n];
      HasDuplicateKeysIff(init);
      assert forall i :: 0 <= i < n ==> init[i] == lines[i];
      if exists i, j :: 0 <= i < j < |lines| && LineKey(lines[i]) == LineKey(lines[j]) {
        var i, j :| 0 <= i < j < |lines| && LineKey(lines[i]) == LineKey(lines[j]);
        if j < n {
          assert LineKey(init[i]) == LineKey(init[j]);
        } else {
          FeedKeysMembers(init, LineKey(lines[n]));
        }
      } else {
        FeedKeysMembers(init, LineKey(lines[n]));
      }
    }
  }

  /** The dict of the last feed line that carries identifier `k`. */
  function DataFor(lines: seq<string>, k: string): (data: Data)
    requires k in FeedKeys(lines)
    ensures Lookup(data, Ein) == Some(k)
  {
    var last := lines[|lines| - 1];
    if LineKey(last) == k then ConvertLine(last) else DataFor(lines[..|lines| - 1], k)
  }

  /** Appending a line adds its identifier, repeats one exactly when that
      identifier was already present, and makes the new line the source of
      its identifier's dict. */
  lemma FeedSnoc(done: seq<string>, line: string)
    ensures FeedKeys(done + [line]) == FeedKeys(done) + {LineKey(line)}
    ensures HasDuplicateKeys(done + [line]) == (HasDuplicateKeys(done) || LineKey(line) in FeedKeys(done))
    ensures DataFor(done + [line], LineKey(line)) == ConvertLine(line)
  {
    assert (done + [line])[..|done|] == done;
  }

  /** The dict of any other identifier is unaffected by an appended line. */
  lemma DataForSnoc(done: seq<string>, line: string, k: string)
    requires k in FeedKeys(done) && k != LineKey(line)
    ensures k in FeedKeys(done + [line])
    ensures DataFor(done + [line], k) == DataFor(done, k)
  {
    FeedSnoc(done, line);
    assert (done + [line])[..|done|] == done;
  }

  /** In a feed without repeated identifiers, the dict for a line's
      identifier is that line's own dict. */
  lemma {:induction false} DataForLine(lines: seq<string>, i: nat)
    requires !HasDuplicateKeys(lines) && i < |lines|
    ensures LineKey(lines[i]) in FeedKeys(lines)
    ensures DataFor(lines, LineKey(lines[i])) == ConvertLine(lines[i])
  {
    var n := |lines| - 1;
    var init := lines[..n];
    assert lines == init + [lines[n]];
    FeedSnoc(init, lines[n]);
    if i < n {
      assert init[i] == lines[i];
      DataForLine(init, i);
      DataForSnoc(init, lines[n], LineKey(lines[i]));
    }
  }

  // ---------------------------------------------------------------------
  // What a successful run leaves in the table
  // ---------------------------------------------------------------------

  /** The row a feed dict leaves under identifier `k`: the stored row with the
      dict's attributes written over it, or a new row made from the dict. */
  function Merge(store: Store, data: Data, k: string): Record {
    if k in store then SetFields(store[k], data) else FromData(data)
  }

  /** A merged row is filed under the identifier of its dict. */
  lemma MergeKeyed(store: Store, lines: seq<string>)
    ensures forall k | k in FeedKeys(lines) :: Merge(store, DataFor(lines, k), k).ein == k
  {
    forall k | k in FeedKeys(lines) ensures Merge(store, DataFor(lines, k), k).ein == k {
      var data := DataFor(lines, k);
      SetFieldsGet(if k in store then store[k] else Blank, data);
      assert Get(Merge(store, data, k), Ein) == k;
    }
  }

  /** The table after a successful run over `lines` from `store`: exactly the
      feed's identifiers, each holding its line merged into its stored row. */
  function Reconciled(store: Store, lines: seq<string>): (result: Store)
    ensures result.Keys == FeedKeys(lines)
    ensures Keyed(result)
  {
    MergeKeyed(store, lines);
    map k | k in FeedKeys(lines) :: Merge(store, DataFor(lines, k), k)
  }

  /** Each line of a feed without repeated identifiers is in the table
      afterwards: its attributes written over the stored row when its
      identifier was stored, a new row from its attributes otherwise. */
  lemma ReconciledLine(store: Store, lines: seq<string>, i: nat)
    requires !HasDuplicateKeys(lines) && i < |lines|
    ensures var k := LineKey(lines[i]);
            k in Reconciled(store, lines) &&
            Reconciled(store, lines)[k] == Merge(store, ConvertLine(lines[i]), k)
  {
    DataForLine(lines, i);
  }

  /** A line of six pipe-free fields is stored as exactly the record it
      encodes, whether its identifier was stored before or not. */
  lemma ReconciledFormattedLine(store: Store, lines: seq<string>, i: nat, r: Record)
    requires !HasDuplicateKeys(lines) && i < |lines|
    requires PipeFree(r) && lines[i] == Format(r)
    ensures r.ein in Reconciled(store, lines) && Reconciled(store, lines)[r.ein] == r
  {
    ConvertLineRoundTrip(r);
    ReconciledLine(store, lines, i);
    OverwriteWithFormatted(if r.ein in store then store[r.ein] else Blank, r);
  }

  /** A stored row that the change fold finds equal to its line needs no
      write: the run leaves it exactly as it was. */
  lemma ReconciledUnchanged(store: Store, lines: seq<string>, i: nat)
    requires !HasDuplicateKeys(lines) && i < |lines|
    requires LineKey(lines[i]) in store
    requires !DiffFold(store[LineKey(lines[i])], ConvertLine(lines[i]), false)
    ensures LineKey(lines[i]) in Reconciled(store, lines)
    ensures Reconciled(store, lines)[LineKey(lines[i])] == store[LineKey(lines[i])]
  {
    ReconciledLine(store, lines, i);
    NoDifferenceNoChange(store[LineKey(lines[i])], ConvertLine(lines[i]));
  }

  /** After a run, every line of the feed finds its identifier stored and the
      change fold finds no difference: a second run saves and creates nothing. */
  lemma ReconciledAgrees(store: Store, lines: seq<string>, i: nat)
    requires !HasDuplicateKeys(lines) && i < |lines|
    ensures var after := Reconciled(store, lines);
            LineKey(lines[i]) in after && !DiffFold(after[LineKey(lines[i])], ConvertLine(lines[i]), false)
  {
    var k := LineKey(lines[i]);
    ReconciledLine(store, lines, i);
    ConvertLineItems(lines[i]);
    SetFieldsAgrees(if k in store then store[k] else Blank, ConvertLine(lines[i]));
  }

  /** Merging a dict into the row it was already merged into changes nothing. */
  lemma MergeTwice(store: Store, data: Data, k: string)
    ensures Merge(store[k := Merge(store, data, k)], data, k) == Merge(store, data, k)
  {
    SetFieldsIdempotent(if k in store then store[k] else Blank, data);
  }

  /** A second run with the same feed leaves each identifier's row as the
      first run left it. */
  lemma ReconcileTwiceAt(store: Store, lines: seq<string>, k: string)
    requires k in FeedKeys(lines)
    ensures Reconciled(Reconciled(store, lines), lines)[k] == Reconciled(store, lines)[k]
  {
    var data := DataFor(lines, k);
    MergeTwice(store, data, k);
    assert Reconciled(store, lines)[k] == Merge(store, data, k);
  }

  /** A second run with the same feed leaves the table as the first left it:
      the same identifiers (nothing is left over to delete) and the same rows. */
  lemma ReconcileIdempotent(store: Store, lines: seq<string>)
    ensures Reconciled(Reconciled(store, lines), lines) == Reconciled(store, lines)
  {
    var after := Reconciled(store, lines);
    var again := Reconciled(after, lines);
    forall k | k in after ensures again[k] == after[k] {
      ReconcileTwiceAt(store, lines, k);
    }
    StoreExtensionality(again, after);
  }

  /** Every identifier left after a run over the normalised file comes from a
      line of the file that is not blank and not foreign; so a foreign line
      never becomes a row on its own. */
  lemma StoredKeysFromKeptLines(store: Store, raw: seq<string>, k: string)
    requires k in Reconciled(store, NormalizeData(raw))
    ensures exists i :: 0 <= i < |raw| && LineKey(RStrip(raw[i])) == k
                        && RStrip(raw[i]) != [] && !IsForeign(RStrip(raw[i]))
  {
    var lines := NormalizeData(raw);
    FeedKeysMembers(lines, k);
    var j :| 0 <= j < |lines| && LineKey(lines[j]) == k;
    NormalizeDataMembers(raw, lines[j]);
  }

  // ---------------------------------------------------------------------
  // The table and the run
  // ---------------------------------------------------------------------

  /** `bulk_create` fails when a new row's primary key is already taken or is
      repeated among the new rows. */
  predicate InsertConflict(taken: set<string>, recs: seq<Record>) {
    (exists j :: 0 <= j < |recs| && recs[j].ein in taken) ||
    (exists i, j :: 0 <= i < j < |recs| && recs[i].ein == recs[j].ein)
  }

  /** The new rows by primary key. */
  function RowsByKey(recs: seq<Record>): (m: Store)
    ensures forall k :: k in m <==> exists j :: 0 <= j < |recs| && recs[j].ein == k
    ensures Keyed(m)
  {
    if recs == [] then map[]
    else
      var init := recs[..|recs| - 1];
      assert forall j :: 0 <= j < |init| ==> init[j] == recs[j];
      RowsByKey(init)[recs[|recs| - 1].ein := recs[|recs| - 1]]
  }

  /** The rows a successful run creates: one per feed identifier that the
      snapshot does not hold, made from that identifier's dict. */
  function NewRows(store: Store, lines: seq<string>): (m: Store)
    ensures m.Keys == FeedKeys(lines) - store.Keys
  {
    map k | k in FeedKeys(lines) - store.Keys :: FromData(DataFor(lines, k))
  }

  /** Adding a row to the insert keeps a conflict. */
  lemma AppendConflict(taken: set<string>, recs: seq<Record>, r: Record)
    requires InsertConflict(taken, recs) || r.ein in taken || exists j :: 0 <= j < |recs| && recs[j].ein == r.ein
    ensures InsertConflict(taken, recs + [r])
  {
    var all := recs + [r];
    assert forall j :: 0 <= j < |recs| ==> all[j] == recs[j];
    assert all[|recs|] == r;
    if r.ein in taken {
      assert all[|recs|].ein in taken;
    } else if exists j :: 0 <= j < |recs| && recs[j].ein == r.ein {
      var j :| 0 <= j < |recs| && recs[j].ein == r.ein;
      assert all[j].ein == all[|recs|].ein;
    } else if exists j :: 0 <= j < |recs| && recs[j].ein in taken {
      var j :| 0 <= j < |recs| && recs[j].ein in taken;
      assert all[j].ein in taken;
    } else {
      var i, j :| 0 <= i < j < |recs| && recs[i].ein == recs[j].ein;
      assert all[i].ein == all[j].ein;
    }
  }

  /** Adding a row with a fresh key to an insert without conflict keeps it
      without conflict. */
  lemma AppendNoConflict(taken: set<string>, recs: seq<Record>, r: Record)
    requires !InsertConflict(taken, recs) && r.ein !in taken
    requires forall j :: 0 <= j < |recs| ==> recs[j].ein != r.ein
    ensures !InsertConflict(taken, recs + [r])
  {
    var all := recs + [r];
    assert forall j :: 0 <= j < |recs| ==> all[j] == recs[j];
    assert all[|recs|] == r;
    forall i, j | 0 <= i < j < |all| ensures all[i].ein != all[j].ein {
      if j < |recs| {
        assert recs[i].ein != recs[j].ein;
      }
    }
  }

  /** Queuing one more row files it under its key. */
  lemma RowsByKeySnoc(recs: seq<Record>, r: Record)
    ensures RowsByKey(recs + [r]) == RowsByKey(recs)[r.ein := r]
  {
    assert (recs + [r])[..|recs|] == recs;
  }

  /** The row a line makes, or writes over a stored row, is filed under the
      line's identifier. */
  lemma NewRowKey(line: string)
    ensures FromData(ConvertLine(line)).ein == LineKey(line)
    ensures forall row :: SetFields(row, ConvertLine(line)).ein == LineKey(line)
  {
    FromDataGet(ConvertLine(line));
    assert Get(FromData(ConvertLine(line)), Ein) == LineKey(line);
    forall row ensures SetFields(row, ConvertLine(line)).ein == LineKey(line) {
      SetFieldsGet(row, ConvertLine(line));
      assert Get(SetFields(row, ConvertLine(line)), Ein) == LineKey(line);
    }
  }

  // ---------------------------------------------------------------------
  // The loop, as a function of the lines read
  // ---------------------------------------------------------------------

  /** What the loop carries from line to line: `db_data_map` (the snapshot
      entries not yet popped), the table with the saves so far, and
      `to_create`. */
  datatype Pass = Pass(remaining: Store, rows: Store, toCreate: seq<Record>)

  /** One turn of the loop over `line`: pop the identifier and write the
      line's dict over its row (a row the change fold finds equal is left
      alone, which is the same row), or queue a new row made from the dict. */
  function Turn(p: Pass, line: string): Pass {
    var key := LineKey(line);
    if key in p.remaining then
      Pass(p.remaining - {key}, p.rows[key := SetFields(p.remaining[key], ConvertLine(line))], p.toCreate)
    else
      Pass(p.remaining, p.rows, p.toCreate + [FromData(ConvertLine(line))])
  }

  /** The loop over `lines`, starting from the snapshot `savepoint`. */
  function Walk(savepoint: Store, lines: seq<string>): Pass {
    if lines == [] then Pass(savepoint, savepoint, [])
    else Turn(Walk(savepoint, lines[..|lines| - 1]), lines[|lines| - 1])
  }

  /** The snapshot entries not yet popped: those the lines `done` do not name. */
  ghost predicate Popped(savepoint: Store, done: seq<string>, p: Pass) {
    && p.remaining.Keys == savepoint.Keys - FeedKeys(done)
    && forall k :: k in p.remaining ==> p.remaining[k] == savepoint[k]
  }

  /** The table holds the snapshot's identifiers, and the rows the lines
      `done` do not name are as they were. */
  ghost predicate Untouched(savepoint: Store, done: seq<string>, p: Pass) {
    && p.rows.Keys == savepoint.Keys
    && forall k :: k in p.rows && k !in FeedKeys(done) ==> p.rows[k] == savepoint[k]
  }

  /** Every queued row carries an identifier of the lines `done`. */
  ghost predicate FromFeed(done: seq<string>, p: Pass) {
    forall j :: 0 <= j < |p.toCreate| ==> p.toCreate[j].ein in FeedKeys(done)
  }

  /** Every stored row the lines `done` name holds its dict written over it. */
  ghost predicate Merged(savepoint: Store, done: seq<string>, p: Pass)
    requires p.rows.Keys == savepoint.Keys
  {
    forall k :: k in savepoint && k in FeedKeys(done) ==> p.rows[k] == SetFields(savepoint[k], DataFor(done, k))
  }

  /** The queued rows of lines without a repeated identifier: no conflict,
      and exactly the new rows so far. */
  ghost predicate QueuedNew(savepoint: Store, done: seq<string>, p: Pass) {
    && !InsertConflict(savepoint.Keys, p.toCreate)
    && RowsByKey(p.toCreate) == NewRows(savepoint, done)
  }

  /** What the loop has staged after the lines `done`, from the snapshot
      `savepoint`. Lines with a repeated identifier have already queued a
      conflicting row; otherwise every popped row holds its dict and the
      queue holds exactly the new rows so far. */
  ghost predicate Staged(savepoint: Store, done: seq<string>, p: Pass) {
    && Popped(savepoint, done, p)
    && Untouched(savepoint, done, p)
    && FromFeed(done, p)
    && (HasDuplicateKeys(done) ==> InsertConflict(savepoint.Keys, p.toCreate))
    && (!HasDuplicateKeys(done) ==> Merged(savepoint, done, p) && QueuedNew(savepoint, done, p))
  }

  /** A turn pops the line's identifier, if it is still there. */
  lemma TurnPopped(savepoint: Store, lines: seq<string>, p: Pass)
    requires lines != [] && Popped(savepoint, lines[..|lines| - 1], p)
    ensures Popped(savepoint, lines, Turn(p, lines[|lines| - 1]))
  {
  }

  /** A turn changes only the row of the line's identifier. */
  lemma TurnUntouched(savepoint: Store, lines: seq<string>, p: Pass)
    requires lines != [] && Popped(savepoint, lines[..|lines| - 1], p)
    requires Untouched(savepoint, lines[..|lines| - 1], p)
    ensures Untouched(savepoint, lines, Turn(p, lines[|lines| - 1]))
  {
  }

  /** A turn queues only a row of the line's identifier. */
  lemma TurnFromFeed(lines: seq<string>, p: Pass)
    requires lines != [] && FromFeed(lines[..|lines| - 1], p)
    ensures FromFeed(lines, Turn(p, lines[|lines| - 1]))
  {
    var last := lines[|lines| - 1];
    var q := Turn(p, last);
    NewRowKey(last);
    assert forall j :: 0 <= j < |p.toCreate| ==> p.toCreate[j] == q.toCreate[j];
  }

  /** Once the lines repeat an identifier, the queue conflicts: the second
      occurrence finds the identifier popped (or queued) and queues a row
      whose key is stored (or already queued). */
  lemma TurnConflict(savepoint: Store, lines: seq<string>, p: Pass)
    requires lines != [] && Staged(savepoint, lines[..|lines| - 1], p)
    requires HasDuplicateKeys(lines)
    ensures InsertConflict(savepoint.Keys, Turn(p, lines[|lines| - 1]).toCreate)
  {
    var init := lines[..|lines| - 1];
    var last := lines[|lines| - 1];
    var key := LineKey(last);
    if key !in p.remaining {
      var row := FromData(ConvertLine(last));
      NewRowKey(last);
      if !HasDuplicateKeys(init) && key !in savepoint {
        assert key in NewRows(savepoint, init);
        assert key in RowsByKey(p.toCreate);
      }
      AppendConflict(savepoint.Keys, p.toCreate, row);
    }
  }

  /** Without a repeated identifier, a turn writes the line's dict over the
      popped row and leaves every other stored row's dict as it was. */
  lemma TurnMergedAt(savepoint: Store, lines: seq<string>, p: Pass, k: string)
    requires lines != [] && Popped(savepoint, lines[..|lines| - 1], p)
    requires p.rows.Keys == savepoint.Keys && Merged(savepoint, lines[..|lines| - 1], p)
    requires !HasDuplicateKeys(lines)
    requires k in savepoint && k in FeedKeys(lines)
    ensures k in Turn(p, lines[|lines| - 1]).rows
    ensures Turn(p, lines[|lines| - 1]).rows[k] == SetFields(savepoint[k], DataFor(lines, k))
  {
    var init := lines[..|lines| - 1];
    var last := lines[|lines| - 1];
    var key := LineKey(last);
    if k == key {
      assert key !in FeedKeys(init);
      assert key in p.remaining && p.remaining[key] == savepoint[key];
      assert DataFor(lines, k) == ConvertLine(last);
    } else {
      assert k in FeedKeys(init);
      assert Turn(p, last).rows[k] == p.rows[k];
      assert DataFor(lines, k) == DataFor(init, k);
    }
  }

  /** The merge holds for every stored row after a turn. */
  lemma TurnMerged(savepoint: Store, lines: seq<string>, p: Pass)
    requires lines != [] && Popped(savepoint, lines[..|lines| - 1], p)
    requires p.rows.Keys == savepoint.Keys && Merged(savepoint, lines[..|lines| - 1], p)
    requires !HasDuplicateKeys(lines)
    ensures Turn(p, lines[|lines| - 1]).rows.Keys == savepoint.Keys
    ensures Merged(savepoint, lines, Turn(p, lines[|lines| - 1]))
  {
    forall k | k in savepoint && k in FeedKeys(lines)
      ensures k in Turn(p, lines[|lines| - 1]).rows
      ensures Turn(p, lines[|lines| - 1]).rows[k] == SetFields(savepoint[k], DataFor(lines, k))
    {
      TurnMergedAt(savepoint, lines, p, k);
    }
  }

  /** A line with a new identifier adds one new row, made from its dict. */
  lemma NewRowsSnoc(savepoint: Store, lines: seq<string>)
    requires lines != []
    requires LineKey(lines[|lines| - 1]) !in savepoint
    requires LineKey(lines[|lines| - 1]) !in FeedKeys(lines[..|lines| - 1])
    ensures NewRows(savepoint, lines) ==
            NewRows(savepoint, lines[..|lines| - 1])[LineKey(lines[|lines| - 1]) := FromData(ConvertLine(lines[|lines| - 1]))]
  {
    var init := lines[..|lines| - 1];
    var last := lines[|lines| - 1];
    var key := LineKey(last);
    var grown := NewRows(savepoint, init)[key := FromData(ConvertLine(last))];
    var now := NewRows(savepoint, lines);
    NewRowsSnocKeys(savepoint.Keys, FeedKeys(init), key);
    forall k | k in now ensures now[k] == grown[k] {
      NewRowsSnocAt(savepoint, lines, k);
    }
    StoreExtensionality(now, grown);
  }

  /** Set arithmetic behind `NewRowsSnoc`. */
  lemma NewRowsSnocKeys(stored: set<string>, seen: set<string>, key: string)
    requires key !in stored
    ensures (seen + {key}) - stored == (seen - stored) + {key}
  {
  }

  /** `NewRowsSnoc` at one identifier. */
  lemma NewRowsSnocAt(savepoint: Store, lines: seq<string>, k: string)
    requires lines != []
    requires LineKey(lines[|lines| - 1]) !in savepoint
    requires k in NewRows(savepoint, lines)
    ensures k == LineKey(lines[|lines| - 1]) ==> NewRows(savepoint, lines)[k] == FromData(ConvertLine(lines[|lines| - 1]))
    ensures k != LineKey(lines[|lines| - 1]) ==>
            k in NewRows(savepoint, lines[..|lines| - 1]) &&
            NewRows(savepoint, lines)[k] == NewRows(savepoint, lines[..|lines| - 1])[k]
  {
    var init := lines[..|lines| - 1];
    if k != LineKey(lines[|lines| - 1]) {
      assert k in FeedKeys(init);
      assert DataFor(lines, k) == DataFor(init, k);
    }
  }

  /** A line with a stored identifier adds no new row. */
  lemma NewRowsStored(savepoint: Store, lines: seq<string>)
    requires lines != [] && LineKey(lines[|lines| - 1]) in savepoint
    ensures NewRows(savepoint, lines) == NewRows(savepoint, lines[..|lines| - 1])
  {
    var init := lines[..|lines| - 1];
    forall k | k in NewRows(savepoint, init) ensures NewRows(savepoint, init)[k] == NewRows(savepoint, lines)[k] {
      assert DataFor(lines, k) == DataFor(init, k);
    }
    StoreExtensionality(NewRows(savepoint, init), NewRows(savepoint, lines));
  }

  /** Without a repeated identifier, the queue stays free of conflicts and
      holds exactly the new rows. */
  lemma TurnQueuedNew(savepoint: Store, lines: seq<string>, p: Pass)
    requires lines != [] && Staged(savepoint, lines[..|lines| - 1], p)
    requires !HasDuplicateKeys(lines)
    ensures QueuedNew(savepoint, lines, Turn(p, lines[|lines| - 1]))
  {
    var last := lines[|lines| - 1];
    var key := LineKey(last);
    if key in p.remaining {
      NewRowsStored(savepoint, lines);
    } else {
      var row := FromData(ConvertLine(last));
      NewRowKey(last);
      AppendNoConflict(savepoint.Keys, p.toCreate, row);
      RowsByKeySnoc(p.toCreate, row);
      NewRowsSnoc(savepoint, lines);
    }
  }

  /** Each turn of the loop keeps what has been staged in step with the
      lines read so far. */
  lemma StageTurn(savepoint: Store, lines: seq<string>, p: Pass)
    requires lines != [] && Staged(savepoint, lines[..|lines| - 1], p)
    ensures Staged(savepoint, lines, Turn(p, lines[|lines| - 1]))
  {
    TurnPopped(savepoint, lines, p);
    TurnUntouched(savepoint, lines, p);
    TurnFromFeed(lines, p);
    if HasDuplicateKeys(lines) {
      TurnConflict(savepoint, lines, p);
    } else {
      TurnMerged(savepoint, lines, p);
      TurnQueuedNew(savepoint, lines, p);
    }
  }

  /** The loop stages, line by line, what the reconciled table needs. */
  lemma {:induction false} WalkStaged(savepoint: Store, lines: seq<string>)
    ensures Staged(savepoint, lines, Walk(savepoint, lines))
  {
    if lines == [] {
      StoreExtensionality(RowsByKey([]), NewRows(savepoint, []));
    } else {
      WalkStaged(savepoint, lines[..|lines| - 1]);
      StageTurn(savepoint, lines, Walk(savepoint, lines[..|lines| - 1]));
    }
  }

  /** An identifier not yet popped still has its snapshot row in the table. */
  lemma StagedRow(savepoint: Store, done: seq<string>, p: Pass, key: string)
    requires Staged(savepoint, done, p) && key in p.remaining
    ensures key in p.rows && p.rows[key] == p.remaining[key]
  {
  }

  /** After the last line, the insert conflicts exactly when the feed
      repeats an identifier. */
  lemma StagedConflict(savepoint: Store, lines: seq<string>, p: Pass)
    requires Staged(savepoint, lines, p)
    ensures p.rows.Keys == savepoint.Keys
    ensures InsertConflict(savepoint.Keys, p.toCreate) == HasDuplicateKeys(lines)
  {
  }

  /** After the last line of a feed without repeated identifiers, inserting
      the queue and deleting what is left of the snapshot yields the
      reconciled table. */
  lemma StagedDone(savepoint: Store, lines: seq<string>, p: Pass)
    requires Staged(savepoint, lines, p) && !HasDuplicateKeys(lines)
    ensures (p.rows + RowsByKey(p.toCreate)) - p.remaining.Keys == Reconciled(savepoint, lines)
  {
    var result := (p.rows + RowsByKey(p.toCreate)) - p.remaining.Keys;
    var expected := Reconciled(savepoint, lines);
    assert result.Keys == expected.Keys;
    forall k | k in result ensures result[k] == expected[k] {
    }
    StoreExtensionality(result, expected);
  }

  /** The loop `for attr, value in data.items(): setattr(row, attr, value)`,
      one attribute at a time. */
  method Overwrite(row: Record, data: Data) returns (row': Record)
    ensures row' == SetFields(row, data)
  {
    row' := row;
    var j := 0;
    while j < |data|
      invariant 0 <= j <= |data|
      invariant row' == SetFields(row, data[..j])
    {
      assert data[..j + 1][..j] == data[..j];
      row' := Set(row', data[j].0, data[j].1);
      j := j + 1;
    }
    assert data[..|data|] == data;
  }

  /** The `IRSNonprofitData` table. */
  class NonprofitTable {
    var rows: Store

    ghost predicate Valid()
      reads this
    {
      Keyed(rows)
    }

    constructor(initial: Store)
      requires Keyed(initial)
      ensures Valid() && rows == initial
    {
      rows := initial;
    }

    /** `row.save()` */
    method Save(row: Record)
      requires Valid()
      modifies this
      ensures Valid()
      ensures rows == old(rows)[row.ein := row]
    {
      rows := rows[row.ein := row];
    }

    /** `model.objects.bulk_create(recs)`: one insert of all the rows, which
        the primary key makes fail, inserting nothing, on a conflict. */
    method BulkCreate(recs: seq<Record>) returns (ok: bool)
      requires Valid()
      modifies this
      ensures Valid()
      ensures ok == !InsertConflict(old(rows).Keys, recs)
      ensures rows == if ok then old(rows) + RowsByKey(recs) else old(rows)
    {
      ok := !InsertConflict(rows.Keys, recs);
      if ok {
        rows := rows + RowsByKey(recs);
      }
    }

    /** `model.objects.filter(pk__in=keys).delete()` */
    method Delete(keys: set<string>)
      requires Valid()
      modifies this
      ensures Valid()
      ensures rows == old(rows) - keys
    {
      rows := rows - keys;
    }

    /** `update_database_from_file` with `convert_line`, `pk_field='ein'` and
        `model=IRSNonprofitData`. The run succeeds exactly when no identifier
        repeats in the feed; it then leaves `Reconciled(old(rows), lines)`,
        and otherwise the transaction rolls back to the old table. */
    method UpdateFromFile(lines: seq<string>) returns (ok: bool)
      requires Valid()
      modifies this
      ensures Valid()
      ensures ok == !HasDuplicateKeys(lines)
      ensures rows == if ok then Reconciled(old(rows), lines) else old(rows)
    {
      var savepoint := rows;                   // transaction.atomic()
      var remaining := rows;                   // db_data_map
      var toCreate: seq<Record> := [];
      var i := 0;
      while i < |lines|
        invariant 0 <= i <= |lines|
        invariant Valid()
        invariant Pass(remaining, rows, toCreate) == Walk(savepoint, lines[..i])
      {
        ghost var before := Pass(remaining, rows, toCreate);
        var data := ConvertLine(lines[i]);
        var key := LineKey(lines[i]);           // data[pk_field]
        if key in remaining {                   // row = db_data_map.pop(key, None)
          var row := remaining[key];
          remaining := remaining - {key};
          if DiffFold(row, data, false) {
            row := Overwrite(row, data);
            NewRowKey(lines[i]);
            Save(row);
          } else {
            NoDifferenceNoChange(row, data);
            WalkStaged(savepoint, lines[..i]);
            StagedRow(savepoint, lines[..i], before, key);
            assert rows == rows[key := row];
          }
        } else {
          toCreate := toCreate + [FromData(data)];   // to_create.append(model(**data))
        }
        assert Pass(remaining, rows, toCreate) == Turn(before, lines[i]);
        assert lines[..i + 1][..i] == lines[..i];
        i := i + 1;
      }
      assert lines[..i] == lines;
      ghost var staged := Pass(remaining, rows, toCreate);
      WalkStaged(savepoint, lines);
      StagedConflict(savepoint, lines, staged);
      ok := BulkCreate(toCreate);
      if !ok {
        rows := savepoint;                      // the transaction rolls back
        return;
      }
      StagedDone(savepoint, lines, staged);
      Delete(remaining.Keys);
    }
  }

  /** `update_charitychecker_data`: the normalised lines of the downloaded
      file fed to `update_database_from_file`. */
  method UpdateCharitycheckerData(table: NonprofitTable, raw: seq<string>) returns (ok: bool)
    requires table.Valid()
    modifies table
    ensures table.Valid()
    ensures ok == !HasDuplicateKeys(NormalizeData(raw))
    ensures table.rows == if ok then Reconciled(old(table.rows), NormalizeData(raw)) else old(table.rows)
  {
    ok := table.UpdateFromFile(NormalizeData(raw));
  }
}
