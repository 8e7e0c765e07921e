/** The file side of the training logger (torchrl/src/utils/Logger.cpp):
    a store of columns, one per key, each a list of entries, kept in
    ascending key order as a `std::map` keeps them; `Log` appends one entry
    per logged key and either rewrites the file or appends one row, and
    `Dump` writes a header and merges the columns row by row in order of
    `play_steps`. The file is a sequence of rows of cells. */
module Logger {
  import opened Common

  /** `uint64_t`. */
  type U64 = x: nat | x < 0x1_0000_0000_0000_0000

  /** `std::numeric_limits<uint64_t>::max()`, the start of the minimum
      search. */
  const U64Max: U64 := 0xFFFF_FFFF_FFFF_FFFF

  // ---------------------------------------------------------------------
  // Key order

  /** The order of `std::string` keys: lexicographic by character, a proper
      prefix first. */
  predicate Below(a: string, b: string)
  {
    if |a| == 0 then |b| > 0
    else if |b| == 0 then false
    else if a[0] != b[0] then a[0] < b[0]
    else Below(a[1..], b[1..])
  }

  lemma {:induction false} BelowIrreflexive(a: string)
    ensures !Below(a, a)
  {
    if |a| > 0 {
      BelowIrreflexive(a[1..]);
    }
  }

  lemma {:induction false} BelowTransitive(a: string, b: string, c: string)
    requires Below(a, b) && Below(b, c)
    ensures Below(a, c)
  {
    if |a| > 0 && |b| > 0 && |c| > 0 && a[0] == b[0] && b[0] == c[0] {
      BelowTransitive(a[1..], b[1..], c[1..]);
    }
  }

  lemma {:induction false} BelowTotal(a: string, b: string)
    requires a != b
    ensures Below(a, b) || Below(b, a)
  {
    if |a| > 0 && |b| > 0 && a[0] == b[0] {
      assert a == [a[0]] + a[1..] && b == [b[0]] + b[1..];
      BelowTotal(a[1..], b[1..]);
    }
  }

  // ---------------------------------------------------------------------
  // The column store

  /** One logged value with the step counters and time of its call. */
  datatype Entry = Entry(playSteps: U64, updateSteps: U64, trainTime: real, value: real)

  datatype Column = Column(key: string, entries: seq<Entry>)

  /** The order a `std::map` keeps: strictly ascending keys. */
  predicate SortedColumns(data: seq<Column>)
  {
    |data| <= 1 || (Below(data[0].key, data[1].key) && SortedColumns(data[1..]))
  }

  /** A `std::map<std::string, float>` of values to log. */
  predicate SortedValues(values: seq<(string, real)>)
  {
    forall i, j :: 0 <= i < j < |values| ==> Below(values[i].0, values[j].0)
  }

  function Keys(data: seq<Column>): set<string>
  {
    if |data| == 0 then {} else {data[0].key} + Keys(data[1..])
  }

  function ValueKeys(values: seq<(string, real)>): set<string>
  {
    set i | 0 <= i < |values| :: values[i].0
  }

  /** The entries stored under `key`, none for an absent key. */
  function ColumnOf(data: seq<Column>, key: string): seq<Entry>
  {
    if |data| == 0 then []
    else if data[0].key == key then data[0].entries
    else ColumnOf(data[1..], key)
  }

  lemma {:induction false} ColumnOfAbsent(data: seq<Column>, key: string)
    requires key !in Keys(data)
    ensures ColumnOf(data, key) == []
  {
    if |data| > 0 {
      ColumnOfAbsent(data[1..], key);
    }
  }

  /** `logged_data[key]` for an absent key: an empty column in its place. */
  function InsertColumn(data: seq<Column>, key: string): (r: seq<Column>)
    ensures |r| == |data| + 1
  {
    if |data| == 0 then [Column(key, [])]
    else if Below(key, data[0].key) then [Column(key, [])] + data
    else [data[0]] + InsertColumn(data[1..], key)
  }

  /** The inserted store has one key more, an empty column under it and
      every other column as it was. */
  lemma {:induction false} InsertColumnContents(data: seq<Column>, key: string)
    requires key !in Keys(data)
    ensures Keys(InsertColumn(data, key)) == Keys(data) + {key}
    ensures forall k :: ColumnOf(InsertColumn(data, key), k) == if k == key then [] else ColumnOf(data, k)
  {
    if |data| > 0 && !Below(key, data[0].key) {
      InsertColumnContents(data[1..], key);
      assert InsertColumn(data, key)[1..] == InsertColumn(data[1..], key);
    } else if |data| > 0 {
      assert InsertColumn(data, key)[1..] == data;
    }
  }

  /** Insertion keeps the keys ascending. */
  lemma {:induction false} InsertColumnSorted(data: seq<Column>, key: string)
    requires SortedColumns(data) && key !in Keys(data)
    ensures SortedColumns(InsertColumn(data, key))
    ensures InsertColumn(data, key)[0].key == key || (|data| > 0 && InsertColumn(data, key)[0] == data[0])
  {
    if |data| > 0 && !Below(key, data[0].key) {
      InsertColumnSorted(data[1..], key);
      BelowTotal(key, data[0].key);
      var r := InsertColumn(data, key);
      assert r[1..] == InsertColumn(data[1..], key);
    } else if |data| > 0 {
      assert InsertColumn(data, key)[1..] == data;
    }
  }

  /** `logged_data[key].push_back(e)` on a present key. */
  function AppendEntry(data: seq<Column>, key: string, e: Entry): (r: seq<Column>)
    ensures |r| == |data|
  {
    if |data| == 0 then []
    else if data[0].key == key then [data[0].(entries := data[0].entries + [e])] + data[1..]
    else [data[0]] + AppendEntry(data[1..], key, e)
  }

  /** Appending keeps every key in its place and extends only the
      column of `key`. */
  lemma {:induction false} AppendEntryFacts(data: seq<Column>, key: string, e: Entry)
    ensures Keys(AppendEntry(data, key, e)) == Keys(data)
    ensures SortedColumns(data) ==> SortedColumns(AppendEntry(data, key, e))
    ensures forall k :: ColumnOf(AppendEntry(data, key, e), k)
                        == ColumnOf(data, k) + (if k == key && key in Keys(data) then [e] else [])
    ensures |data| > 0 ==> AppendEntry(data, key, e)[0].key == data[0].key
  {
    var r := AppendEntry(data, key, e);
    if |data| > 0 {
      if data[0].key == key {
        assert r[1..] == data[1..];
      } else {
        AppendEntryFacts(data[1..], key, e);
        assert r[1..] == AppendEntry(data[1..], key, e);
      }
    }
  }

  /** One key of a `Log` call: its column is created if absent, then the
      entry appended. */
  function LogKey(data: seq<Column>, key: string, e: Entry): seq<Column>
  {
    AppendEntry(if key in Keys(data) then data else InsertColumn(data, key), key, e)
  }

  /** One key's step keeps the store sorted and adds its key. */
  lemma LogKeyFacts(data: seq<Column>, key: string, e: Entry)
    requires SortedColumns(data)
    ensures SortedColumns(LogKey(data, key, e))
    ensures Keys(LogKey(data, key, e)) == Keys(data) + {key}
  {
    if key !in Keys(data) {
      InsertColumnContents(data, key);
      InsertColumnSorted(data, key);
      AppendEntryFacts(InsertColumn(data, key), key, e);
    } else {
      AppendEntryFacts(data, key, e);
    }
  }

  /** One key's step appends one entry to its own column and leaves every
      other column as it was. */
  lemma LogKeyColumn(data: seq<Column>, key: string, e: Entry, k: string)
    ensures ColumnOf(LogKey(data, key, e), k) == ColumnOf(data, k) + (if k == key then [e] else [])
  {
    if key !in Keys(data) {
      InsertColumnContents(data, key);
      ColumnOfAbsent(data, key);
      AppendEntryFacts(InsertColumn(data, key), key, e);
    } else {
      AppendEntryFacts(data, key, e);
    }
  }

  /** The store after the first `k` keys of a `Log` call. */
  function Logged(data: seq<Column>, values: seq<(string, real)>, k: nat,
                  playSteps: U64, updateSteps: U64, trainTime: real): seq<Column>
    requires k <= |values|
  {
    if k == 0 then data
    else LogKey(Logged(data, values, k - 1, playSteps, updateSteps, trainTime),
                values[k - 1].0, Entry(playSteps, updateSteps, trainTime, values[k - 1].1))
  }

  /** The value logged under `key`, if any. */
  function Lookup(values: seq<(string, real)>, key: string): Option<real>
  {
    if |values| == 0 then None
    else if values[|values| - 1].0 == key then Some(values[|values| - 1].1)
    else Lookup(values[..|values| - 1], key)
  }

  /** The entry a `Log` call stores under `key`, if any. */
  function NewEntries(values: seq<(string, real)>, key: string, playSteps: U64, updateSteps: U64, trainTime: real): seq<Entry>
  {
    match Lookup(values, key) {
      case None => []
      case Some(v) => [Entry(playSteps, updateSteps, trainTime, v)]
    }
  }

  lemma ValueKeysSnoc(values: seq<(string, real)>, k: nat)
    requires k < |values|
    ensures ValueKeys(values[..k + 1]) == ValueKeys(values[..k]) + {values[k].0}
  {
    forall x | x in ValueKeys(values[..k + 1]) ensures x in ValueKeys(values[..k]) + {values[k].0} {
      var i :| 0 <= i < k + 1 && values[..k + 1][i].0 == x;
      if i < k { assert values[..k][i].0 == x; }
    }
    forall x | x in ValueKeys(values[..k]) ensures x in ValueKeys(values[..k + 1]) {
      var i :| 0 <= i < k && values[..k][i].0 == x;
      assert values[..k + 1][i].0 == x;
    }
  }

  /** A key of a sorted call occurs once: it is not among the keys before
      its own position. */
  lemma KeyOnce(values: seq<(string, real)>, k: nat)
    requires SortedValues(values) && k < |values|
    ensures values[k].0 !in ValueKeys(values[..k])
  {
    if values[k].0 in ValueKeys(values[..k]) {
      var i :| 0 <= i < k && values[..k][i].0 == values[k].0;
      assert Below(values[i].0, values[k].0);
      BelowIrreflexive(values[k].0);
    }
  }

  /** Nothing is looked up under a key absent from the call. */
  lemma {:induction false} LookupAbsent(values: seq<(string, real)>, key: string)
    requires key !in ValueKeys(values)
    ensures Lookup(values, key) == None
  {
    if |values| > 0 {
      var init := values[..|values| - 1];
      assert ValueKeys(init) <= ValueKeys(values) by {
        forall x | x in ValueKeys(init) ensures x in ValueKeys(values) {
          var i :| 0 <= i < |init| && init[i].0 == x;
          assert values[i].0 == x;
        }
      }
      LookupAbsent(init, key);
    }
  }

  lemma NewEntriesSnoc(values: seq<(string, real)>, k: nat, key: string, playSteps: U64, updateSteps: U64, trainTime: real)
    requires k < |values| && values[k].0 !in ValueKeys(values[..k])
    ensures NewEntries(values[..k + 1], key, playSteps, updateSteps, trainTime)
            == NewEntries(values[..k], key, playSteps, updateSteps, trainTime)
               + (if key == values[k].0 then [Entry(playSteps, updateSteps, trainTime, values[k].1)] else [])
  {
    assert values[..k + 1][..k] == values[..k];
    if key == values[k].0 {
      LookupAbsent(values[..k], key);
    }
  }

  /** `Log` keeps the keys ascending. */
  lemma {:induction false} LoggedSorted(data: seq<Column>, values: seq<(string, real)>, k: nat,
                                        playSteps: U64, updateSteps: U64, trainTime: real)
    requires SortedColumns(data) && k <= |values|
    ensures SortedColumns(Logged(data, values, k, playSteps, updateSteps, trainTime))
  {
    if k > 0 {
      LoggedSorted(data, values, k - 1, playSteps, updateSteps, trainTime);
      LogKeyFacts(Logged(data, values, k - 1, playSteps, updateSteps, trainTime),
                  values[k - 1].0, Entry(playSteps, updateSteps, trainTime, values[k - 1].1));
    }
  }

  /** `Log` adds a column for exactly the logged keys that had none. */
  lemma {:induction false} LoggedKeys(data: seq<Column>, values: seq<(string, real)>, k: nat,
                                      playSteps: U64, updateSteps: U64, trainTime: real)
    requires SortedColumns(data) && k <= |values|
    ensures Keys(Logged(data, values, k, playSteps, updateSteps, trainTime)) == Keys(data) + ValueKeys(values[..k])
  {
    if k > 0 {
      LoggedKeys(data, values, k - 1, playSteps, updateSteps, trainTime);
      LoggedSorted(data, values, k - 1, playSteps, updateSteps, trainTime);
      LogKeyFacts(Logged(data, values, k - 1, playSteps, updateSteps, trainTime),
                  values[k - 1].0, Entry(playSteps, updateSteps, trainTime, values[k - 1].1));
      ValueKeysSnoc(values, k - 1);
    }
  }

  /** `Log` on the store: the column of every logged key gains exactly one
      entry carrying this call's counters and its value, and every other
      column is unchanged. */
  lemma {:induction false} LoggedColumns(data: seq<Column>, values: seq<(string, real)>, k: nat, key: string,
                                         playSteps: U64, updateSteps: U64, trainTime: real)
    requires SortedValues(values) && k <= |values|
    ensures ColumnOf(Logged(data, values, k, playSteps, updateSteps, trainTime), key)
            == ColumnOf(data, key) + NewEntries(values[..k], key, playSteps, updateSteps, trainTime)
  {
    if k > 0 {
      var i := k - 1;
      var before := Logged(data, values, i, playSteps, updateSteps, trainTime);
      var after := Logged(data, values, k, playSteps, updateSteps, trainTime);
      var e := Entry(playSteps, updateSteps, trainTime, values[i].1);
      var added := if key == values[i].0 then [e] else [];
      var prior := NewEntries(values[..i], key, playSteps, updateSteps, trainTime);
      LoggedColumns(data, values, i, key, playSteps, updateSteps, trainTime);
      assert after == LogKey(before, values[i].0, e);
      LogKeyColumn(before, values[i].0, e, key);
      KeyOnce(values, i);
      NewEntriesSnoc(values, i, key, playSteps, updateSteps, trainTime);
      assert NewEntries(values[..k], key, playSteps, updateSteps, trainTime) == prior + added;
      ChainAppend(ColumnOf(after, key), ColumnOf(before, key), ColumnOf(data, key), added, prior);
    } else {
      assert values[..0] == [];
      assert NewEntries(values[..0], key, playSteps, updateSteps, trainTime) == [];
      assert ColumnOf(data, key) + [] == ColumnOf(data, key);
    }
  }

  /** One pass of the loop of `Log`: the step `LogKey` takes from the
      store so far reaches the next prefix, keeps it sorted, and finds a
      new key exactly when the original store lacked it. */
  lemma StoreStep(data: seq<Column>, values: seq<(string, real)>, i: nat,
                  playSteps: U64, updateSteps: U64, trainTime: real)
    requires SortedColumns(data) && SortedValues(values) && i < |values|
    ensures var before := Logged(data, values, i, playSteps, updateSteps, trainTime);
            && Logged(data, values, i + 1, playSteps, updateSteps, trainTime)
               == LogKey(before, values[i].0, Entry(playSteps, updateSteps, trainTime, values[i].1))
            && SortedColumns(Logged(data, values, i + 1, playSteps, updateSteps, trainTime))
            && (values[i].0 in Keys(before) <==> values[i].0 in Keys(data))
            && (HasNewKey(data, values[..i + 1]) <==> HasNewKey(data, values[..i]) || values[i].0 !in Keys(data))
  {
    LoggedHasKey(data, values, i, playSteps, updateSteps, trainTime);
    HasNewKeySnoc(data, values, i);
    LoggedSorted(data, values, i + 1, playSteps, updateSteps, trainTime);
  }

  lemma Regroup<T>(x: seq<T>, y: T, z: seq<T>)
    ensures x + ([y] + z) == (x + [y]) + z
  {
  }

  lemma ChainAppend<T>(x: seq<T>, y: seq<T>, z: seq<T>, p: seq<T>, q: seq<T>)
    requires x == y + p && y == z + q
    ensures x == z + (q + p)
  {
  }

  /** Whether some key of the call has no column yet. */
  predicate HasNewKey(data: seq<Column>, values: seq<(string, real)>)
  {
    exists i :: 0 <= i < |values| && values[i].0 !in Keys(data)
  }

  lemma HasNewKeySnoc(data: seq<Column>, values: seq<(string, real)>, k: nat)
    requires k < |values|
    ensures HasNewKey(data, values[..k + 1]) <==> HasNewKey(data, values[..k]) || values[k].0 !in Keys(data)
  {
    if HasNewKey(data, values[..k + 1]) && values[k].0 in Keys(data) {
      var i :| 0 <= i < k + 1 && values[..k + 1][i].0 !in Keys(data);
      assert values[..k][i] == values[i];
    }
    if HasNewKey(data, values[..k]) {
      var i :| 0 <= i < k && values[..k][i].0 !in Keys(data);
      assert values[..k + 1][i] == values[i];
    }
    if values[k].0 !in Keys(data) {
      assert values[..k + 1][k] == values[k];
    }
  }

  /** Before its own step a logged key has a column only if it had one
      from the start: a sorted call names every key once. */
  lemma LoggedHasKey(data: seq<Column>, values: seq<(string, real)>, k: nat,
                     playSteps: U64, updateSteps: U64, trainTime: real)
    requires SortedColumns(data) && SortedValues(values) && k < |values|
    ensures values[k].0 in Keys(Logged(data, values, k, playSteps, updateSteps, trainTime)) <==> values[k].0 in Keys(data)
  {
    KeyOnce(values, k);
    LoggedKeys(data, values, k, playSteps, updateSteps, trainTime);
  }
  // ---------------------------------------------------------------------
  // Rows of the file

  /** One tab-separated cell: a name, an integer, a decimal or blank. */
  datatype Cell = Name(text: string) | Whole(n: nat) | Decimal(x: real) | Blank

  type Row = seq<Cell>

  /** The header: the three fixed names, then the keys in order. */
  function Header(data: seq<Column>): (row: Row)
    ensures |row| == 3 + |data|
    ensures row[..3] == [Name("Play steps"), Name("Update steps"), Name("Train time")]
    ensures forall j :: 0 <= j < |data| ==> row[3 + j] == Name(data[j].key)
  {
    [Name("Play steps"), Name("Update steps"), Name("Train time")] + seq(|data|, j requires 0 <= j < |data| => Name(data[j].key))
  }

  /** The row `Log` appends when no key is new: the counters, then per
      column its value from this call or a blank. */
  function LogRow(data: seq<Column>, playSteps: U64, updateSteps: U64, trainTime: real, values: seq<(string, real)>): (row: Row)
    ensures |row| == 3 + |data|
    ensures row[..3] == [Whole(playSteps), Whole(updateSteps), Decimal(trainTime)]
    ensures forall j :: 0 <= j < |data| ==>
              row[3 + j] == match Lookup(values, data[j].key) { case Some(v) => Decimal(v) case None => Blank }
  {
    [Whole(playSteps), Whole(updateSteps), Decimal(trainTime)]
      + seq(|data|, j requires 0 <= j < |data| =>
              match Lookup(values, data[j].key) { case Some(v) => Decimal(v) case None => Blank })
  }

  // ---------------------------------------------------------------------
  // The merge of `Dump`

  /** A position in every column: `column_index`. */
  predicate Positions(data: seq<Column>, idx: seq<nat>)
  {
    |idx| == |data| && forall j :: 0 <= j < |data| ==> idx[j] <= |data[j].entries|
  }

  /** Whether column `j` still has an entry at its position. */
  predicate Pending(data: seq<Column>, idx: seq<nat>, j: nat)
    requires Positions(data, idx)
  {
    j < |data| && idx[j] < |data[j].entries|
  }

  /** The entries still to print. */
  function Remaining(data: seq<Column>, idx: seq<nat>, k: nat): nat
    requires Positions(data, idx) && k <= |data|
  {
    if k == 0 then 0 else Remaining(data, idx, k - 1) + (|data[k - 1].entries| - idx[k - 1])
  }

  /** The first loop of a `Dump` row over the first `k` columns: whether any
      entry is left, the smallest next `play_steps` and the counters of
      the first column that holds it. */
  datatype Scan = Scan(hasValue: bool, minPlaySteps: U64, minUpdateSteps: U64, minTrainTime: real)

  function ScanColumns(data: seq<Column>, idx: seq<nat>, k: nat): Scan
    requires Positions(data, idx) && k <= |data|
  {
    if k == 0 then Scan(false, U64Max, 0, 0.0)
    else
      var s := ScanColumns(data, idx, k - 1);
      var j := k - 1;
      if idx[j] < |data[j].entries| then
        var e := data[j].entries[idx[j]];
        if e.playSteps < s.minPlaySteps then Scan(true, e.playSteps, e.updateSteps, e.trainTime)
        else s.(hasValue := true)
      else s
  }

  /** Some entry is left exactly when some column is pending. */
  lemma {:induction false} ScanHasValue(data: seq<Column>, idx: seq<nat>, k: nat)
    requires Positions(data, idx) && k <= |data|
    ensures ScanColumns(data, idx, k).hasValue <==> exists j :: 0 <= j < k && Pending(data, idx, j)
  {
    if k > 0 {
      ScanHasValue(data, idx, k - 1);
      if Pending(data, idx, k - 1) {
        assert 0 <= k - 1 < k && Pending(data, idx, k - 1);
      }
    }
  }

  /** The row's play_steps is no larger than any pending entry's. */
  lemma {:induction false} ScanBelow(data: seq<Column>, idx: seq<nat>, k: nat)
    requires Positions(data, idx) && k <= |data|
    ensures forall j :: 0 <= j < k && Pending(data, idx, j) ==>
              ScanColumns(data, idx, k).minPlaySteps <= data[j].entries[idx[j]].playSteps
  {
    if k > 0 {
      ScanBelow(data, idx, k - 1);
    }
  }

  /** The row's play_steps is some pending entry's. */
  lemma {:induction false} ScanAttained(data: seq<Column>, idx: seq<nat>, k: nat)
    requires Positions(data, idx) && k <= |data| && ScanColumns(data, idx, k).hasValue
    ensures exists j :: 0 <= j < k && Pending(data, idx, j) && data[j].entries[idx[j]].playSteps == ScanColumns(data, idx, k).minPlaySteps
  {
    var s := ScanColumns(data, idx, k);
    var prev := ScanColumns(data, idx, k - 1);
    if Pending(data, idx, k - 1) && data[k - 1].entries[idx[k - 1]].playSteps < prev.minPlaySteps {
    } else if prev.hasValue {
      ScanAttained(data, idx, k - 1);
    } else {
      assert prev.minPlaySteps == U64Max by { ScanSentinel(data, idx, k - 1); }
    }
  }

  /** With nothing found yet, the sentinel and zero counters stand. */
  lemma {:induction false} ScanSentinel(data: seq<Column>, idx: seq<nat>, k: nat)
    requires Positions(data, idx) && k <= |data| && !ScanColumns(data, idx, k).hasValue
    ensures ScanColumns(data, idx, k) == Scan(false, U64Max, 0, 0.0)
  {
    if k > 0 {
      ScanSentinel(data, idx, k - 1);
    }
  }

  /** The row's update_steps and train_time are those of the first column,
      in key order, whose pending entry has play_steps strictly below the
      sentinel and equal to the minimum; if none is below the sentinel they
      stay 0. */
  lemma {:induction false} ScanFirst(data: seq<Column>, idx: seq<nat>, k: nat)
    requires Positions(data, idx) && k <= |data|
    ensures var s := ScanColumns(data, idx, k);
            && (s.minPlaySteps == U64Max ==> s.minUpdateSteps == 0 && s.minTrainTime == 0.0)
            && (s.minPlaySteps < U64Max ==>
                  exists j :: 0 <= j < k && Pending(data, idx, j) && data[j].entries[idx[j]].playSteps == s.minPlaySteps
                    && data[j].entries[idx[j]].updateSteps == s.minUpdateSteps
                    && data[j].entries[idx[j]].trainTime == s.minTrainTime
                    && forall i :: 0 <= i < j && Pending(data, idx, i) ==> data[i].entries[idx[i]].playSteps > s.minPlaySteps)
  {
    if k > 0 {
      ScanFirst(data, idx, k - 1);
      ScanBelow(data, idx, k - 1);
    }
  }

  /** Every column whose pending entry has the row's play_steps moves on. */
  function Advanced(data: seq<Column>, idx: seq<nat>, min: nat): (idx': seq<nat>)
    requires Positions(data, idx)
    ensures Positions(data, idx')
  {
    seq(|data|, j requires 0 <= j < |data| =>
      if idx[j] < |data[j].entries| && data[j].entries[idx[j]].playSteps == min then idx[j] + 1 else idx[j])
  }

  /** The row's cells: the pending value of every column that moves on, a
      blank for every other. */
  function Cells(data: seq<Column>, idx: seq<nat>, min: nat): (cells: seq<Cell>)
    requires Positions(data, idx)
    ensures |cells| == |data|
  {
    seq(|data|, j requires 0 <= j < |data| =>
      if idx[j] < |data[j].entries| && data[j].entries[idx[j]].playSteps == min then Decimal(data[j].entries[idx[j]].value)
      else Blank)
  }

  lemma {:induction false} RemainingShrinks(data: seq<Column>, idx: seq<nat>, idx': seq<nat>, k: nat)
    requires Positions(data, idx) && Positions(data, idx') && k <= |data|
    requires forall j :: 0 <= j < |data| ==> idx[j] <= idx'[j]
    ensures Remaining(data, idx', k) <= Remaining(data, idx, k)
    ensures (exists j :: 0 <= j < k && idx[j] < idx'[j]) ==> Remaining(data, idx', k) < Remaining(data, idx, k)
  {
    if k > 0 {
      RemainingShrinks(data, idx, idx', k - 1);
    }
  }

  /** While some entry is pending, a row consumes at least one. */
  lemma AdvanceConsumes(data: seq<Column>, idx: seq<nat>)
    requires Positions(data, idx) && ScanColumns(data, idx, |data|).hasValue
    ensures var s := ScanColumns(data, idx, |data|);
            Remaining(data, Advanced(data, idx, s.minPlaySteps), |data|) < Remaining(data, idx, |data|)
  {
    var s := ScanColumns(data, idx, |data|);
    ScanAttained(data, idx, |data|);
    RemainingShrinks(data, idx, Advanced(data, idx, s.minPlaySteps), |data|);
  }

  /** The rows `Dump` writes after the header, from the positions `idx`. */
  function MergeRows(data: seq<Column>, idx: seq<nat>): seq<Row>
    requires Positions(data, idx)
    decreases Remaining(data, idx, |data|)
  {
    var s := ScanColumns(data, idx, |data|);
    if !s.hasValue then []
    else
      AdvanceConsumes(data, idx);
      [[Whole(s.minPlaySteps), Whole(s.minUpdateSteps), Decimal(s.minTrainTime)] + Cells(data, idx, s.minPlaySteps)]
        + MergeRows(data, Advanced(data, idx, s.minPlaySteps))
  }

  function Start(data: seq<Column>): (idx: seq<nat>)
    ensures Positions(data, idx) && forall j :: 0 <= j < |data| ==> idx[j] == 0
  {
    seq(|data|, j => 0)
  }

  /** The whole file `Dump` writes. */
  function DumpRows(data: seq<Column>): seq<Row>
  {
    [Header(data)] + MergeRows(data, Start(data))
  }

  /** The decimals at position `pos` over the rows, top to bottom. */
  function PrintedAt(rows: seq<Row>, pos: nat): seq<real>
  {
    if |rows| == 0 then []
    else (if pos < |rows[0]| && rows[0][pos].Decimal? then [rows[0][pos].x] else []) + PrintedAt(rows[1..], pos)
  }

  function Values(entries: seq<Entry>): (vs: seq<real>)
    ensures |vs| == |entries|
  {
    seq(|entries|, i requires 0 <= i < |entries| => entries[i].value)
  }

  /** Every stored entry is printed exactly once, in its own column and in
      its order: column `j` of the merged rows holds exactly the values
      of the column's pending entries. */
  lemma {:induction false} MergePrintsEachOnce(data: seq<Column>, idx: seq<nat>, j: nat)
    requires Positions(data, idx) && j < |data|
    ensures PrintedAt(MergeRows(data, idx), 3 + j) == Values(data[j].entries[idx[j]..])
    decreases Remaining(data, idx, |data|)
  {
    var s := ScanColumns(data, idx, |data|);
    var col := data[j].entries;
    if !s.hasValue {
      ScanHasValue(data, idx, |data|);
      assert !Pending(data, idx, j);
      assert col[idx[j]..] == [];
    } else {
      AdvanceConsumes(data, idx);
      var idx' := Advanced(data, idx, s.minPlaySteps);
      MergePrintsEachOnce(data, idx', j);
      var row := [Whole(s.minPlaySteps), Whole(s.minUpdateSteps), Decimal(s.minTrainTime)] + Cells(data, idx, s.minPlaySteps);
      MergeFirstRow(data, idx);
      PrintedCons(row, MergeRows(data, idx'), 3 + j);
      assert row[3 + j] == Cells(data, idx, s.minPlaySteps)[j];
      if idx[j] < |col| && col[idx[j]].playSteps == s.minPlaySteps {
        ValuesCons(col, idx[j]);
      }
    }
  }

  lemma MergeFirstRow(data: seq<Column>, idx: seq<nat>)
    requires Positions(data, idx) && ScanColumns(data, idx, |data|).hasValue
    ensures var s := ScanColumns(data, idx, |data|);
            MergeRows(data, idx) == [[Whole(s.minPlaySteps), Whole(s.minUpdateSteps), Decimal(s.minTrainTime)] + Cells(data, idx, s.minPlaySteps)]
                                    + MergeRows(data, Advanced(data, idx, s.minPlaySteps))
  {
  }

  lemma PrintedCons(row: Row, rest: seq<Row>, pos: nat)
    ensures PrintedAt([row] + rest, pos) == (if pos < |row| && row[pos].Decimal? then [row[pos].x] else []) + PrintedAt(rest, pos)
  {
    assert ([row] + rest)[1..] == rest;
  }

  lemma ValuesCons(entries: seq<Entry>, i: nat)
    requires i < |entries|
    ensures Values(entries[i..]) == [entries[i].value] + Values(entries[i + 1..])
  {
    assert entries[i..][1..] == entries[i + 1..];
  }

  /** A rewritten file shows, under the header of key `j`, every value ever
      logged under that key, each once and in logging order. */
  lemma DumpPrintsEverything(data: seq<Column>, j: nat)
    requires j < |data|
    ensures PrintedAt(DumpRows(data), 3 + j) == Values(data[j].entries)
  {
    var start := Start(data);
    var header, rest := Header(data), MergeRows(data, start);
    assert header[3 + j] == Name(data[j].key);
    PrintedCons(header, rest, 3 + j);
    assert PrintedAt(DumpRows(data), 3 + j) == PrintedAt(rest, 3 + j);
    MergePrintsEachOnce(data, start, j);
    assert data[j].entries[start[j]..] == data[j].entries;
  }

  /** A column whose `play_steps` never decrease. */
  predicate Nondecreasing(entries: seq<Entry>)
  {
    forall i, k :: 0 <= i <= k < |entries| ==> entries[i].playSteps <= entries[k].playSteps
  }

  /** A row never precedes a row with smaller play_steps when every column
      is in order: the next row's minimum is at least this row's. */
  lemma NextRowNotSmaller(data: seq<Column>, idx: seq<nat>)
    requires Positions(data, idx) && ScanColumns(data, idx, |data|).hasValue
    requires forall j :: 0 <= j < |data| ==> Nondecreasing(data[j].entries)
    ensures var s := ScanColumns(data, idx, |data|);
            s.minPlaySteps <= ScanColumns(data, Advanced(data, idx, s.minPlaySteps), |data|).minPlaySteps
  {
    var s := ScanColumns(data, idx, |data|);
    var idx' := Advanced(data, idx, s.minPlaySteps);
    ScanBelow(data, idx, |data|);
    var s' := ScanColumns(data, idx', |data|);
    if !s'.hasValue {
      ScanSentinel(data, idx', |data|);
    } else {
      ScanAttained(data, idx', |data|);
      var j :| 0 <= j < |data| && Pending(data, idx', j) && data[j].entries[idx'[j]].playSteps == s'.minPlaySteps;
      if idx'[j] != idx[j] {
        assert data[j].entries[idx[j]].playSteps <= data[j].entries[idx'[j]].playSteps;
      }
    }
  }

  /** If every column's play_steps are nondecreasing, so are the merged
      rows'. */
  lemma {:induction false} MergeNondecreasing(data: seq<Column>, idx: seq<nat>)
    requires Positions(data, idx)
    requires forall j :: 0 <= j < |data| ==> Nondecreasing(data[j].entries)
    ensures var rows := MergeRows(data, idx);
            && (forall r :: 0 <= r < |rows| ==> |rows[r]| > 0 && rows[r][0].Whole?)
            && (|rows| > 0 ==> rows[0][0] == Whole(ScanColumns(data, idx, |data|).minPlaySteps))
            && (forall r :: 0 <= r < |rows| - 1 ==> rows[r][0].n <= rows[r + 1][0].n)
    decreases Remaining(data, idx, |data|)
  {
    var s := ScanColumns(data, idx, |data|);
    if s.hasValue {
      AdvanceConsumes(data, idx);
      var idx' := Advanced(data, idx, s.minPlaySteps);
      MergeNondecreasing(data, idx');
      NextRowNotSmaller(data, idx);
      var rows: seq<Row> := MergeRows(data, idx);
      var rest: seq<Row> := MergeRows(data, idx');
      assert rows == [rows[0]] + rest;
      forall r: int | 0 <= r < |rows| - 1
        ensures rows[r][0].n <= rows[r + 1][0].n
      {
        if r > 0 {
          assert rows[r] == rest[r - 1] && rows[r + 1] == rest[r];
        }
      }
    }
  }

  /** No more rows than entries. */
  lemma {:induction false} MergeRowCount(data: seq<Column>, idx: seq<nat>)
    requires Positions(data, idx)
    ensures |MergeRows(data, idx)| <= Remaining(data, idx, |data|)
    decreases Remaining(data, idx, |data|)
  {
    if ScanColumns(data, idx, |data|).hasValue {
      AdvanceConsumes(data, idx);
      MergeRowCount(data, Advanced(data, idx, ScanColumns(data, idx, |data|).minPlaySteps));
    }
  }

  // ---------------------------------------------------------------------
  // The logger

  class Logger {
    /** Whether the log file opened; nothing is stored when it did not. */
    const fileOpen: bool
    var data: seq<Column>
    var file: seq<Row>

    ghost predicate Valid()
      reads this
    {
      SortedColumns(data)
    }

    /** The file is opened for writing, hence empty. */
    constructor (fileOpen: bool)
      ensures Valid() && this.fileOpen == fileOpen && data == [] && file == []
    {
      this.fileOpen := fileOpen;
      data := [];
      file := [];
    }

    /** The file branch of `Log`: every key gains one entry; if some key
        was new the file is rewritten as a `Dump` of all data, this call's
        included, otherwise one row is appended. */
    method Log(playSteps: U64, updateSteps: U64, trainTime: real, values: seq<(string, real)>)
      requires Valid() && SortedValues(values)
      modifies this`data, this`file
      ensures Valid()
      ensures !fileOpen ==> data == old(data) && file == old(file)
      ensures fileOpen ==> data == Logged(old(data), values, |values|, playSteps, updateSteps, trainTime)
      ensures fileOpen ==> file == if HasNewKey(old(data), values) then DumpRows(data)
                                   else old(file) + [LogRow(data, playSteps, updateSteps, trainTime, values)]
    {
      if !fileOpen {
        return;
      }
      var newColumns := Store(playSteps, updateSteps, trainTime, values);
      if newColumns {
        file := [];
        Dump();
      } else {
        var row := LogRow(data, playSteps, updateSteps, trainTime, values);
        file := file + [row];
      }
    }

    /** The loop over the values: a column per new key, one entry per key. */
    method Store(playSteps: U64, updateSteps: U64, trainTime: real, values: seq<(string, real)>) returns (newColumns: bool)
      requires Valid() && SortedValues(values)
      modifies this`data
      ensures Valid() && data == Logged(old(data), values, |values|, playSteps, updateSteps, trainTime)
      ensures newColumns == HasNewKey(old(data), values)
    {
      ghost var start := data;
      newColumns := false;
      var i := 0;
      while i < |values|
        invariant 0 <= i <= |values|
        invariant data == Logged(start, values, i, playSteps, updateSteps, trainTime) && SortedColumns(data)
        invariant newColumns == HasNewKey(start, values[..i])
      {
        var key, e := values[i].0, Entry(playSteps, updateSteps, trainTime, values[i].1);
        StoreStep(start, values, i, playSteps, updateSteps, trainTime);
        var isNew := StoreEntry(key, e);
        assert data == Logged(start, values, i + 1, playSteps, updateSteps, trainTime);
        assert isNew == (key !in Keys(start));
        newColumns := newColumns || isNew;
        i := i + 1;
      }
      assert values[..|values|] == values;
    }

    /** One key of the loop: a missing column is created, then the entry
        appended. */
    method StoreEntry(key: string, e: Entry) returns (isNew: bool)
      modifies this`data
      ensures isNew == (key !in Keys(old(data))) && data == LogKey(old(data), key, e)
    {
      isNew := key !in Keys(data);
      if isNew {
        data := InsertColumn(data, key);
      }
      data := AppendEntry(data, key, e);
    }

    /** `Dump`: the header, then rows until every column is exhausted. */
    method Dump()
      modifies this`file
      ensures file == old(file) + DumpRows(data)
    {
      ghost var written := old(file) + DumpRows(data);
      var idx := Start(data);
      Regroup(file, Header(data), MergeRows(data, idx));
      file := file + [Header(data)];
      while true
        invariant Positions(data, idx)
        invariant written == file + MergeRows(data, idx)
        decreases Remaining(data, idx, |data|)
      {
        var s := FindMinimum(idx);
        if !s.hasValue {
          break;
        }
        var row, idx' := EmitRow(idx, s);
        MergeFirstRow(data, idx);
        AdvanceConsumes(data, idx);
        Regroup(file, row, MergeRows(data, idx'));
        file := file + [row];
        idx := idx';
      }
    }

    /** The first inner loop of `Dump`. */
    method FindMinimum(idx: seq<nat>) returns (s: Scan)
      requires Positions(data, idx)
      ensures s == ScanColumns(data, idx, |data|)
    {
      s := Scan(false, U64Max, 0, 0.0);
      var j := 0;
      while j < |data|
        invariant 0 <= j <= |data| && s == ScanColumns(data, idx, j)
      {
        if idx[j] < |data[j].entries| {
          s := s.(hasValue := true);
          var e := data[j].entries[idx[j]];
          if e.playSteps < s.minPlaySteps {
            s := Scan(true, e.playSteps, e.updateSteps, e.trainTime);
          }
        }
        j := j + 1;
      }
    }

    /** The second inner loop of `Dump`: the row's cells and the columns'
        new positions. */
    method EmitRow(idx: seq<nat>, s: Scan) returns (row: Row, idx': seq<nat>)
      requires Positions(data, idx)
      ensures row == [Whole(s.minPlaySteps), Whole(s.minUpdateSteps), Decimal(s.minTrainTime)] + Cells(data, idx, s.minPlaySteps)
      ensures idx' == Advanced(data, idx, s.minPlaySteps)
    {
      row := [Whole(s.minPlaySteps), Whole(s.minUpdateSteps), Decimal(s.minTrainTime)];
      idx' := idx;
      var j := 0;
      while j < |data|
        invariant 0 <= j <= |data| && |idx'| == |data|
        invariant row == [Whole(s.minPlaySteps), Whole(s.minUpdateSteps), Decimal(s.minTrainTime)] + Cells(data, idx, s.minPlaySteps)[..j]
        invariant forall k :: 0 <= k < j ==> idx'[k] == Advanced(data, idx, s.minPlaySteps)[k]
        invariant forall k :: j <= k < |data| ==> idx'[k] == idx[k]
      {
        var cells := Cells(data, idx, s.minPlaySteps);
        assert cells[..j + 1] == cells[..j] + [cells[j]];
        if idx[j] < |data[j].entries| && data[j].entries[idx[j]].playSteps == s.minPlaySteps {
          row := row + [Decimal(data[j].entries[idx[j]].value)];
          idx' := idx'[j := idx[j] + 1];
        } else {
          row := row + [Blank];
        }
        j := j + 1;
      }
      assert Cells(data, idx, s.minPlaySteps)[..|data|] == Cells(data, idx, s.minPlaySteps);
    }
  }
}
