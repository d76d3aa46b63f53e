/**
 * The row batcher (src/queryboost/utils/data.py): input rows of several
 * shapes are checked, given a schema, and cut into column-oriented batches
 * by a single-pass generator.
 */
module Data {
  import opened Common
  import opened Exceptions

  /** A cell value. Floats and other Python objects are kept opaque, by their repr. */
  datatype Value =
    | NoneValue
    | BoolValue(b: bool)
    | IntValue(i: int)
    | StrValue(s: string)
    | OpaqueValue(repr: string)

  /** A Python dict row: its keys in insertion order, and its cells. */
  datatype Record = Record(keys: seq<string>, cells: map<string, Value>)

  predicate Distinct(keys: seq<string>) {
    forall i, j :: 0 <= i < j < |keys| ==> keys[i] != keys[j]
  }

  /** A dict: its keys are distinct, each has a cell, and there are no other cells. */
  predicate IsDict(r: Record) {
    Distinct(r.keys) && |r.cells| == |r.keys| && forall i :: 0 <= i < |r.keys| ==> r.keys[i] in r.cells
  }

  type Row = r: Record | IsDict(r) witness Record([], map[])

  /** A dict of lists (a batch): column names in order, and each column's values. */
  datatype Columns = Columns(names: seq<string>, lists: map<string, seq<Value>>)

  /** A materialized dataset: its column names and its rows. */
  datatype Table = Table(names: seq<string>, rows: seq<Row>)

  /** The shapes `DataBatcher` is given. */
  datatype Source =
    | ListInput(data: seq<Row>)
      /** A Hugging Face `Dataset`. */
    | DatasetInput(table: Table)
      /** A Hugging Face `IterableDataset`; `splitRows` is the row count its split metadata records, if any. */
    | IterableDatasetInput(table: Table, splitRows: Option<nat>)
      /** A forward-only iterator of dict rows, given by everything it would yield. */
    | IteratorInput(items: seq<Row>)
      /** Any other object; `typeRepr` is how `type(data)` prints. */
    | OtherInput(typeRepr: string)

  /** Which generator the batcher runs. */
  datatype Strategy =
    | SliceDataset      // `_batch_dataset`
    | IterateStreamed   // `_batch_iterable_dataset`
    | ChunkIterator     // `_batch_iterator`

  /** What the constructor settles: schema names, row count, generator, and the rows it will go over. */
  datatype Setup = Setup(schema: seq<string>, numRows: Option<nat>, strategy: Strategy, rows: seq<Row>)

  const InferenceColumn: string := "_inference"
  const ErrorColumn: string := "_error"
  const BatchSizeMessage: string := "Batch size must be greater than 0."
  /** The reserved names are joined in frozenset iteration order; this is one of the two orders. */
  const ReservedColumnsMessage: string := "Reserved column names are not allowed: _inference, _error."

  predicate IsReserved(name: string) {
    name == InferenceColumn || name == ErrorColumn
  }

  /** How `BatchableData`, a `typing.Union`, prints in an f-string (Python 3.10 to 3.13). */
  const SupportedTypes: string :=
    "typing.Union[datasets.arrow_dataset.Dataset, datasets.iterable_dataset.IterableDataset, list[dict[str, typing.Any]], typing.Iterator[dict[str, typing.Any]]]"

  function UnsupportedTypeMessage(typeRepr: string): string {
    "Unsupported data type: " + typeRepr + ". Please use one of the following supported types: " + SupportedTypes + "."
  }

  /** The value a dict-of-lists conversion puts for `k`: the row's cell, or None when the row lacks it. */
  function Cell(row: Row, k: string): Value {
    if k in row.cells then row.cells[k] else NoneValue
  }

  /** The list of column `k`: one cell per row, in row order. */
  function Column(rows: seq<Row>, k: string): (c: seq<Value>)
    ensures |c| == |rows|
    ensures forall i :: 0 <= i < |rows| ==> c[i] == Cell(rows[i], k)
  {
    if rows == [] then [] else Column(rows[..|rows| - 1], k) + [Cell(rows[|rows| - 1], k)]
  }

  /** The rows as a dict of lists over the columns `names`. */
  function Columnar(names: seq<string>, rows: seq<Row>): (c: Columns)
    ensures c.names == names
  {
    Columns(names, map k | k in names :: Column(rows, k))
  }

  /** The columns are the names' columns, and nothing else. */
  lemma ColumnarLists(names: seq<string>, rows: seq<Row>)
    ensures var c := Columnar(names, rows);
      (forall k :: k in c.lists <==> k in names) &&
      forall k :: k in names ==> c.lists[k] == Column(rows, k)
  {
  }

  /** `Dataset.from_list(data)`: the first row's keys are the columns; a missing cell becomes None. */
  function FromList(data: seq<Row>): (t: Table)
    ensures t.rows == data
    ensures t.names == if data == [] then [] else data[0].keys
  {
    Table(if data == [] then [] else data[0].keys, data)
  }

  // ---------------------------------------------------------------------
  // invert_list_of_dicts
  // ---------------------------------------------------------------------

  /** The first of `keys` that `row` lacks. */
  function FirstMissing(row: Row, keys: seq<string>): (r: Option<string>)
    ensures r.None? <==> forall k :: k in keys ==> k in row.cells
    ensures r.Some? ==> r.value in keys && r.value !in row.cells
  {
    if keys == [] then None
    else if keys[0] !in row.cells then Some(keys[0])
    else FirstMissing(row, keys[1..])
  }

  /** The first key, in row-major order, that some row lacks: the `KeyError` the nested loops raise. */
  function MissingKey(rows: seq<Row>, keys: seq<string>): (r: Option<string>)
    ensures r.None? <==> forall i, k :: 0 <= i < |rows| && k in keys ==> k in rows[i].cells
    ensures r.Some? ==> r.value in keys && exists i :: 0 <= i < |rows| && r.value !in rows[i].cells
  {
    if rows == [] then None
    else FirstMissing(rows[0], keys).OrElse(MissingKey(rows[1..], keys))
  }

  /** What `str()` of a `KeyError` for `key` gives. */
  function KeyErrorFor(key: string): Exc {
    Exc(KeyError, "'" + key + "'")
  }

  /** `invert_list_of_dicts(data)`, as a value: the dict of lists, or the `KeyError` raised. */
  function Inversion(data: seq<Row>): Result<Columns, Exc> {
    if data == [] then Success(Columns([], map[]))
    else match MissingKey(data, data[0].keys)
      case Some(k) => Failure(KeyErrorFor(k))
      case None => Success(Columnar(data[0].keys, data))
  }

  /** One more row adds its cell at the end of every column. */
  lemma ColumnGrows(done: seq<Row>, row: Row, k: string)
    ensures Column(done + [row], k) == Column(done, k) + [Cell(row, k)]
  {
    assert (done + [row])[..|done|] == done;
  }

  /** The lists before `row` is appended: none before the first row, then one per key. */
  ghost function ListsBefore(done: seq<Row>, keys: seq<string>): map<string, seq<Value>> {
    if done == [] then map[] else Columnar(keys, done).lists
  }

  /**
   * The lists after the rows `done` and the first `j` keys of `row`, built
   * the way the inner loop builds them: each step appends one cell to its
   * key's list, creating the list when the key has none.
   */
  ghost function PartlyAppended(done: seq<Row>, row: Row, keys: seq<string>, j: nat): map<string, seq<Value>>
    requires j <= |keys|
  {
    if j == 0 then ListsBefore(done, keys)
    else
      var m := PartlyAppended(done, row, keys, j - 1);
      var key := keys[j - 1];
      m[key := (if key in m then m[key] else []) + [Cell(row, key)]]
  }

  /** After `j` keys, the first `j` keys' lists hold `row`'s cell and the others do not. */
  lemma {:induction false} PartlyAppendedAt(done: seq<Row>, row: Row, keys: seq<string>, j: nat, k: string)
    requires Distinct(keys) && j <= |keys|
    ensures k in PartlyAppended(done, row, keys, j) <==> k in keys && (done != [] || k in keys[..j])
    ensures k in PartlyAppended(done, row, keys, j) ==>
      PartlyAppended(done, row, keys, j)[k] == if k in keys[..j] then Column(done + [row], k) else Column(done, k)
  {
    if j > 0 {
      PartlyAppendedAt(done, row, keys, j - 1, k);
      var key := keys[j - 1];
      assert keys[..j] == keys[..j - 1] + [key];
      if k == key {
        assert key !in keys[..j - 1];
        ColumnGrows(done, row, key);
      }
    }
  }

  lemma PartlyAppendedNext(done: seq<Row>, row: Row, keys: seq<string>, j: nat)
    requires j < |keys| && keys[j] in row.cells
    ensures var m := PartlyAppended(done, row, keys, j);
      PartlyAppended(done, row, keys, j + 1) ==
        m[keys[j] := (if keys[j] in m then m[keys[j]] else []) + [row.cells[keys[j]]]]
  {
  }

  /** The `j`-th key already has a list exactly when some row came before `row`. */
  lemma KeyListExists(done: seq<Row>, row: Row, keys: seq<string>, j: nat)
    requires Distinct(keys) && j < |keys|
    ensures keys[j] in PartlyAppended(done, row, keys, j) <==> done != []
  {
    PartlyAppendedAt(done, row, keys, j, keys[j]);
    assert keys[j] !in keys[..j];
  }

  /** The first missing key is the first of `keys` that `row` lacks. */
  lemma {:induction false} FirstMissingAt(row: Row, keys: seq<string>, j: nat)
    requires j < |keys| && keys[j] !in row.cells
    requires forall k :: 0 <= k < j ==> keys[k] in row.cells
    ensures FirstMissing(row, keys) == Some(keys[j])
  {
    if j > 0 {
      FirstMissingAt(row, keys[1..], j - 1);
    }
  }

  /** Once every key is done, the lists are the columns of `done + [row]`. */
  /** After every key, a key has a list exactly when it is one of `keys`, and the list is its column. */
  lemma PartlyAppendedAll(done: seq<Row>, row: Row, keys: seq<string>, k: string)
    requires Distinct(keys)
    ensures var m := PartlyAppended(done, row, keys, |keys|);
      (k in m <==> k in keys) && (k in keys ==> m[k] == Column(done + [row], k))
  {
    assert keys[..|keys|] == keys;
    PartlyAppendedAt(done, row, keys, |keys|, k);
  }

  lemma PartlyAppendedEnd(done: seq<Row>, row: Row, keys: seq<string>)
    requires Distinct(keys)
    ensures PartlyAppended(done, row, keys, |keys|) == Columnar(keys, done + [row]).lists
  {
    var m := PartlyAppended(done, row, keys, |keys|);
    var c := Columnar(keys, done + [row]).lists;
    ColumnarLists(keys, done + [row]);
    assert m.Keys == c.Keys by {
      forall k ensures k in m <==> k in c {
        PartlyAppendedAll(done, row, keys, k);
      }
    }
    assert forall k :: k in c ==> m[k] == c[k] by {
      forall k | k in c ensures m[k] == c[k] {
        PartlyAppendedAll(done, row, keys, k);
      }
    }
    SameMaps(m, c);
  }

  lemma SameMaps<K, V>(m: map<K, V>, c: map<K, V>)
    requires m.Keys == c.Keys && forall k :: k in c ==> m[k] == c[k]
    ensures m == c
  {
  }

  /**
   * The inner loop of `invert_list_of_dicts`: appends `row[key]` for each
   * key to the list `inverse` holds for it (creating the list, and so
   * fixing its place in the dict's order, on first use), until a key is
   * missing from the row. `done` are the rows already appended.
   */
  method AppendRow(inverse: map<string, seq<Value>>, order: seq<string>, keys: seq<string>, row: Row, ghost done: seq<Row>)
    returns (missing: Option<string>, inverse': map<string, seq<Value>>, order': seq<string>)
    requires Distinct(keys)
    requires order == if done == [] then [] else keys
    requires inverse == ListsBefore(done, keys)
    ensures missing == FirstMissing(row, keys)
    ensures missing.None? ==> order' == keys && inverse' == Columnar(keys, done + [row]).lists
  {
    inverse', order' := inverse, order;
    var j := 0;
    while j < |keys|
      invariant 0 <= j <= |keys|
      invariant forall k :: 0 <= k < j ==> keys[k] in row.cells
      invariant order' == if done == [] then keys[..j] else keys
      invariant inverse' == PartlyAppended(done, row, keys, j)
    {
      var key := keys[j];
      assert keys[..j + 1] == keys[..j] + [key];
      if key !in row.cells {
        FirstMissingAt(row, keys, j);
        return Some(key), inverse', order';
      }
      KeyListExists(done, row, keys, j);
      var column := if key in inverse' then inverse'[key] else [];
      if key !in inverse' {
        order' := order' + [key];
      }
      PartlyAppendedNext(done, row, keys, j);
      inverse' := inverse'[key := column + [row.cells[key]]];
      j := j + 1;
    }
    assert keys[..j] == keys;
    PartlyAppendedEnd(done, row, keys);
    return None, inverse', order';
  }

  lemma SliceStep<T>(s: seq<T>, i: nat)
    requires i < |s|
    ensures s[i..][0] == s[i] && s[i..][1..] == s[i + 1..]
    ensures s[..i] + [s[i]] == s[..i + 1]
  {
  }

  /** Rows that each have every key give no `KeyError`. */
  lemma {:induction false} NoneMissing(rows: seq<Row>, keys: seq<string>)
    requires forall j :: 0 <= j < |rows| ==> FirstMissing(rows[j], keys).None?
    ensures MissingKey(rows, keys).None?
  {
  }

  /** The `KeyError` comes from the first row that lacks a key. */
  lemma {:induction false} MissingFrom(rows: seq<Row>, keys: seq<string>, i: nat)
    requires i < |rows| && FirstMissing(rows[i], keys).Some?
    requires forall j :: 0 <= j < i ==> FirstMissing(rows[j], keys).None?
    ensures MissingKey(rows, keys) == FirstMissing(rows[i], keys)
    decreases i
  {
    if i > 0 {
      assert FirstMissing(rows[0], keys).None?;
      forall j | 0 <= j < i - 1 ensures FirstMissing(rows[1..][j], keys).None? {
        assert rows[1..][j] == rows[j + 1];
      }
      MissingFrom(rows[1..], keys, i - 1);
    }
  }

  lemma InversionFailsAt(data: seq<Row>, i: nat)
    requires i < |data| && FirstMissing(data[i], data[0].keys).Some?
    requires forall j :: 0 <= j < i ==> FirstMissing(data[j], data[0].keys).None?
    ensures Inversion(data) == Failure(KeyErrorFor(FirstMissing(data[i], data[0].keys).value))
  {
    MissingFrom(data, data[0].keys, i);
  }

  lemma InversionSucceeds(data: seq<Row>, i: nat, inverse: map<string, seq<Value>>)
    requires data != [] && i == |data|
    requires forall j :: 0 <= j < |data| ==> FirstMissing(data[j], data[0].keys).None?
    requires inverse == ListsBefore(data[..i], data[0].keys)
    ensures Inversion(data) == Success(Columns(data[0].keys, inverse))
  {
    NoneMissing(data, data[0].keys);
    assert data[..i] == data;
  }

  /**
   * `invert_list_of_dicts`: an empty input gives `{}`; otherwise every row
   * is appended, key by key, over the first row's keys.
   */
  method InvertListOfDicts(data: seq<Row>) returns (r: Result<Columns, Exc>)
    ensures r == Inversion(data)
  {
    if |data| == 0 {
      return Success(Columns([], map[]));
    }
    var keys := data[0].keys;
    var inverse: map<string, seq<Value>> := map[];
    var order: seq<string> := [];
    var i := 0;
    while i < |data|
      invariant 0 <= i <= |data|
      invariant forall j :: 0 <= j < i ==> FirstMissing(data[j], keys).None?
      invariant order == if i == 0 then [] else keys
      invariant inverse == ListsBefore(data[..i], keys)
    {
      SliceStep(data, i);
      var missing;
      missing, inverse, order := AppendRow(inverse, order, keys, data[i], data[..i]);
      if missing.Some? {
        InversionFailsAt(data, i);
        return Failure(KeyErrorFor(missing.value));
      }
      i := i + 1;
    }
    InversionSucceeds(data, i, inverse);
    return Success(Columns(order, inverse));
  }

  /** An empty input inverts to `{}`. */
  lemma EmptyInversion()
    ensures Inversion([]) == Success(Columns([], map[]))
  {
  }

  /**
   * Inversion succeeds exactly when every row has all of the first row's
   * keys; then the names are the first row's keys in order, every list has
   * one value per row, and out[k][i] is data[i][k] (later rows' extra keys
   * are dropped).
   */
  lemma InversionShape(data: seq<Row>)
    requires data != []
    ensures Inversion(data).Success? <==> forall i, k :: 0 <= i < |data| && k in data[0].keys ==> k in data[i].cells
    ensures Inversion(data).Success? ==>
      var c := Inversion(data).value;
      c.names == data[0].keys &&
      (forall k :: k in c.lists <==> k in data[0].keys) &&
      forall k, i :: k in data[0].keys && 0 <= i < |data| ==> |c.lists[k]| == |data| && c.lists[k][i] == data[i].cells[k]
    ensures Inversion(data).Failure? ==>
      exists i, k :: 0 <= i < |data| && k in data[0].keys && k !in data[i].cells &&
        Inversion(data).error == KeyErrorFor(k)
  {
    if Inversion(data).Failure? {
      var k := MissingKey(data, data[0].keys).value;
      var i :| 0 <= i < |data| && k !in data[i].cells;
    }
  }

  // ---------------------------------------------------------------------
  // Chunking
  // ---------------------------------------------------------------------

  /** `s` cut into consecutive pieces of `b` items, the last one possibly shorter. */
  function Chunks<T>(s: seq<T>, b: nat): seq<seq<T>>
    requires b >= 1
    decreases |s|
  {
    if s == [] then [] else [s[..Min(b, |s|)]] + Chunks(s[Min(b, |s|)..], b)
  }

  function Flatten<T>(ss: seq<seq<T>>): seq<T> {
    if ss == [] then [] else ss[0] + Flatten(ss[1..])
  }

  /** ceil(n / b) pieces, one per start 0, b, 2b, ... below n. */
  lemma {:induction false} ChunksCount<T>(s: seq<T>, b: nat)
    requires b >= 1
    ensures |Chunks(s, b)| * b - b < |s| <= |Chunks(s, b)| * b
    decreases |s|
  {
    if s != [] {
      var n := Min(b, |s|);
      ChunksCount(s[n..], b);
      var k := |Chunks(s[n..], b)|;
      assert |Chunks(s, b)| == k + 1;
      assert (k + 1) * b == k * b + b;
      if |s| > b {
        assert |s[n..]| == |s| - b;
      } else {
        assert s[n..] == [];
        assert k == 0;
      }
    }
  }

  /** Every piece is `b` long except the last, which holds between 1 and `b` items. */
  lemma {:induction false} ChunkSizes<T>(s: seq<T>, b: nat)
    requires b >= 1
    ensures forall i :: 0 <= i < |Chunks(s, b)| - 1 ==> |Chunks(s, b)[i]| == b
    ensures Chunks(s, b) != [] ==> 1 <= |Chunks(s, b)[|Chunks(s, b)| - 1]| <= b
    decreases |s|
  {
    if s != [] {
      var n := Min(b, |s|);
      ChunkSizes(s[n..], b);
      var rest := Chunks(s[n..], b);
      assert Chunks(s, b) == [s[..n]] + rest;
      if rest == [] {
        assert |Chunks(s, b)| == 1;
      } else {
        assert |s| > b;
        forall i | 0 <= i < |Chunks(s, b)| - 1 ensures |Chunks(s, b)[i]| == b {
          if i > 0 {
            assert Chunks(s, b)[i] == rest[i - 1];
          }
        }
      }
    }
  }

  /** Concatenating the pieces gives back the input, in order. */
  lemma {:induction false} ChunksFlatten<T>(s: seq<T>, b: nat)
    requires b >= 1
    ensures Flatten(Chunks(s, b)) == s
    decreases |s|
  {
    if s != [] {
      var n := Min(b, |s|);
      ChunksFlatten(s[n..], b);
      var c := Chunks(s, b);
      assert c[0] == s[..n] && c[1..] == Chunks(s[n..], b);
      assert s[..n] + s[n..] == s;
    }
  }

  lemma SliceOfDrop<T>(s: seq<T>, n: nat, lo: nat, hi: nat)
    requires n <= |s| && lo <= hi <= |s| - n
    ensures s[n..][lo..hi] == s[n + lo..n + hi]
  {
  }

  lemma MultiplyPredecessor(i: nat, b: nat)
    requires i > 0
    ensures (i - 1) * b + b == i * b
  {
  }

  /** Piece `i` is the slice `s[i * b : i * b + b]`, clamped to the end. */
  lemma {:induction false} ChunkIsSlice<T>(s: seq<T>, b: nat, i: nat)
    requires b >= 1 && i < |Chunks(s, b)|
    ensures i * b < |s|
    ensures Chunks(s, b)[i] == s[i * b..Min(i * b + b, |s|)]
    decreases i
  {
    if i > 0 {
      var n := Min(b, |s|);
      var t := s[n..];
      assert Chunks(s, b) == [s[..n]] + Chunks(t, b);
      assert Chunks(s, b)[i] == Chunks(t, b)[i - 1];
      assert t != [] && n == b && |t| == |s| - b;
      ChunkIsSlice(t, b, i - 1);
      var p, q := (i - 1) * b, i * b;
      MultiplyPredecessor(i, b);
      var hi := Min(p + b, |t|);
      assert b + p == q && b + hi == Min(q + b, |s|);
      SliceOfDrop(s, b, p, hi);
      assert Chunks(t, b)[i - 1] == s[b + p..b + hi];
    } else {
      assert Chunks(s, b)[0] == s[..Min(b, |s|)];
    }
  }

  // ---------------------------------------------------------------------
  // The generators
  // ---------------------------------------------------------------------

  /** What a generator yields before it stops: its batches, then the exception it raises, if any. */
  datatype Generated = Generated(batches: seq<Columns>, error: Option<Exc>)

  /**
   * The batches of `rows`, `b` at a time: as the dataset's own column lists
   * for a materialized or streamed dataset, and through
   * `invert_list_of_dicts` for an iterator, whose first failing chunk ends
   * the generator with that chunk's `KeyError`.
   */
  function Generate(strategy: Strategy, schema: seq<string>, rows: seq<Row>, b: nat): Generated
    requires b >= 1
    decreases |rows|
  {
    if rows == [] then Generated([], None)
    else
      var n := Min(b, |rows|);
      var rest := Generate(strategy, schema, rows[n..], b);
      if strategy == ChunkIterator then
        match Inversion(rows[..n])
        case Failure(e) => Generated([], Some(e))
        case Success(c) => Generated([c] + rest.batches, rest.error)
      else
        Generated([Columnar(schema, rows[..n])] + rest.batches, rest.error)
  }

  /** One step of a generator that has consumed `cursor` rows: the next chunk, then the rest. */
  lemma GenerateFrom(strategy: Strategy, schema: seq<string>, rows: seq<Row>, cursor: nat, b: nat, chunk: seq<Row>, rest: Generated)
    requires b >= 1 && cursor < |rows|
    requires chunk == rows[cursor..cursor + Min(b, |rows| - cursor)]
    requires rest == Generate(strategy, schema, rows[cursor + Min(b, |rows| - cursor)..], b)
    ensures strategy != ChunkIterator ==>
      Generate(strategy, schema, rows[cursor..], b) == Generated([Columnar(schema, chunk)] + rest.batches, rest.error)
    ensures strategy == ChunkIterator && Inversion(chunk).Failure? ==>
      Generate(strategy, schema, rows[cursor..], b) == Generated([], Some(Inversion(chunk).error))
    ensures strategy == ChunkIterator && Inversion(chunk).Success? ==>
      Generate(strategy, schema, rows[cursor..], b) == Generated([Inversion(chunk).value] + rest.batches, rest.error)
  {
    var n := Min(b, |rows| - cursor);
    assert rows[cursor..][..n] == chunk;
    assert rows[cursor..][n..] == rows[cursor + n..];
  }

  function MapColumnar(schema: seq<string>, pieces: seq<seq<Row>>): (r: seq<Columns>)
    ensures |r| == |pieces|
    ensures forall i :: 0 <= i < |pieces| ==> r[i] == Columnar(schema, pieces[i])
  {
    if pieces == [] then [] else [Columnar(schema, pieces[0])] + MapColumnar(schema, pieces[1..])
  }

  /** A dataset generator never raises, and yields one batch per slice `data[i : i + b]`. */
  lemma {:induction false} DatasetBatchesAreSlices(strategy: Strategy, schema: seq<string>, rows: seq<Row>, b: nat)
    requires b >= 1 && strategy != ChunkIterator
    ensures Generate(strategy, schema, rows, b) == Generated(MapColumnar(schema, Chunks(rows, b)), None)
    decreases |rows|
  {
    if rows != [] {
      var n := Min(b, |rows|);
      DatasetBatchesAreSlices(strategy, schema, rows[n..], b);
    }
  }

  /**
   * An iterator's batches are the inversions of its consecutive chunks, up
   * to the first chunk that fails, whose error ends the generator.
   */
  lemma {:induction false} IteratorBatchesAreInvertedChunks(schema: seq<string>, rows: seq<Row>, b: nat)
    requires b >= 1
    ensures var g := Generate(ChunkIterator, schema, rows, b);
      var pieces := Chunks(rows, b);
      |g.batches| <= |pieces| &&
      (forall i :: 0 <= i < |g.batches| ==> Inversion(pieces[i]) == Success(g.batches[i])) &&
      (g.error.None? <==> |g.batches| == |pieces|) &&
      (g.error.Some? ==> Inversion(pieces[|g.batches|]) == Failure(g.error.value))
    decreases |rows|
  {
    if rows != [] {
      var n := Min(b, |rows|);
      IteratorBatchesAreInvertedChunks(schema, rows[n..], b);
      var pieces := Chunks(rows, b);
      assert pieces[0] == rows[..n] && pieces[1..] == Chunks(rows[n..], b);
      var g := Generate(ChunkIterator, schema, rows, b);
      if Inversion(rows[..n]).Success? {
        var rest := Generate(ChunkIterator, schema, rows[n..], b);
        assert g.batches == [Inversion(rows[..n]).value] + rest.batches;
        forall i | 0 <= i < |g.batches| ensures Inversion(pieces[i]) == Success(g.batches[i]) {
          if i > 0 {
            assert pieces[i] == pieces[1..][i - 1];
          }
        }
      }
    }
  }

  /** An iterator whose rows all share the first row's keys yields every chunk, all with the schema's columns. */
  lemma {:induction false} UniformIteratorNeverRaises(schema: seq<string>, rows: seq<Row>, b: nat)
    requires b >= 1
    requires forall i :: 0 <= i < |rows| ==> rows[i].keys == schema
    ensures Generate(ChunkIterator, schema, rows, b) == Generated(MapColumnar(schema, Chunks(rows, b)), None)
    decreases |rows|
  {
    if rows != [] {
      var n := Min(b, |rows|);
      UniformIteratorNeverRaises(schema, rows[n..], b);
      var chunk := rows[..n];
      assert chunk[0].keys == schema;
      assert MissingKey(chunk, schema) == None by {
        forall i, k | 0 <= i < |chunk| && k in schema ensures k in chunk[i].cells {
          assert chunk[i] == rows[i];
        }
      }
    }
  }

  // ---------------------------------------------------------------------
  // The constructor's decisions
  // ---------------------------------------------------------------------

  function ReservedCheck(setup: Setup): (r: Result<Setup, Exc>)
    ensures r.Success? <==> forall i :: 0 <= i < |setup.schema| ==> !IsReserved(setup.schema[i])
  {
    if exists i :: 0 <= i < |setup.schema| && IsReserved(setup.schema[i]) then
      Failure(Exc(Queryboost(DataColumnError), ReservedColumnsMessage))
    else Success(setup)
  }

  /**
   * `DataBatcher.__init__(data, batch_size)` as a value: the batch size is
   * checked first, then the input's shape decides schema, row count and
   * generator, then the schema is checked for reserved names.
   */
  function Resolve(data: Source, batchSize: int): (r: Result<Setup, Exc>)
    ensures batchSize < 1 ==> r == Failure(Exc(Queryboost(BatchSizeError), BatchSizeMessage))
    ensures batchSize >= 1 && data.OtherInput? ==>
      r == Failure(Exc(Queryboost(DataTypeError), UnsupportedTypeMessage(data.typeRepr)))
    ensures r.Success? ==>
      batchSize >= 1 && !data.OtherInput? &&
      (forall i :: 0 <= i < |r.value.schema| ==> !IsReserved(r.value.schema[i]))
  {
    if batchSize < 1 then Failure(Exc(Queryboost(BatchSizeError), BatchSizeMessage))
    else match data
      case ListInput(rows) =>
        var t := FromList(rows);
        ReservedCheck(Setup(t.names, Some(|t.rows|), SliceDataset, t.rows))
      case DatasetInput(t) =>
        ReservedCheck(Setup(t.names, Some(|t.rows|), SliceDataset, t.rows))
      case IterableDatasetInput(t, split) =>
        ReservedCheck(Setup(t.names, split, IterateStreamed, t.rows))
      case IteratorInput(items) =>
        if items == [] then Failure(Exc(StopIteration, ""))
        else ReservedCheck(Setup(items[0].keys, None, ChunkIterator, items))
      case OtherInput(typeRepr) =>
        Failure(Exc(Queryboost(DataTypeError), UnsupportedTypeMessage(typeRepr)))
  }

  /** The batch size is checked before the input is looked at: any input is refused the same way. */
  lemma BatchSizeCheckedFirst(a: Source, b: Source, batchSize: int)
    requires batchSize < 1
    ensures Resolve(a, batchSize) == Resolve(b, batchSize)
    ensures Resolve(a, batchSize).Failure? && Resolve(a, batchSize).error.cls == Queryboost(BatchSizeError)
  {
  }

  /** A list, or a dataset, records its row count; a list's schema is its first row's keys. */
  lemma RowCountKnownForMaterialized(data: Source, batchSize: int)
    requires data.ListInput? || data.DatasetInput?
    requires Resolve(data, batchSize).Success?
    ensures Resolve(data, batchSize).value.numRows ==
      Some(if data.ListInput? then |data.data| else |data.table.rows|)
    ensures data.ListInput? && data.data != [] ==> Resolve(data, batchSize).value.schema == data.data[0].keys
  {
  }

  /**
   * An iterator's schema comes from its first row, which is peeked and not
   * consumed: all rows are still batched; the row count is unknown. An
   * empty iterator makes the peek raise `StopIteration`.
   */
  lemma IteratorSchemaFromPeek(items: seq<Row>, batchSize: int)
    requires batchSize >= 1
    ensures items == [] ==> Resolve(IteratorInput(items), batchSize) == Failure(Exc(StopIteration, ""))
    ensures Resolve(IteratorInput(items), batchSize).Success? ==>
      var s := Resolve(IteratorInput(items), batchSize).value;
      s.schema == items[0].keys && s.numRows == None && s.rows == items && s.strategy == ChunkIterator
  {
  }

  /** A reserved name anywhere in the schema is refused, whatever the input's shape. */
  lemma ReservedColumnRejected(data: Source, batchSize: int)
    requires batchSize >= 1 && !data.OtherInput?
    requires Resolve(data, batchSize).Failure?
    requires !(data.IteratorInput? && data.items == [])
    ensures Resolve(data, batchSize).error == Exc(Queryboost(DataColumnError), ReservedColumnsMessage)
  {
  }

  // ---------------------------------------------------------------------
  // The batcher object
  // ---------------------------------------------------------------------

  /** What one `next(batcher)` does. */
  datatype Step =
    | Yielded(batch: Columns)
    | Stopped                 // StopIteration
    | Raised(error: Exc)

  /**
   * A `DataBatcher` after a successful `__init__`. The generator is modelled
   * by the rows it goes over and a cursor into them: `__iter__` hands out
   * that one generator, so every iteration continues where the last one
   * stopped.
   */
  class DataBatcher {
    const schema: seq<string>
    const numRows: Option<nat>
    const batchSize: nat
    const strategy: Strategy
    const rows: seq<Row>
    /** Rows the generator has consumed. */
    var cursor: nat
    /** The generator has returned or raised. */
    var finished: bool

    ghost predicate Valid()
      reads this
    {
      batchSize >= 1 && cursor <= |rows|
    }

    /** Everything the generator has still to produce. */
    ghost function Pending(): Generated
      reads this
      requires Valid()
    {
      if finished then Generated([], None) else Generate(strategy, schema, rows[cursor..], batchSize)
    }

    constructor Init(setup: Setup, batchSize: nat)
      requires batchSize >= 1
      ensures Valid()
      ensures schema == setup.schema && numRows == setup.numRows
      ensures strategy == setup.strategy && rows == setup.rows && this.batchSize == batchSize
      ensures Pending() == Generate(setup.strategy, setup.schema, setup.rows, batchSize)
    {
      schema := setup.schema;
      numRows := setup.numRows;
      strategy := setup.strategy;
      rows := setup.rows;
      this.batchSize := batchSize;
      cursor := 0;
      finished := false;
      new;
      assert rows[0..] == rows;
    }

    /** `DataBatcher(data, batch_size)`: a new batcher, or the exception the constructor raises. */
    static method Open(data: Source, batchSize: int) returns (r: Result<DataBatcher, Exc>)
      ensures r.Failure? <==> Resolve(data, batchSize).Failure?
      ensures r.Failure? ==> r.error == Resolve(data, batchSize).error
      ensures r.Success? ==>
        var s := Resolve(data, batchSize).value;
        fresh(r.value) && r.value.Valid() &&
        r.value.schema == s.schema && r.value.numRows == s.numRows &&
        r.value.batchSize == batchSize && r.value.strategy == s.strategy &&
        r.value.Pending() == Generate(s.strategy, s.schema, s.rows, batchSize)
    {
      if batchSize < 1 {
        return Failure(Exc(Queryboost(BatchSizeError), BatchSizeMessage));
      }
      var setup: Setup;
      match data {
        case ListInput(items) =>
          var t := FromList(items);
          setup := Setup(t.names, Some(|t.rows|), SliceDataset, t.rows);
        case DatasetInput(t) =>
          setup := Setup(t.names, Some(|t.rows|), SliceDataset, t.rows);
        case IterableDatasetInput(t, split) =>
          setup := Setup(t.names, split, IterateStreamed, t.rows);
        case IteratorInput(items) =>
          if |items| == 0 {
            return Failure(Exc(StopIteration, ""));
          }
          setup := Setup(items[0].keys, None, ChunkIterator, items);
        case OtherInput(typeRepr) =>
          return Failure(Exc(Queryboost(DataTypeError), UnsupportedTypeMessage(typeRepr)));
      }
      var i := 0;
      while i < |setup.schema|
        invariant 0 <= i <= |setup.schema|
        invariant forall j :: 0 <= j < i ==> !IsReserved(setup.schema[j])
      {
        if IsReserved(setup.schema[i]) {
          return Failure(Exc(Queryboost(DataColumnError), ReservedColumnsMessage));
        }
        i := i + 1;
      }
      var batcher := new DataBatcher.Init(setup, batchSize);
      return Success(batcher);
    }

    /** `next(batcher)`: the generator's next batch, its exception, or StopIteration once it is done. */
    method Next() returns (step: Step)
      requires Valid()
      modifies this
      ensures Valid()
      ensures old(Pending()).batches != [] ==>
        step == Yielded(old(Pending()).batches[0]) &&
        Pending() == Generated(old(Pending()).batches[1..], old(Pending()).error)
      ensures old(Pending()).batches == [] && old(Pending()).error.Some? ==>
        step == Raised(old(Pending()).error.value) && Pending() == Generated([], None)
      ensures old(Pending()).batches == [] && old(Pending()).error.None? ==>
        step == Stopped && Pending() == Generated([], None)
    {
      ghost var before := Pending();
      if finished || cursor == |rows| {
        assert before == Generated([], None);
        finished := true;
        return Stopped;
      }
      var next := cursor + Min(batchSize, |rows| - cursor);
      var chunk := rows[cursor..next];
      ghost var rest := Generate(strategy, schema, rows[next..], batchSize);
      GenerateFrom(strategy, schema, rows, cursor, batchSize, chunk, rest);
      var batch: Columns;
      if strategy == ChunkIterator {
        var inverted := InvertListOfDicts(chunk);
        if inverted.Failure? {
          assert before == Generated([], Some(inverted.error));
          cursor, finished := next, true;
          return Raised(inverted.error);
        }
        batch := inverted.value;
        assert before == Generated([batch] + rest.batches, rest.error);
      } else {
        batch := Columnar(schema, chunk);
        assert before == Generated([batch] + rest.batches, rest.error);
      }
      assert before.batches[1..] == rest.batches;
      cursor := next;
      return Yielded(batch);
    }

    /** `list(batcher)`: drains the generator; an exception it raises propagates and the list is lost. */
    method IterAll() returns (r: Result<seq<Columns>, Exc>)
      requires Valid()
      modifies this
      ensures Valid()
      ensures old(Pending()).error.None? ==> r == Success(old(Pending()).batches)
      ensures old(Pending()).error.Some? ==> r == Failure(old(Pending()).error.value)
      ensures Pending() == Generated([], None)
    {
      var collected: seq<Columns> := [];
      while true
        invariant Valid()
        invariant old(Pending()).batches == collected + Pending().batches
        invariant Pending().error == old(Pending()).error
        decreases |Pending().batches|, !finished
      {
        ghost var pre := Pending();
        var step := Next();
        match step {
          case Stopped =>
            assert pre.batches == [] && collected + pre.batches == collected;
            return Success(collected);
          case Raised(e) =>
            return Failure(e);
          case Yielded(batch) =>
            assert pre.batches == [batch] + Pending().batches;
            assert collected + pre.batches == (collected + [batch]) + Pending().batches;
            collected := collected + [batch];
        }
      }
    }
  }

  /** The batcher is single-pass: a second `list(batcher)` is empty, and `next` then stops. */
  method IterateTwice(batcher: DataBatcher) returns (first: Result<seq<Columns>, Exc>, second: Result<seq<Columns>, Exc>, after: Step)
    requires batcher.Valid()
    modifies batcher
    ensures first.Success? ==> first.value == old(batcher.Pending()).batches
    ensures second == Success([])
    ensures after == Stopped
  {
    first := batcher.IterAll();
    second := batcher.IterAll();
    after := batcher.Next();
  }
}
