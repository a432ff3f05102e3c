/** The response cache table (llm_gateway/cache.py) and moving it between machines
    (tools/llm_cache_transfer.py). */
module ResponseCache {
  import opened Json

  datatype Row = Row(body: string, status: int, wallclockMs: int, backend: Option<string>,
                     recordedAtMs: int, hits: nat)

  /** cache_entries, by primary key. */
  type Table = map<string, Row>

  datatype Entry = Entry(body: string, status: int, wallclockMs: int, backend: Option<string>, hits: nat)

  // ---- The two statements the gateway runs ----

  function Bump(t: Table, key: string): Table {
    if key in t then t[key := t[key].(hits := t[key].hits + 1)] else t
  }

  /** The upsert: the newest recording wins, an existing row keeps its hit count. */
  function Upsert(t: Table, key: string, row: Row): Table {
    t[key := row.(hits := if key in t then t[key].hits else 0)]
  }

  class Cache {
    var rows: Table
    var hits: nat
    var misses: nat
    var records: nat
    var errors: nat

    constructor (rows: Table)
      ensures this.rows == rows && hits == 0 && misses == 0 && records == 0 && errors == 0
    {
      this.rows := rows;
      hits, misses, records, errors := 0, 0, 0, 0;
    }

    /** readFails and bumpFails say whether the SELECT and the UPDATE raise. */
    method Get(key: string, readFails: bool, bumpFails: bool) returns (e: Option<Entry>)
      modifies this
      ensures e.Some? <==> !readFails && key in old(rows)
      ensures e.Some? ==> var r := old(rows)[key];
        e.value == Entry(r.body, r.status, r.wallclockMs, r.backend, r.hits + 1)
      ensures rows == if e.Some? && !bumpFails then Bump(old(rows), key) else old(rows)
      ensures e.Some? && !bumpFails ==> key in rows && rows[key].hits == old(rows)[key].hits + 1
      ensures hits == old(hits) + (if e.Some? then 1 else 0)
      ensures misses == old(misses) + (if !readFails && key !in old(rows) then 1 else 0)
      ensures errors == old(errors) + (if readFails || (e.Some? && bumpFails) then 1 else 0)
      ensures records == old(records)
    {
      if readFails {
        errors := errors + 1;
        return None;
      }
      if key !in rows {
        misses := misses + 1;
        return None;
      }
      var row := rows[key];
      if bumpFails {
        errors := errors + 1;
      } else {
        rows := rows[key := row.(hits := row.hits + 1)];
      }
      hits := hits + 1;
      e := Some(Entry(row.body, row.status, row.wallclockMs, row.backend, row.hits + 1));
    }

    method Put(key: string, body: string, status: int, wallclockMs: int, backend: Option<string>,
               nowMs: int, writeFails: bool)
      modifies this
      ensures rows == if writeFails then old(rows)
                      else Upsert(old(rows), key, Row(body, status, wallclockMs, backend, nowMs, 0))
      ensures var hits := if key in old(rows) then old(rows)[key].hits else 0;
              !writeFails ==> key in rows && rows[key] == Row(body, status, wallclockMs, backend, nowMs, hits)
      ensures records == old(records) + (if writeFails then 0 else 1)
      ensures errors == old(errors) + (if writeFails then 1 else 0)
      ensures hits == old(hits) && misses == old(misses)
    {
      if writeFails {
        errors := errors + 1;
        return;
      }
      if key in rows {
        rows := rows[key := Row(body, status, wallclockMs, backend, nowMs, rows[key].hits)];
      } else {
        rows := rows[key := Row(body, status, wallclockMs, backend, nowMs, 0)];
      }
      records := records + 1;
    }
  }

  // ---- Merging an export into a cache ----

  datatype KeyedRow = KeyedRow(key: string, row: Row)

  /** The rows of a source table as its cursor yields them: the key is primary. */
  ghost predicate Cursor(rows: seq<KeyedRow>) {
    forall i, j :: 0 <= i < j < |rows| ==> rows[i].key != rows[j].key
  }

  function AsTable(rows: seq<KeyedRow>): Table {
    if rows == [] then map[]
    else AsTable(rows[..|rows| - 1])[rows[|rows| - 1].key := rows[|rows| - 1].row]
  }

  lemma {:induction false} AsTableKeys(rows: seq<KeyedRow>)
    ensures AsTable(rows).Keys == set r | r in rows :: r.key
  {
    if rows != [] {
      var last := rows[|rows| - 1];
      AsTableKeys(rows[..|rows| - 1]);
      assert rows == rows[..|rows| - 1] + [last];
    }
  }

  function Larger(a: nat, b: nat): nat { if a >= b then a else b }

  /** One key that both sides hold. */
  function Resolve(local: Row, incoming: Row, overwrite: bool): Row {
    if overwrite then incoming.(hits := Larger(local.hits, incoming.hits)) else local
  }

  /** The one-shot merge: every key of either side. */
  function Merge(local: Table, incoming: Table, overwrite: bool): Table {
    map k | k in local.Keys + incoming.Keys ::
      if k !in incoming then local[k]
      else if k !in local then incoming[k]
      else Resolve(local[k], incoming[k], overwrite)
  }

  const BATCH := 200

  datatype Report = Report(incoming: nat, added: nat, alreadyPresent: int, applied: nat)

  /** The INSERT of one row with its ON CONFLICT clause. */
  function Apply(t: Table, r: KeyedRow, overwrite: bool): Table {
    if r.key in t then t[r.key := Resolve(t[r.key], r.row, overwrite)] else t[r.key := r.row]
  }

  lemma AsTablePrefix(rows: seq<KeyedRow>, n: nat)
    requires n < |rows| && Cursor(rows)
    ensures AsTable(rows[..n + 1]) == AsTable(rows[..n])[rows[n].key := rows[n].row]
    ensures rows[n].key !in AsTable(rows[..n])
  {
    assert rows[..n + 1][..n] == rows[..n];
    AsTableKeys(rows[..n]);
  }

  lemma MergeStep(local: Table, t: Table, r: KeyedRow, overwrite: bool)
    requires r.key !in t
    ensures Apply(Merge(local, t, overwrite), r, overwrite) == Merge(local, t[r.key := r.row], overwrite)
  {
  }

  lemma ImportRow(local: Table, source: seq<KeyedRow>, i: nat, overwrite: bool)
    requires Cursor(source) && i < |source|
    ensures Apply(Merge(local, AsTable(source[..i]), overwrite), source[i], overwrite)
         == Merge(local, AsTable(source[..i + 1]), overwrite)
  {
    AsTablePrefix(source, i);
    MergeStep(local, AsTable(source[..i]), source[i], overwrite);
  }

  lemma UnionSize(a: set<string>, b: set<string>)
    ensures |a + b| == |a| + |b - a| && |b| == |b - a| + |b * a|
  {
  }

  /** executemany over one batch. */
  method ImportBatch(t: Table, local: Table, source: seq<KeyedRow>, start: nat, end: nat, overwrite: bool)
    returns (merged: Table)
    requires Cursor(source) && start <= end <= |source|
    requires t == Merge(local, AsTable(source[..start]), overwrite)
    ensures merged == Merge(local, AsTable(source[..end]), overwrite)
  {
    merged := t;
    for i := start to end
      invariant merged == Merge(local, AsTable(source[..i]), overwrite)
    {
      ImportRow(local, source, i, overwrite);
      merged := Apply(merged, source[i], overwrite);
    }
  }

  /** A real import: batches of BATCH rows, one statement a row. */
  method Import(local: Table, source: seq<KeyedRow>, overwrite: bool) returns (merged: Table, report: Report)
    requires Cursor(source)
    ensures merged == Merge(local, AsTable(source), overwrite)
    ensures report == Counts(local, AsTable(source)).(applied := |source|)
  {
    merged := local;
    var done := 0;
    assert merged == Merge(local, AsTable(source[..0]), overwrite);
    while done < |source|
      invariant done <= |source|
      invariant merged == Merge(local, AsTable(source[..done]), overwrite)
    {
      var end := if done + BATCH <= |source| then done + BATCH else |source|;
      merged := ImportBatch(merged, local, source, done, end, overwrite);
      done := end;
    }
    assert source[..|source|] == source;
    CursorSize(source);
    MergeSize(local, AsTable(source), overwrite);
    report := Report(|source|, |merged| - |local|, |source| - (|merged| - |local|), |source|);
  }

  /** How many incoming keys are new to the target, and how many it already has. */
  function Counts(local: Table, incoming: Table): Report {
    Report(|incoming|, |incoming.Keys - local.Keys|, |incoming.Keys * local.Keys|, 0)
  }

  lemma MergeSize(local: Table, incoming: Table, overwrite: bool)
    ensures |Merge(local, incoming, overwrite)| == |local| + Counts(local, incoming).added
    ensures |incoming| == Counts(local, incoming).added + Counts(local, incoming).alreadyPresent
  {
    assert Merge(local, incoming, overwrite).Keys == local.Keys + incoming.Keys;
    UnionSize(local.Keys, incoming.Keys);
  }

  lemma CursorSize(rows: seq<KeyedRow>)
    requires Cursor(rows)
    ensures |AsTable(rows)| == |rows|
  {
    if rows != [] {
      CursorSize(rows[..|rows| - 1]);
      AsTablePrefix(rows, |rows| - 1);
      assert rows[..|rows| - 1 + 1] == rows;
      var before, key := AsTable(rows[..|rows| - 1]), rows[|rows| - 1].key;
      assert AsTable(rows).Keys == before.Keys + {key};
    }
  }

  /** The dry run looks at the keys only; None is the refusal when the target does not exist. */
  method DryRun(target: Option<Table>, source: seq<KeyedRow>) returns (report: Option<Report>)
    requires Cursor(source)
    ensures report.None? <==> target.None?
    ensures report.Some? ==> report.value == Counts(target.value, AsTable(source))
  {
    if target.None? { return None; }
    CursorSize(source);
    var keys := set r | r in source :: r.key;
    AsTableKeys(source);
    report := Some(Report(|source|, |keys - target.value.Keys|, |keys * target.value.Keys|, 0));
  }

  /** What a dry run announces is what an import into the same table then does, row count included. */
  method DryRunThenImport(local: Table, source: seq<KeyedRow>, overwrite: bool)
    returns (said: Report, merged: Table, did: Report)
    requires Cursor(source)
    ensures did == said.(applied := |source|)
    ensures |merged| == |local| + said.added && said.added + said.alreadyPresent == |source|
  {
    var r := DryRun(Some(local), source);
    said := r.value;
    merged, did := Import(local, source, overwrite);
    CursorSize(source);
    MergeSize(local, AsTable(source), overwrite);
  }

  // ---- The algebra of merging ----

  /** Merging in stages or at once gives the same table, under either policy. */
  lemma MergeAssociative(a: Table, b: Table, c: Table, overwrite: bool)
    ensures Merge(Merge(a, b, overwrite), c, overwrite) == Merge(a, Merge(b, c, overwrite), overwrite)
  {
  }

  /** Importing the same export twice changes nothing the second time. */
  lemma MergeIdempotent(a: Table, b: Table, overwrite: bool)
    ensures Merge(Merge(a, b, overwrite), b, overwrite) == Merge(a, b, overwrite)
  {
  }

  /** No key is lost and no hit count falls; without overwrite no local row changes; with it the incoming row of a key
      both sides hold wins, with the larger of the two hit counts; a row only the export holds comes in as it is. */
  lemma MergeKeepsLocal(local: Table, incoming: Table, overwrite: bool, k: string)
    requires k in local || k in incoming
    ensures k in Merge(local, incoming, overwrite)
    ensures k in local && (!overwrite || k !in incoming) ==> Merge(local, incoming, overwrite)[k] == local[k]
    ensures k !in local ==> Merge(local, incoming, overwrite)[k] == incoming[k]
    ensures k in local && k in incoming && overwrite ==>
              var r := Merge(local, incoming, overwrite)[k];
              && r.(hits := incoming[k].hits) == incoming[k]
              && r.hits >= local[k].hits && r.hits >= incoming[k].hits
              && (r.hits == local[k].hits || r.hits == incoming[k].hits)
  {
  }

  // ---- Export ----

  /** The WHERE clause: an empty or missing backend and a missing cutoff select everything. */
  predicate Selected(r: Row, backend: Option<string>, cutoffMs: Option<int>) {
    && (backend.Some? && backend.value != "" ==> r.backend == backend)
    && (cutoffMs.Some? ==> r.recordedAtMs >= cutoffMs.value)
  }

  /** Writes a fresh file; None when the output already exists. */
  method Export(source: seq<KeyedRow>, outputExists: bool, backend: Option<string>, cutoffMs: Option<int>)
    returns (out: Option<Table>, n: nat)
    requires Cursor(source)
    ensures out.None? <==> outputExists
    ensures out.Some? ==> n == |out.value|
    ensures out.Some? ==>
              forall k :: k in out.value <==>
                k in AsTable(source) && var r := AsTable(source)[k];
                && (backend.None? || backend.value == "" || r.backend == backend)
                && (cutoffMs.None? || r.recordedAtMs >= cutoffMs.value)
    ensures out.Some? ==> forall k :: k in out.value ==> out.value[k] == AsTable(source)[k]
  {
    n := 0;
    if outputExists { return None, 0; }
    var t: Table := map[];
    for i := 0 to |source|
      invariant forall k :: k in t <==>
                  k in AsTable(source[..i]) && Selected(AsTable(source[..i])[k], backend, cutoffMs)
      invariant forall k :: k in t ==> t[k] == AsTable(source[..i])[k]
      invariant n == |t|
    {
      AsTablePrefix(source, i);
      if Selected(source[i].row, backend, cutoffMs) {
        assert t[source[i].key := source[i].row].Keys == t.Keys + {source[i].key};
        t := t[source[i].key := source[i].row];
        n := n + 1;
      }
    }
    assert source[..|source|] == source;
    out := Some(t);
  }

  /** A whole cache exported to a fresh file and imported into an empty cache arrives unchanged, hit
      counts and all. */
  method ShipWholeCache(source: seq<KeyedRow>, overwrite: bool) returns (arrived: Table)
    requires Cursor(source)
    ensures arrived == AsTable(source)
  {
    var file, n := Export(source, false, None, None);
    var rows := Scan(file.value);
    var report;
    arrived, report := Import(map[], rows, overwrite);
    assert arrived.Keys == file.value.Keys;
  }

  lemma CursorExtend(rows: seq<KeyedRow>, r: KeyedRow)
    requires Cursor(rows) && r.key !in AsTable(rows)
    ensures Cursor(rows + [r]) && AsTable(rows + [r]) == AsTable(rows)[r.key := r.row]
  {
    assert (rows + [r])[..|rows|] == rows;
    AsTableKeys(rows);
    forall i | 0 <= i < |rows| ensures rows[i].key != r.key { assert rows[i] in rows; }
  }

  /** A cursor over a table, in some order. */
  method Scan(t: Table) returns (rows: seq<KeyedRow>)
    ensures Cursor(rows) && AsTable(rows) == t
  {
    rows := [];
    var left := t.Keys;
    while left != {}
      invariant Cursor(rows) && left <= t.Keys
      invariant AsTable(rows) == t - left
      decreases left
    {
      var k :| k in left;
      CursorExtend(rows, KeyedRow(k, t[k]));
      rows := rows + [KeyedRow(k, t[k])];
      left := left - {k};
    }
    assert t - {} == t;
  }

  // ---- Whole histories ----

  datatype Op =
    | OpGet(key: string)
    | OpPut(key: string, row: Row)
    | OpImport(incoming: Table, overwrite: bool)

  function Do(t: Table, op: Op): Table {
    match op
    case OpGet(k) => Bump(t, k)
    case OpPut(k, r) => Upsert(t, k, r)
    case OpImport(u, ow) => Merge(t, u, ow)
  }

  function DoAll(t: Table, ops: seq<Op>): Table
    decreases |ops|
  {
    if ops == [] then t else DoAll(Do(t, ops[0]), ops[1..])
  }

  /** Without imports a stored key's hit count grows by exactly the lookups of that key. */
  lemma {:induction false} HitsCounted(t: Table, ops: seq<Op>, k: string)
    requires k in t && forall op | op in ops :: !op.OpImport?
    ensures k in DoAll(t, ops) && DoAll(t, ops)[k].hits == t[k].hits + multiset(ops)[OpGet(k)]
    decreases |ops|
  {
    if ops != [] {
      HitsCounted(Do(t, ops[0]), ops[1..], k);
      assert ops == [ops[0]] + ops[1..];
    }
  }

  /** Over any history of lookups, recordings and imports, no key disappears and no hit count falls. */
  lemma {:induction false} HitsNeverFall(t: Table, ops: seq<Op>, k: string)
    requires k in t
    ensures k in DoAll(t, ops) && DoAll(t, ops)[k].hits >= t[k].hits
    decreases |ops|
  {
    if ops != [] {
      HitsNeverFall(Do(t, ops[0]), ops[1..], k);
    }
  }
}
