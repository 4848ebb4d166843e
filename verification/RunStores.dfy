/** The versioned run store: an abstract compare-and-swap register per run, and
    the in-memory and SQLite stores that implement it. */
module RunStores {
  import opened Contracts
  import opened DurableRecords

  datatype StoreError = AlreadyExists | UnknownRun | VersionConflict | Corrupted

  datatype Outcome<+T> = Ok(value: T) | Err(error: StoreError)

  type Records = map<string, StoredRunRecord>

  predicate CanClaim(records: Records, runId: string, expected: nat) {
    runId in records && records[runId].version == expected && records[runId].state == ToolPrepared
  }

  class InMemoryRunStore {
    var records: Records

    constructor ()
      ensures records == map[]
    {
      records := map[];
    }

    method Create(record: StoredRunRecord) returns (r: Outcome<()>)
      modifies this
      ensures r.Ok? <==> record.runId !in old(records)
      ensures records == if r.Ok? then old(records)[record.runId := record] else old(records)
    {
      if record.runId in records {
        return Err(AlreadyExists);
      }
      records := records[record.runId := record];
      return Ok(());
    }

    method Load(runId: string) returns (r: Outcome<StoredRunRecord>)
      ensures r == if runId in records then Ok(records[runId]) else Err(UnknownRun)
    {
      if runId !in records {
        return Err(UnknownRun);
      }
      return Ok(records[runId]);
    }

    /** Succeeds on the stored version alone, whatever the two states are. */
    method Save(record: StoredRunRecord, expected: nat) returns (r: Outcome<StoredRunRecord>)
      modifies this
      ensures r.Ok? <==> record.runId in old(records) && old(records)[record.runId].version == expected
      ensures r.Ok? ==>
        r.value == record.(version := expected + 1) && records == old(records)[record.runId := r.value]
      ensures r.Err? ==> records == old(records)
    {
      if record.runId !in records {
        return Err(UnknownRun);
      }
      if records[record.runId].version != expected {
        return Err(VersionConflict);
      }
      var updated := record.(version := expected + 1);
      records := records[record.runId := updated];
      return Ok(updated);
    }

    /** `Ok(None)` is the lost race; only an unknown run is an error. */
    method ClaimToolDispatch(runId: string, expected: nat) returns (r: Outcome<Option<StoredRunRecord>>)
      modifies this
      ensures r.Err? <==> runId !in old(records)
      ensures r.Ok? && r.value.Some? <==>
        && runId in old(records) && old(records)[runId].version == expected
        && old(records)[runId].state == ToolPrepared
      ensures r.Ok? && r.value.Some? ==>
        && r.value.value == old(records)[runId].(version := expected + 1, state := ToolInFlight)
        && records == old(records)[runId := r.value.value]
      ensures r.Err? || r.value.None? ==> records == old(records)
    {
      if runId !in records {
        return Err(UnknownRun);
      }
      var current := records[runId];
      if current.version != expected || current.state != ToolPrepared {
        return Ok(None);
      }
      var updated := current.(version := expected + 1, state := ToolInFlight);
      records := records[runId := updated];
      return Ok(Some(updated));
    }
  }

  /** A table row: the version and state columns beside the serialized record. */
  datatype Row = Row(version: nat, state: DurableState, record: StoredRunRecord)

  /** What loading a row demands: matching columns and valid state fields. */
  predicate RowLoads(row: Row) {
    row.version == row.record.version && row.state == row.record.state && ValidStateFields(row.record)
  }

  class SQLiteRunStore {
    var rows: map<string, Row>

    /** Columns mirror the record; the register this table implements. */
    ghost predicate Valid() reads this {
      forall id :: id in rows ==> rows[id] == RowOf(rows[id].record) && rows[id].record.runId == id
    }

    ghost function Register(): Records reads this {
      map id | id in rows :: rows[id].record
    }

    static function RowOf(record: StoredRunRecord): Row {
      Row(record.version, record.state, record)
    }

    constructor ()
      ensures Valid() && Register() == map[]
    {
      rows := map[];
    }

    method Create(record: StoredRunRecord) returns (r: Outcome<()>)
      requires Valid()
      modifies this
      ensures Valid()
      ensures r.Ok? <==> record.runId !in old(Register())
      ensures Register() == if r.Ok? then old(Register())[record.runId := record] else old(Register())
    {
      if record.runId in rows {
        return Err(AlreadyExists);
      }
      rows := rows[record.runId := RowOf(record)];
      return Ok(());
    }

    method Load(runId: string) returns (r: Outcome<StoredRunRecord>)
      requires Valid()
      ensures r.Ok? <==> runId in Register() && ValidStateFields(Register()[runId])
      ensures r.Ok? <==>
        && runId in Register()
        && var record := Register()[runId];
        && (record.terminalStatus.Some? <==>
              record.state in {RunCompleted, RunFailed, RunCancelled, RunRecoveryRequired})
        && (record.state in {ToolPrepared, ToolInFlight, ToolCompleted} ==>
              && record.pending.requestId.Some? && record.pending.idempotencyKey.Some?
              && record.pending.action.Some? && record.pending.toolCallId.Some? && record.pending.toolName.Some?)
        && (record.state == ToolCompleted ==> record.pending.status.Some?)
      ensures r.Ok? ==> r.value == Register()[runId]
      ensures r.Err? ==> r.error == if runId in Register() then Corrupted else UnknownRun
    {
      if runId !in rows {
        return Err(UnknownRun);
      }
      if !RowLoads(rows[runId]) {
        return Err(Corrupted);
      }
      return Ok(rows[runId].record);
    }

    /** One guarded update; a row count of zero is the conflict, known run or not. */
    method Save(record: StoredRunRecord, expected: nat) returns (r: Outcome<StoredRunRecord>)
      requires Valid()
      modifies this
      ensures Valid()
      ensures r.Ok? <==>
        record.runId in old(Register()) && old(Register())[record.runId].version == expected
      ensures r.Ok? ==>
        r.value == record.(version := expected + 1) && Register() == old(Register())[record.runId := r.value]
      ensures r.Err? ==> Register() == old(Register())
    {
      var updated := record.(version := expected + 1);
      if record.runId in rows && rows[record.runId].version == expected {
        rows := rows[record.runId := RowOf(updated)];
        return Ok(updated);
      }
      return Err(VersionConflict);
    }

    method ClaimToolDispatch(runId: string, expected: nat) returns (r: Outcome<Option<StoredRunRecord>>)
      requires Valid()
      modifies this
      ensures Valid()
      ensures r.Ok? && r.value.Some? <==>
        && CanClaim(old(Register()), runId, expected) && ValidStateFields(old(Register())[runId])
      ensures r.Ok? && r.value.Some? ==>
        && old(Register())[runId].version == expected && old(Register())[runId].state == ToolPrepared
        && r.value.value == old(Register())[runId].(version := expected + 1, state := ToolInFlight)
        && Register() == old(Register())[runId := r.value.value]
      ensures r.Err? || r.value.None? ==> Register() == old(Register())
      ensures r.Err? <==>
        || runId !in old(Register())
        || (CanClaim(old(Register()), runId, expected) && !ValidStateFields(old(Register())[runId]))
    {
      if runId !in rows {
        return Err(UnknownRun);
      }
      var row := rows[runId];
      if row.version != expected || row.state != ToolPrepared {
        return Ok(None);
      }
      if !RowLoads(row) {
        return Err(Corrupted);
      }
      var updated := row.record.(version := expected + 1, state := ToolInFlight);
      rows := rows[runId := RowOf(updated)];
      return Ok(Some(updated));
    }
  }
}
