/**
  The ledger as the daemon runs it: a map updated in place, written out as a list of rows
  and read back from one. Each operation is proved to take the ledger one step.
 */
module LedgerStore {
  import opened Ledger

  // What a list of rows means: the last row of a key wins.
  ghost function Index(rows: seq<Row>): map<Key, Row> {
    if rows == [] then map[]
    else
      var last := rows[|rows| - 1];
      Index(rows[..|rows| - 1])[KeyOf(last.device, last.op) := last]
  }

  lemma IndexAppend(rows: seq<Row>, row: Row)
    ensures Index(rows + [row]) == Index(rows)[KeyOf(row.device, row.op) := row]
  {
    assert (rows + [row])[..|rows + [row]| - 1] == rows;
  }

  ghost function RestoredFrom(rows: seq<Row>, i: nat): map<Key, Record>
    requires i <= |rows|
  {
    Restored(Index(rows[..i]))
  }

  lemma RestoreOne(rows: seq<Row>, i: nat)
    requires i < |rows|
    ensures RestoredFrom(rows, i + 1) == RestoredFrom(rows, i)[KeyOf(rows[i].device, rows[i].op) := FromRow(rows[i])]
  {
    assert rows[..i + 1] == rows[..i] + [rows[i]];
    IndexAppend(rows[..i], rows[i]);
  }

  // The rows of the records outside todo.
  ghost function WrittenBut(mem: map<Key, Record>, todo: set<Key>): map<Key, Row> {
    map k | k in mem && k !in todo :: ToRow(mem[k])
  }

  lemma WriteOne(mem: map<Key, Record>, todo: set<Key>, k: Key)
    requires k in todo && todo <= mem.Keys
    ensures WrittenBut(mem, todo - {k}) == WrittenBut(mem, todo)[k := ToRow(mem[k])]
  {
  }

  lemma WrittenAll(mem: map<Key, Record>)
    ensures WrittenBut(mem, {}) == Written(mem) && WrittenBut(mem, mem.Keys) == map[] && |mem.Keys| == |mem|
  {
  }

  ghost predicate Keyed(mem: map<Key, Record>) {
    forall k :: k in mem ==> k == KeyOf(mem[k].device, mem[k].op)
  }

  lemma MemIsKeyed(mem: map<Key, Record>)
    requires MemOk(mem)
    ensures Keyed(mem)
  {
    assert forall k :: k in mem ==> RecordOk(k, mem[k]);
  }

  class OperationLedger {
    var operations: map<Key, Record>
    var file: seq<Row>
    const hasStore: bool

    ghost function Abs(): State
      reads this
    {
      State(operations, Index(file), hasStore)
    }

    constructor (store: bool)
      ensures Abs() == State(map[], map[], store) && Inv(Abs())
    {
      operations, file, hasStore := map[], [], store;
    }

    method Prune(now: int)
      modifies this`operations
      ensures operations == Pruned(old(operations), now)
    {
      var todo := operations.Keys;
      while todo != {}
        invariant todo <= operations.Keys <= old(operations).Keys
        invariant forall k :: k in old(operations) ==>
                    (k in operations <==> k in todo || !Expired(old(operations)[k], now))
        invariant forall k :: k in operations ==> operations[k] == old(operations)[k]
        decreases todo
      {
        var k :| k in todo;
        if operations[k].completedAt > 0 && operations[k].completedAt < now - RETENTION {
          operations := operations - {k};
        }
        todo := todo - {k};
      }
    }

    method PersistedRows() returns (rows: seq<Row>)
      requires Keyed(operations)
      ensures Index(rows) == Written(operations) && |rows| == |operations|
    {
      hide WrittenBut, Written;
      WrittenAll(operations);
      rows := [];
      var todo := operations.Keys;
      while todo != {}
        invariant todo <= operations.Keys && |rows| + |todo| == |operations|
        invariant Index(rows) == WrittenBut(operations, todo)
        decreases todo
      {
        hide Index;
        var k :| k in todo;
        var r := operations[k];
        var row := Pending(r.device, r.op, r.fingerprint, r.createdAt);
        if r.completedAt > 0 {
          row := Completed(r.device, r.op, r.fingerprint, r.createdAt, r.completedAt, r.result.receipt,
            StoreError(r.result.err));
        }
        IndexAppend(rows, row);
        WriteOne(operations, todo, k);
        rows := rows + [row];
        todo := todo - {k};
      }
    }

    method Persist(save: Save) returns (ok: bool)
      requires Keyed(operations)
      modifies this`file
      ensures ok == Succeeds(hasStore, save)
      ensures Index(file) == DiskAfter(old(Abs()), operations, save)
    {
      if !hasStore { return true; }
      var rows := PersistedRows();
      if save != FailOld { file := rows; }
      ok := save == Ok;
    }

    method RestoreRows(now: int)
      modifies this`operations
      ensures Abs() == Restart(old(Abs()), now)
    {
      operations := map[];
      var i := 0;
      while i < |file|
        invariant 0 <= i <= |file| && operations == RestoredFrom(file, i)
      {
        var row := file[i];
        RestoreOne(file, i);
        operations := operations[KeyOf(row.device, row.op) := FromRow(row)];
        i := i + 1;
      }
      assert file[..|file|] == file;
      Prune(now);
    }

    method Admit(device: string, op: string, fingerprint: string, now: int, save: Save) returns (reply: Reply)
      requires Inv(Abs())
      modifies this
      ensures Abs() == Begin(old(Abs()), device, op, fingerprint, now, save)
      ensures reply == BeginReply(old(Abs()), KeyOf(device, op), fingerprint, now, save)
    {
      hide Written, Pruned, MemOk, DiskOk, AllBacked, Index, Keyed;
      var k := KeyOf(device, op);
      if k in operations {
        return if operations[k].fingerprint != fingerprint then Conflict else Wait;
      }
      PrunedOk(operations, now, Index(file));
      Prune(now);
      ghost var pruned := operations;
      if |operations| >= MAX_REMEMBERED { return Full; }
      AddedOk(pruned, k, NewRecord(device, op, fingerprint, now));
      operations := operations[k := NewRecord(device, op, fingerprint, now)];
      MemIsKeyed(operations);
      var ok := Persist(save);
      if !ok {
        operations := operations - {k};
        assert operations == pruned;
        return NotSaved;
      }
      reply := Reply.Admit;
    }

    method Complete(k: Key, res: Result, now: int, save: Save) returns (answer: Result)
      requires Inv(Abs()) && k in operations && operations[k].phase == Running
      modifies this
      ensures Abs() == Finish(old(Abs()), k, res, now, save)
      ensures k in operations && answer == operations[k].result
    {
      hide Written, MemOk, DiskOk, AllBacked, Index, Keyed;
      ghost var s := Abs();
      var r := operations[k];
      RunningFacts(s, k, res, now);
      AddedOk(operations, k, Completion(r, res, now));
      MemIsKeyed(operations[k := Completion(r, res, now)]);
      operations := operations[k := Completion(r, res, now)];
      var ok := Persist(save);
      if !ok {
        operations := operations[k := Forgotten(r)];
        assert operations == s.mem[k := Forgotten(r)];
      }
      answer := operations[k].result;
    }
  }
}
