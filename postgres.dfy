/**
 * The database connection the migration engine is handed: only the part of its
 * state the engine can observe or change. The ledger table is a set of migration
 * names; the schema changes made by migration scripts are recorded as the list of
 * scripts the server was asked to run. Which statements the server rejects is
 * fixed by `faults`, so every failure the engine must survive can be posed.
 */
module Postgres {
  import opened Base

  /** The statements the engine sends. */
  datatype Op =
    | CreateLedger             // CREATE TABLE IF NOT EXISTS for the ledger
    | Count(name: string)      // SELECT COUNT(*) ... WHERE name = $1
    | Batch(script: string)    // batch_execute of a migration script
    | Insert(name: string)     // INSERT INTO ... (name) VALUES ($1)
    | Delete(name: string)     // DELETE FROM ... WHERE name = $1

  class Client {
    /** Whether the ledger table exists. */
    var hasLedger: bool
    /** The `name` column of the ledger table (its primary key). */
    var ledger: set<string>
    /** Every script submitted with `batch_execute`, oldest first. */
    var executed: seq<string>
    /** The statements this server answers with an error. */
    const faults: set<Op>

    ghost predicate Valid()
      reads this
    {
      !hasLedger ==> ledger == {}
    }

    constructor (hasLedger: bool, ledger: set<string>, faults: set<Op>)
      requires !hasLedger ==> ledger == {}
      ensures Valid()
      ensures this.hasLedger == hasLedger && this.ledger == ledger && this.faults == faults
      ensures executed == []
    {
      this.hasLedger := hasLedger;
      this.ledger := ledger;
      this.faults := faults;
      executed := [];
    }

    /** Runs a script as one batch; the attempt is logged whether or not the server accepts it. */
    method BatchExecute(script: string) returns (ok: bool)
      modifies this`executed
      ensures ok == (Batch(script) !in faults)
      ensures executed == old(executed) + [script]
    {
      ok := Batch(script) !in faults;
      executed := executed + [script];
    }

    method CreateLedgerTable() returns (ok: bool)
      requires Valid()
      modifies this`hasLedger
      ensures Valid()
      ensures ok == (CreateLedger !in faults)
      ensures hasLedger == (old(hasLedger) || ok)
    {
      ok := CreateLedger !in faults;
      if ok {
        hasLedger := true;
      }
    }

    /** The number of ledger rows with this name; `None` when the query fails. */
    method CountRows(name: string) returns (r: Option<nat>)
      ensures r.Some? <==> hasLedger && Count(name) !in faults
      ensures r.Some? ==> r.value <= 1 && (r.value == 1 <==> name in ledger)
    {
      if !hasLedger || Count(name) in faults {
        return None;
      }
      r := Some(if name in ledger then 1 else 0);
    }

    /** Inserts a ledger row; a duplicate name violates the primary key. */
    method InsertRow(name: string) returns (ok: bool)
      modifies this`ledger
      ensures ok == (hasLedger && Insert(name) !in faults && name !in old(ledger))
      ensures ledger == if ok then old(ledger) + {name} else old(ledger)
    {
      ok := hasLedger && Insert(name) !in faults && name !in ledger;
      if ok {
        ledger := ledger + {name};
      }
    }

    /** Deletes the ledger row with this name, if there is one. */
    method DeleteRow(name: string) returns (ok: bool)
      modifies this`ledger
      ensures ok == (hasLedger && Delete(name) !in faults)
      ensures ledger == if ok then old(ledger) - {name} else old(ledger)
    {
      ok := hasLedger && Delete(name) !in faults;
      if ok {
        ledger := ledger - {name};
      }
    }
  }
}
