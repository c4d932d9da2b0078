/**
 * The schema-migration engine: it builds a catalog of migrations from a directory,
 * then applies (`Up`) or reverts (`Down`) them in ordinal order against a ledger
 * table that records which migrations are applied.
 */
module SchemaMigrations {
  import opened Base
  import opened MigrationOrder
  import opened Postgres

  type Path = string

  /** What `file_type()` says of a directory entry; `Unreadable` when it returns an error. */
  datatype EntryKind = Directory | OtherFile | Unreadable

  datatype DirEntry = DirEntry(name: Name, kind: EntryKind)

  /** The migrations directory as the engine sees it: its entries, and every file by path. */
  datatype FileSystem = FileSystem(listing: seq<DirEntry>, files: map<Path, string>)

  datatype Error =
    | NotFound(path: Path)        // a migration folder lacks one of its scripts
    | FileTypeFailed(name: Name)  // the type of a directory entry could not be read
    | InvalidOrdinal              // a name's prefix is not an unsigned integer
    | ReadFailed(path: Path)      // a script could not be read
    | DbFailed(op: Op)            // the database rejected a statement

  /** The engine: the ledger table's name and the script of each migration, each way. */
  datatype Migrations = Migrations(tableName: string, up: map<Name, Path>, down: map<Name, Path>)

  function Join(dir: Path, item: string): Path {
    dir + "/" + item
  }

  function UpPath(root: Path, name: Name): Path {
    Join(Join(root, name), "up.sql")
  }

  function DownPath(root: Path, name: Name): Path {
    Join(Join(root, name), "down.sql")
  }

  // ---------------------------------------------------------------------------
  // Building the catalog

  /** Why the scan stops at this entry, if it does. */
  function EntryError(root: Path, files: set<Path>, e: DirEntry): Option<Error> {
    match e.kind
    case Unreadable => Some(FileTypeFailed(e.name))
    case OtherFile => None
    case Directory =>
      if UpPath(root, e.name) !in files then Some(NotFound(UpPath(root, e.name)))
      else if DownPath(root, e.name) !in files then Some(NotFound(DownPath(root, e.name)))
      else None
  }

  /** The names of the folders in a listing. */
  ghost function FolderNames(listing: seq<DirEntry>): set<Name> {
    set i | 0 <= i < |listing| && listing[i].kind == Directory :: listing[i].name
  }

  ghost predicate Sound(root: Path, files: set<Path>, listing: seq<DirEntry>) {
    forall i :: 0 <= i < |listing| ==> EntryError(root, files, listing[i]).None?
  }

  /** The outcome of the scan loop over the listing, in order. */
  function Scan(tableName: string, root: Path, listing: seq<DirEntry>, files: set<Path>): Result<Migrations, Error>
    decreases |listing|
  {
    if listing == [] then Success(Migrations(tableName, map[], map[]))
    else
      var prev := Scan(tableName, root, listing[..|listing| - 1], files);
      var e := listing[|listing| - 1];
      if prev.Failure? then prev
      else
        match EntryError(root, files, e)
        case Some(err) => Failure(err)
        case None =>
          if e.kind == Directory then
            var m := prev.value;
            Success(m.(up := m.up[e.name := UpPath(root, e.name)], down := m.down[e.name := DownPath(root, e.name)]))
          else prev
  }

  /** All or nothing: the scan succeeds exactly when no entry stops it. */
  lemma {:induction false} ScanSucceedsIffSound(tableName: string, root: Path, listing: seq<DirEntry>, files: set<Path>)
    ensures Scan(tableName, root, listing, files).Success? <==> Sound(root, files, listing)
    decreases |listing|
  {
    if listing != [] {
      var init := listing[..|listing| - 1];
      assert forall i :: 0 <= i < |init| ==> listing[i] == init[i];
      ScanSucceedsIffSound(tableName, root, init, files);
    }
  }

  /** A failed scan reports the error of the first entry that stops it. */
  lemma {:induction false} ScanFailsAtFirstBroken(tableName: string, root: Path, listing: seq<DirEntry>, files: set<Path>)
    returns (i: nat)
    requires Scan(tableName, root, listing, files).Failure?
    ensures i < |listing|
    ensures EntryError(root, files, listing[i]) == Some(Scan(tableName, root, listing, files).error)
    ensures Sound(root, files, listing[..i])
    decreases |listing|
  {
    var init := listing[..|listing| - 1];
    if Scan(tableName, root, init, files).Failure? {
      i := ScanFailsAtFirstBroken(tableName, root, init, files);
      assert init[..i] == listing[..i];
    } else {
      i := |listing| - 1;
      ScanSucceedsIffSound(tableName, root, init, files);
      assert init == listing[..i];
    }
  }

  /**
   * A successful scan lists every folder, and only folders, in both maps, with the
   * `up.sql` and `down.sql` inside that folder.
   */
  lemma {:induction false} ScanCatalog(tableName: string, root: Path, listing: seq<DirEntry>, files: set<Path>)
    requires Scan(tableName, root, listing, files).Success?
    ensures var m := Scan(tableName, root, listing, files).value;
      && m.tableName == tableName
      && m.up.Keys == FolderNames(listing)
      && m.down.Keys == FolderNames(listing)
      && (forall n :: n in m.up ==> m.up[n] == UpPath(root, n))
      && (forall n :: n in m.down ==> m.down[n] == DownPath(root, n))
    decreases |listing|
  {
    if listing != [] {
      var init, e := listing[..|listing| - 1], listing[|listing| - 1];
      ScanCatalog(tableName, root, init, files);
      assert listing == init + [e];
      assert FolderNames(listing) == FolderNames(init) + (if e.kind == Directory then {e.name} else {}) by {
        assert forall i :: 0 <= i < |init| ==> listing[i] == init[i];
      }
    } else {
      assert FolderNames(listing) == {};
    }
  }

  lemma {:induction false} ScanStaysFailed(tableName: string, root: Path, listing: seq<DirEntry>, files: set<Path>, k: nat)
    requires k <= |listing|
    requires Scan(tableName, root, listing[..k], files).Failure?
    ensures Scan(tableName, root, listing, files) == Scan(tableName, root, listing[..k], files)
    decreases |listing|
  {
    if k < |listing| {
      var init := listing[..|listing| - 1];
      assert init[..k] == listing[..k];
      ScanStaysFailed(tableName, root, init, files, k);
    } else {
      assert listing[..k] == listing;
    }
  }

  /** `Migrations::new`: scans the folder, filling both maps, and bails at the first broken entry. */
  method New(tableName: string, root: Path, fs: FileSystem) returns (r: Result<Migrations, Error>)
    ensures r == Scan(tableName, root, fs.listing, fs.files.Keys)
  {
    var up: map<Name, Path> := map[];
    var down: map<Name, Path> := map[];
    var i := 0;
    while i < |fs.listing|
      invariant 0 <= i <= |fs.listing|
      invariant Scan(tableName, root, fs.listing[..i], fs.files.Keys) == Success(Migrations(tableName, up, down))
    {
      var entry := fs.listing[i];
      ghost var seen := fs.listing[..i + 1];
      assert seen[..|seen| - 1] == fs.listing[..i] && seen[|seen| - 1] == entry;
      ghost var step := Scan(tableName, root, seen, fs.files.Keys);
      if entry.kind == Unreadable {
        ScanStaysFailed(tableName, root, fs.listing, fs.files.Keys, i + 1);
        return Failure(FileTypeFailed(entry.name));
      }
      if entry.kind == Directory {
        var upPath := UpPath(root, entry.name);
        var downPath := DownPath(root, entry.name);
        if upPath !in fs.files {
          ScanStaysFailed(tableName, root, fs.listing, fs.files.Keys, i + 1);
          return Failure(NotFound(upPath));
        }
        if downPath !in fs.files {
          ScanStaysFailed(tableName, root, fs.listing, fs.files.Keys, i + 1);
          return Failure(NotFound(downPath));
        }
        up := up[entry.name := upPath];
        down := down[entry.name := downPath];
      }
      i := i + 1;
    }
    assert fs.listing[..i] == fs.listing;
    r := Success(Migrations(tableName, up, down));
  }

  // ---------------------------------------------------------------------------
  // The ledger operations

  method ExecuteScript(client: Client, content: string) returns (r: Result<(), Error>)
    modifies client`executed
    ensures r == if Batch(content) in client.faults then Failure(DbFailed(Batch(content))) else Success(())
    ensures client.executed == old(client.executed) + [content]
  {
    var ok := client.BatchExecute(content);
    r := if ok then Success(()) else Failure(DbFailed(Batch(content)));
  }

  /** `create_table`: creates the ledger table unless it exists. */
  method CreateTable(m: Migrations, client: Client) returns (r: Result<(), Error>)
    requires client.Valid()
    modifies client`hasLedger
    ensures client.Valid()
    ensures r == if CreateLedger in client.faults then Failure(DbFailed(CreateLedger)) else Success(())
    ensures client.hasLedger == (old(client.hasLedger) || r.Success?)
  {
    var ok := client.CreateLedgerTable();
    r := if ok then Success(()) else Failure(DbFailed(CreateLedger));
  }

  /** `exists`: whether the ledger records this migration. */
  method Exists(m: Migrations, client: Client, name: Name) returns (r: Result<bool, Error>)
    ensures r.Success? <==> client.hasLedger && Count(name) !in client.faults
    ensures r.Failure? ==> r.error == DbFailed(Count(name))
    ensures r.Success? ==> (r.value <==> name in client.ledger)
  {
    var count := client.CountRows(name);
    if count.None? {
      return Failure(DbFailed(Count(name)));
    }
    r := Success(count.value > 0);
  }

  /** `insert_migration`: records a migration in the ledger. */
  method InsertMigration(m: Migrations, client: Client, name: Name) returns (r: Result<(), Error>)
    modifies client`ledger
    ensures r == if !client.hasLedger || Insert(name) in client.faults || name in old(client.ledger)
      then Failure(DbFailed(Insert(name))) else Success(())
    ensures client.ledger == if r.Success? then old(client.ledger) + {name} else old(client.ledger)
  {
    var ok := client.InsertRow(name);
    r := if ok then Success(()) else Failure(DbFailed(Insert(name)));
  }

  /** `delete_migration`: removes a migration from the ledger. */
  method DeleteMigration(m: Migrations, client: Client, name: Name) returns (r: Result<(), Error>)
    modifies client`ledger
    ensures r == if !client.hasLedger || Delete(name) in client.faults then Failure(DbFailed(Delete(name))) else Success(())
    ensures client.ledger == if r.Success? then old(client.ledger) - {name} else old(client.ledger)
  {
    var ok := client.DeleteRow(name);
    r := if ok then Success(()) else Failure(DbFailed(Delete(name)));
  }

  // ---------------------------------------------------------------------------
  // Applying and reverting migrations

  datatype Direction = Upward | Downward

  function Scripts(m: Migrations, dir: Direction): map<Name, Path> {
    if dir == Upward then m.up else m.down
  }

  /** `up` runs a migration the ledger lacks; `down` one the ledger has. */
  predicate Acts(dir: Direction, recorded: bool) {
    if dir == Upward then !recorded else recorded
  }

  /** A migration whose script was submitted to the database, with that script. */
  datatype Applied = Applied(name: Name, script: string)

  datatype RunState = RunState(ledger: set<Name>, ran: seq<Applied>, result: Result<(), Error>)

  function ScriptsOf(ran: seq<Applied>): seq<string> {
    seq(|ran|, i requires 0 <= i < |ran| => ran[i].script)
  }

  function NamesOf(ran: seq<Applied>): seq<Name> {
    seq(|ran|, i requires 0 <= i < |ran| => ran[i].name)
  }

  predicate AllIn(order: seq<Name>, paths: map<Name, Path>) {
    forall i :: 0 <= i < |order| ==> order[i] in paths
  }

  /** One turn of the loop of `up` or `down`, for one migration name. */
  function Step(dir: Direction, m: Migrations, files: map<Path, string>, faults: set<Op>, st: RunState, name: Name): RunState
    requires name in Scripts(m, dir)
  {
    if Count(name) in faults then st.(result := Failure(DbFailed(Count(name))))
    else if !Acts(dir, name in st.ledger) then st
    else
      var path := Scripts(m, dir)[name];
      if path !in files then st.(result := Failure(ReadFailed(path)))
      else
        var script := files[path];
        var ran := st.ran + [Applied(name, script)];
        if Batch(script) in faults then RunState(st.ledger, ran, Failure(DbFailed(Batch(script))))
        else if dir == Upward then
          if Insert(name) in faults then RunState(st.ledger, ran, Failure(DbFailed(Insert(name))))
          else RunState(st.ledger + {name}, ran, st.result)
        else
          if Delete(name) in faults then RunState(st.ledger, ran, Failure(DbFailed(Delete(name))))
          else RunState(st.ledger - {name}, ran, st.result)
  }

  /** The loop of `up` or `down` over `order`, stopping at the first error. */
  function Run(dir: Direction, m: Migrations, files: map<Path, string>, faults: set<Op>, ledger: set<Name>, order: seq<Name>): RunState
    requires AllIn(order, Scripts(m, dir))
    decreases |order|
  {
    if order == [] then RunState(ledger, [], Success(()))
    else
      var prev := Run(dir, m, files, faults, ledger, order[..|order| - 1]);
      if prev.result.Failure? then prev else Step(dir, m, files, faults, prev, order[|order| - 1])
  }

  /** `up` or `down` as a whole: ensure the table, order the names, run the loop. */
  ghost function Migrate(dir: Direction, m: Migrations, files: map<Path, string>, faults: set<Op>, ledger: set<Name>, order: seq<Name>): RunState
    requires CreateLedger !in faults && !OrderingFails(Scripts(m, dir).Keys) ==> Arranged(Scripts(m, dir).Keys, order)
  {
    if CreateLedger in faults then RunState(ledger, [], Failure(DbFailed(CreateLedger)))
    else if OrderingFails(Scripts(m, dir).Keys) then RunState(ledger, [], Failure(InvalidOrdinal))
    else Run(dir, m, files, faults, ledger, order)
  }

  lemma {:induction false} RunStaysFailed(dir: Direction, m: Migrations, files: map<Path, string>, faults: set<Op>, ledger: set<Name>, order: seq<Name>, k: nat)
    requires AllIn(order, Scripts(m, dir)) && k <= |order|
    requires Run(dir, m, files, faults, ledger, order[..k]).result.Failure?
    ensures Run(dir, m, files, faults, ledger, order) == Run(dir, m, files, faults, ledger, order[..k])
    decreases |order|
  {
    if k < |order| {
      var init := order[..|order| - 1];
      assert init[..k] == order[..k];
      RunStaysFailed(dir, m, files, faults, ledger, init, k);
    } else {
      assert order[..k] == order;
    }
  }

  /**
   * One turn of the loop of `up` (or `down`): ask the ledger, and if the migration is
   * to be run, read its script, execute it, and record (or erase) it in the ledger.
   */
  method MigrateOne(dir: Direction, m: Migrations, client: Client, files: map<Path, string>, name: Name,
                    ghost ran: seq<Applied>, ghost base: seq<string>)
    returns (r: Result<(), Error>, ghost ran': seq<Applied>)
    requires client.hasLedger && name in Scripts(m, dir)
    requires client.executed == base + ScriptsOf(ran)
    modifies client`ledger, client`executed
    ensures var st := Step(dir, m, files, client.faults, RunState(old(client.ledger), ran, Success(())), name);
      r == st.result && client.ledger == st.ledger && ran' == st.ran
    ensures client.executed == base + ScriptsOf(ran')
  {
    ran' := ran;
    var present := Exists(m, client, name);
    if present.Failure? {
      return Failure(present.error), ran';
    }
    r := Success(());
    if Acts(dir, present.value) {
      var path := Scripts(m, dir)[name];
      if path !in files {
        return Failure(ReadFailed(path)), ran';
      }
      var content := files[path];
      ran' := ran + [Applied(name, content)];
      r := ExecuteScript(client, content);
      assert ScriptsOf(ran') == ScriptsOf(ran) + [content];
      if r.Failure? {
        return;
      }
      if dir == Upward {
        r := InsertMigration(m, client, name);
      } else {
        r := DeleteMigration(m, client, name);
      }
    }
  }

  /** The loop shared by `up` and `down`: one turn per name, stopping at the first error. */
  method RunLoop(dir: Direction, m: Migrations, client: Client, files: map<Path, string>, names: seq<Name>)
    returns (r: Result<(), Error>)
    requires client.hasLedger && AllIn(names, Scripts(m, dir))
    modifies client`ledger, client`executed
    ensures var st := Run(dir, m, files, client.faults, old(client.ledger), names);
      && r == st.result
      && client.ledger == st.ledger
      && client.executed == old(client.executed) + ScriptsOf(st.ran)
  {
    ghost var ran: seq<Applied> := [];
    var i := 0;
    while i < |names|
      invariant 0 <= i <= |names|
      invariant Run(dir, m, files, client.faults, old(client.ledger), names[..i]) == RunState(client.ledger, ran, Success(()))
      invariant client.executed == old(client.executed) + ScriptsOf(ran)
    {
      assert names[..i + 1][..i] == names[..i];
      r, ran := MigrateOne(dir, m, client, files, names[i], ran, old(client.executed));
      if r.Failure? {
        RunStaysFailed(dir, m, files, client.faults, old(client.ledger), names, i + 1);
        return;
      }
      i := i + 1;
    }
    assert names[..i] == names;
    r := Success(());
  }

  /** `up`: applies, in ordinal order, every migration the ledger does not record. */
  method Up(m: Migrations, client: Client, files: map<Path, string>) returns (r: Result<(), Error>, ghost order: seq<Name>)
    requires client.Valid()
    modifies client
    ensures client.Valid()
    ensures client.hasLedger == (old(client.hasLedger) || CreateLedger !in client.faults)
    ensures CreateLedger !in client.faults && !OrderingFails(m.up.Keys) ==> Arranged(m.up.Keys, order)
    ensures var st := Migrate(Upward, m, files, client.faults, old(client.ledger), order);
      && r == st.result
      && client.ledger == st.ledger
      && client.executed == old(client.executed) + ScriptsOf(st.ran)
  {
    order := [];
    r := CreateTable(m, client);
    if r.Failure? {
      return;
    }
    var sorted := OrderNames(m.up.Keys);
    if sorted.None? {
      return Failure(InvalidOrdinal), order;
    }
    order := sorted.value;
    r := RunLoop(Upward, m, client, files, sorted.value);
  }

  /** `down`: reverts, in the same ascending ordinal order, every migration the ledger records. */
  method Down(m: Migrations, client: Client, files: map<Path, string>) returns (r: Result<(), Error>, ghost order: seq<Name>)
    requires client.Valid()
    modifies client
    ensures client.Valid()
    ensures client.hasLedger == (old(client.hasLedger) || CreateLedger !in client.faults)
    ensures CreateLedger !in client.faults && !OrderingFails(m.down.Keys) ==> Arranged(m.down.Keys, order)
    ensures var st := Migrate(Downward, m, files, client.faults, old(client.ledger), order);
      && r == st.result
      && client.ledger == st.ledger
      && client.executed == old(client.executed) + ScriptsOf(st.ran)
  {
    order := [];
    r := CreateTable(m, client);
    if r.Failure? {
      return;
    }
    var sorted := OrderNames(m.down.Keys);
    if sorted.None? {
      return Failure(InvalidOrdinal), order;
    }
    order := sorted.value;
    r := RunLoop(Downward, m, client, files, sorted.value);
  }
}
