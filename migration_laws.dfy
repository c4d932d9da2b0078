/**
 * What `up` and `down` promise about the ledger and about which scripts run:
 * the ledger round trip, idempotence of `up`, fail-fast without rollback, and
 * that a migration's script runs only when the ledger calls for it.
 */
module MigrationLaws {
  import opened Base
  import opened MigrationOrder
  import opened Postgres
  import opened SchemaMigrations

  ghost function Elems(order: seq<Name>): set<Name> {
    set i | 0 <= i < |order| :: order[i]
  }

  /** The ledger a complete run leaves: `up` adds every name, `down` removes every name. */
  ghost function Target(dir: Direction, ledger: set<Name>, order: seq<Name>): set<Name> {
    if dir == Upward then ledger + Elems(order) else ledger - Elems(order)
  }

  /** The names, in order, whose scripts a complete run executes. */
  function Pending(dir: Direction, order: seq<Name>, ledger: set<Name>): seq<Name>
    decreases |order|
  {
    if order == [] then []
    else
      var last := order[|order| - 1];
      Pending(dir, order[..|order| - 1], ledger) + (if Acts(dir, last in ledger) then [last] else [])
  }

  /** Every script that ran is the content of that migration's script file. */
  ghost predicate ScriptsMatch(m: Migrations, dir: Direction, files: map<Path, string>, ran: seq<Applied>) {
    forall i :: 0 <= i < |ran| ==>
      ran[i].name in Scripts(m, dir) && Scripts(m, dir)[ran[i].name] in files
      && ran[i].script == files[Scripts(m, dir)[ran[i].name]]
  }

  lemma NamesOfAppend(ran: seq<Applied>, a: Applied)
    ensures NamesOf(ran + [a]) == NamesOf(ran) + [a.name]
  {
  }

  /** `x` is pending exactly when it is in the order and the ledger calls for it. */
  lemma {:induction false} PendingMembers(dir: Direction, order: seq<Name>, ledger: set<Name>, x: Name)
    ensures x in Pending(dir, order, ledger) <==> x in order && Acts(dir, x in ledger)
    decreases |order|
  {
    if order != [] {
      var init := order[..|order| - 1];
      PendingMembers(dir, init, ledger, x);
      assert order == init + [order[|order| - 1]];
    }
  }

  /** Only a step that runs a script extends the list of scripts run, and by that one. */
  lemma StepRan(dir: Direction, m: Migrations, files: map<Path, string>, faults: set<Op>, st: RunState, name: Name)
    requires name in Scripts(m, dir)
    ensures var next := Step(dir, m, files, faults, st, name);
      || next.ran == st.ran
      || (Acts(dir, name in st.ledger) && NamesOf(next.ran) == NamesOf(st.ran) + [name]
          && next.ran == st.ran + [next.ran[|next.ran| - 1]])
  {
    var next := Step(dir, m, files, faults, st, name);
    if next.ran != st.ran {
      NamesOfAppend(st.ran, next.ran[|next.ran| - 1]);
    }
  }

  /** The scripts a run executed are a prefix of the pending ones, and all of them when it succeeds. */
  lemma {:induction false} RunRanPending(dir: Direction, m: Migrations, files: map<Path, string>, faults: set<Op>,
                                         ledger: set<Name>, order: seq<Name>)
    requires AllIn(order, Scripts(m, dir)) && Distinct(order)
    ensures var st := Run(dir, m, files, faults, ledger, order);
      && NamesOf(st.ran) <= Pending(dir, order, ledger)
      && (st.result.Success? ==> NamesOf(st.ran) == Pending(dir, order, ledger))
    decreases |order|
  {
    if order != [] {
      var init, last := order[..|order| - 1], order[|order| - 1];
      assert Distinct(init) && AllIn(init, Scripts(m, dir));
      RunRanPending(dir, m, files, faults, ledger, init);
      var prev := Run(dir, m, files, faults, ledger, init);
      if prev.result.Success? {
        RunLedger(dir, m, files, faults, ledger, init);
        assert last !in init;
        assert last in prev.ledger <==> last in ledger;
        StepRan(dir, m, files, faults, prev, last);
      }
    }
  }

  /**
   * The ledger after a run: names outside the order keep their state, a successful run
   * reaches the target, and a run that executed nothing left the ledger as it was.
   */
  lemma {:induction false} RunLedger(dir: Direction, m: Migrations, files: map<Path, string>, faults: set<Op>,
                                     ledger: set<Name>, order: seq<Name>)
    requires AllIn(order, Scripts(m, dir))
    ensures var st := Run(dir, m, files, faults, ledger, order);
      && (st.result.Success? ==> st.ledger == Target(dir, ledger, order))
      && (forall n :: n !in order ==> (n in st.ledger <==> n in ledger))
      && (st.ran == [] ==> st.ledger == ledger)
    decreases |order|
  {
    if order != [] {
      var init, last := order[..|order| - 1], order[|order| - 1];
      assert order == init + [last];
      RunLedger(dir, m, files, faults, ledger, init);
      assert forall n :: n in order <==> n in init || n == last;
      assert Elems(order) == Elems(init) + {last};
      var prev := Run(dir, m, files, faults, ledger, init);
      if prev.result.Success? {
        StepRan(dir, m, files, faults, prev, last);
      }
    }
  }

  /** Every script a run executed is the content of that migration's file. */
  lemma {:induction false} RunScriptsMatch(dir: Direction, m: Migrations, files: map<Path, string>, faults: set<Op>,
                                           ledger: set<Name>, order: seq<Name>)
    requires AllIn(order, Scripts(m, dir))
    ensures ScriptsMatch(m, dir, files, Run(dir, m, files, faults, ledger, order).ran)
    decreases |order|
  {
    if order != [] {
      RunScriptsMatch(dir, m, files, faults, ledger, order[..|order| - 1]);
    }
  }

  /** A failed step leaves the ledger as it found it. */
  lemma StepFailureKeepsLedger(dir: Direction, m: Migrations, files: map<Path, string>, faults: set<Op>, st: RunState, name: Name)
    requires name in Scripts(m, dir) && st.result.Success?
    requires Step(dir, m, files, faults, st, name).result.Failure?
    ensures Step(dir, m, files, faults, st, name).ledger == st.ledger
  {
  }

  /** The migration a run failed at left no trace in the ledger; the earlier ones all took effect. */
  lemma FailedAt(dir: Direction, m: Migrations, files: map<Path, string>, faults: set<Op>,
                 ledger: set<Name>, order: seq<Name>, k: nat)
    requires AllIn(order, Scripts(m, dir)) && Distinct(order) && k < |order|
    requires Run(dir, m, files, faults, ledger, order[..k]).result.Success?
    requires Run(dir, m, files, faults, ledger, order[..k + 1]).result.Failure?
    ensures Run(dir, m, files, faults, ledger, order[..k + 1]).ledger == Target(dir, ledger, order[..k])
    ensures order[k] in Run(dir, m, files, faults, ledger, order[..k + 1]).ledger <==> order[k] in ledger
  {
    var init := order[..k];
    assert order[..k + 1][..k] == init;
    var prev := Run(dir, m, files, faults, ledger, init);
    StepFailureKeepsLedger(dir, m, files, faults, prev, order[k]);
    RunLedger(dir, m, files, faults, ledger, init);
    assert order[k] !in init;
  }

  /** A failed run stopped at some name `order[k]`: everything before it succeeded, nothing after it was tried. */
  lemma {:induction false} FailurePoint(dir: Direction, m: Migrations, files: map<Path, string>, faults: set<Op>,
                                        ledger: set<Name>, order: seq<Name>)
    returns (k: nat)
    requires AllIn(order, Scripts(m, dir))
    requires Run(dir, m, files, faults, ledger, order).result.Failure?
    ensures k < |order|
    ensures Run(dir, m, files, faults, ledger, order[..k]).result.Success?
    ensures Run(dir, m, files, faults, ledger, order) == Run(dir, m, files, faults, ledger, order[..k + 1])
    decreases |order|
  {
    var init := order[..|order| - 1];
    if Run(dir, m, files, faults, ledger, init).result.Failure? {
      k := FailurePoint(dir, m, files, faults, ledger, init);
      assert init[..k] == order[..k] && init[..k + 1] == order[..k + 1];
    } else {
      k := |order| - 1;
      assert init == order[..k] && order == order[..k + 1];
    }
  }

  /**
   * Fail-fast without rollback: a failed run stopped at one name `order[k]`; nothing after
   * it was attempted, every earlier migration keeps its effect on the ledger, and the failing
   * one has none.
   */
  lemma FailFast(dir: Direction, m: Migrations, files: map<Path, string>, faults: set<Op>,
                 ledger: set<Name>, order: seq<Name>)
    returns (k: nat)
    requires AllIn(order, Scripts(m, dir)) && Distinct(order)
    requires Run(dir, m, files, faults, ledger, order).result.Failure?
    ensures k < |order|
    ensures Run(dir, m, files, faults, ledger, order[..k]).result.Success?
    ensures Run(dir, m, files, faults, ledger, order) == Run(dir, m, files, faults, ledger, order[..k + 1])
    ensures Run(dir, m, files, faults, ledger, order).ledger == Target(dir, ledger, order[..k])
    ensures order[k] in Run(dir, m, files, faults, ledger, order).ledger <==> order[k] in ledger
  {
    k := FailurePoint(dir, m, files, faults, ledger, order);
    FailedAt(dir, m, files, faults, ledger, order, k);
  }

  /** With nothing pending and every ledger query answered, a run succeeds and changes nothing. */
  lemma {:induction false} RunQuiet(dir: Direction, m: Migrations, files: map<Path, string>, faults: set<Op>,
                                    ledger: set<Name>, order: seq<Name>)
    requires AllIn(order, Scripts(m, dir))
    requires forall i :: 0 <= i < |order| ==> !Acts(dir, order[i] in ledger) && Count(order[i]) !in faults
    ensures Run(dir, m, files, faults, ledger, order) == RunState(ledger, [], Success(()))
    decreases |order|
  {
    if order != [] {
      RunQuiet(dir, m, files, faults, ledger, order[..|order| - 1]);
    }
  }

  /** A server that rejects nothing and a complete set of script files: the run succeeds. */
  lemma {:induction false} RunSucceedsWithoutFaults(dir: Direction, m: Migrations, files: map<Path, string>,
                                                    ledger: set<Name>, order: seq<Name>)
    requires AllIn(order, Scripts(m, dir))
    requires forall n :: n in Scripts(m, dir) ==> Scripts(m, dir)[n] in files
    ensures Run(dir, m, files, {}, ledger, order).result.Success?
    decreases |order|
  {
    if order != [] {
      RunSucceedsWithoutFaults(dir, m, files, ledger, order[..|order| - 1]);
    }
  }

  // ---------------------------------------------------------------------------
  // `up` and `down` as a whole

  /** The precondition of `Migrate`: the order is the sorted catalog whenever sorting happens. */
  ghost predicate OrderOk(dir: Direction, m: Migrations, faults: set<Op>, order: seq<Name>) {
    CreateLedger !in faults && !OrderingFails(Scripts(m, dir).Keys) ==> Arranged(Scripts(m, dir).Keys, order)
  }

  lemma ArrangedElems(names: set<Name>, order: seq<Name>)
    requires Arranged(names, order)
    ensures Elems(order) == names
  {
    forall n | n in names ensures n in Elems(order) {
      var i :| 0 <= i < |order| && order[i] == n;
    }
  }

  /**
   * A successful `up` records every catalog migration, ran the script of exactly the ones
   * the ledger lacked (each once, in ordinal order), and left other ledger rows alone.
   */
  lemma UpOutcome(m: Migrations, files: map<Path, string>, faults: set<Op>, ledger: set<Name>, order: seq<Name>)
    requires OrderOk(Upward, m, faults, order)
    requires Migrate(Upward, m, files, faults, ledger, order).result.Success?
    ensures var st := Migrate(Upward, m, files, faults, ledger, order);
      && st.ledger == ledger + m.up.Keys
      && NamesOf(st.ran) == Pending(Upward, order, ledger)
      && (forall n :: n in NamesOf(st.ran) <==> n in m.up && n !in ledger)
      && ScriptsMatch(m, Upward, files, st.ran)
  {
    ArrangedElems(m.up.Keys, order);
    RunRanPending(Upward, m, files, faults, ledger, order);
    RunLedger(Upward, m, files, faults, ledger, order);
    RunScriptsMatch(Upward, m, files, faults, ledger, order);
    forall n ensures n in Pending(Upward, order, ledger) <==> n in m.up && n !in ledger {
      PendingMembers(Upward, order, ledger, n);
    }
  }

  /**
   * `up` is idempotent: after one successful `up`, another (even against a server that now
   * rejects statements) runs no script and leaves the ledger as it is.
   */
  lemma UpIdempotent(m: Migrations, files: map<Path, string>, faults: set<Op>, ledger: set<Name>, order: seq<Name>,
                     files': map<Path, string>, faults': set<Op>, order': seq<Name>, first: RunState, second: RunState)
    requires OrderOk(Upward, m, faults, order) && OrderOk(Upward, m, faults', order')
    requires first == Migrate(Upward, m, files, faults, ledger, order) && first.result.Success?
    requires second == Migrate(Upward, m, files', faults', first.ledger, order')
    ensures second.ran == [] && second.ledger == first.ledger
  {
    UpOutcome(m, files, faults, ledger, order);
    if CreateLedger !in faults' && !OrderingFails(m.up.Keys) {
      RunRanPending(Upward, m, files', faults', first.ledger, order');
      RunLedger(Upward, m, files', faults', first.ledger, order');
      PendingNone(Upward, order', first.ledger);
      assert |NamesOf(second.ran)| == 0;
    }
  }

  /**
   * A successful `down` erases every catalog migration from the ledger and ran the down
   * script of exactly the ones the ledger had, in ordinal order.
   */
  lemma DownOutcome(m: Migrations, files: map<Path, string>, faults: set<Op>, ledger: set<Name>, order: seq<Name>)
    requires OrderOk(Downward, m, faults, order)
    requires Migrate(Downward, m, files, faults, ledger, order).result.Success?
    ensures var st := Migrate(Downward, m, files, faults, ledger, order);
      && st.ledger == ledger - m.down.Keys
      && NamesOf(st.ran) == Pending(Downward, order, ledger)
      && (forall n :: n in NamesOf(st.ran) <==> n in m.down && n in ledger)
      && ScriptsMatch(m, Downward, files, st.ran)
    ensures Arranged(m.down.Keys, order)
  {
    ArrangedElems(m.down.Keys, order);
    RunRanPending(Downward, m, files, faults, ledger, order);
    RunLedger(Downward, m, files, faults, ledger, order);
    RunScriptsMatch(Downward, m, files, faults, ledger, order);
    forall n ensures n in Pending(Downward, order, ledger) <==> n in m.down && n in ledger {
      PendingMembers(Downward, order, ledger, n);
    }
  }

  /**
   * The ledger round trip: after a successful `up` every catalog migration is recorded;
   * a successful `down` after it runs every down script in ordinal order and erases all of
   * them, leaving exactly the rows that were not catalog migrations.
   */
  lemma LedgerRoundTrip(m: Migrations, files: map<Path, string>, faults: set<Op>, ledger: set<Name>, order: seq<Name>,
                        files': map<Path, string>, faults': set<Op>, order': seq<Name>, up: RunState, down: RunState)
    requires m.up.Keys == m.down.Keys
    requires OrderOk(Upward, m, faults, order) && OrderOk(Downward, m, faults', order')
    requires up == Migrate(Upward, m, files, faults, ledger, order) && up.result.Success?
    requires down == Migrate(Downward, m, files', faults', up.ledger, order') && down.result.Success?
    ensures forall n :: n in m.up ==> n in up.ledger
    ensures down.ledger == ledger - m.up.Keys
    ensures NamesOf(down.ran) == order'
  {
    assert up.ledger == ledger + m.up.Keys by {
      UpOutcome(m, files, faults, ledger, order);
    }
    assert down.ledger == up.ledger - m.down.Keys && NamesOf(down.ran) == Pending(Downward, order', up.ledger)
        && Arranged(m.down.Keys, order') by {
      DownOutcome(m, files', faults', up.ledger, order');
    }
    forall i | 0 <= i < |order'| ensures order'[i] in up.ledger {
      assert order'[i] in m.down.Keys;
    }
    PendingAll(Downward, order', up.ledger);
    assert (ledger + m.up.Keys) - m.up.Keys == ledger - m.up.Keys;
  }

  /** When the ledger calls for every name of the order, all of them are pending. */
  lemma {:induction false} PendingAll(dir: Direction, order: seq<Name>, ledger: set<Name>)
    requires forall i :: 0 <= i < |order| ==> Acts(dir, order[i] in ledger)
    ensures Pending(dir, order, ledger) == order
    decreases |order|
  {
    if order != [] {
      PendingAll(dir, order[..|order| - 1], ledger);
      assert order == order[..|order| - 1] + [order[|order| - 1]];
    }
  }

  /**
   * `down` against an empty ledger deletes nothing and runs no script; it fails only if
   * the table cannot be created, the ordering panics, or a ledger query fails.
   */
  lemma DownOnEmptyLedger(m: Migrations, files: map<Path, string>, faults: set<Op>, order: seq<Name>)
    requires OrderOk(Downward, m, faults, order)
    ensures var st := Migrate(Downward, m, files, faults, {}, order);
      && st.ran == [] && st.ledger == {}
      && (CreateLedger !in faults && !OrderingFails(m.down.Keys) && (forall n :: Count(n) !in faults)
          ==> st.result.Success?)
  {
    if CreateLedger !in faults && !OrderingFails(m.down.Keys) {
      ArrangedElems(m.down.Keys, order);
      if forall n :: Count(n) !in faults {
        RunQuiet(Downward, m, files, faults, {}, order);
      } else {
        RunRanPending(Downward, m, files, faults, {}, order);
        RunLedger(Downward, m, files, faults, {}, order);
        PendingNone(Downward, order, {});
        assert |NamesOf(Run(Downward, m, files, faults, {}, order).ran)| == 0;
      }
    }
  }

  /** When the ledger calls for no name of the order, nothing is pending. */
  lemma {:induction false} PendingNone(dir: Direction, order: seq<Name>, ledger: set<Name>)
    requires forall i :: 0 <= i < |order| ==> !Acts(dir, order[i] in ledger)
    ensures Pending(dir, order, ledger) == []
    decreases |order|
  {
    if order != [] {
      PendingNone(dir, order[..|order| - 1], ledger);
    }
  }
}
