/**
 * The order in which the migration engine visits migrations: by the unsigned
 * integer written before the first `_` of a migration's name (its ordinal),
 * not by the name's lexical order.
 */
module MigrationOrder {
  import opened Base
  import opened Text

  type Name = string

  /** One more than the largest value of a `u64`. */
  const U64_LIMIT: int := 0x1_0000_0000_0000_0000

  /** The first item of `name.split('_')`: everything before the first `_`, or the whole name. */
  function OrdinalText(name: Name): string {
    BeforeFirst(name, '_')
  }

  /** `u64::from_str`: an optional `+`, then at least one ASCII digit, and a value that fits 64 bits. */
  function ParseU64(s: string): Option<nat> {
    var digits := if |s| > 0 && s[0] == '+' then s[1..] else s;
    if digits == [] || !AllDigits(digits) then None
    else if DigitsValue(digits) < U64_LIMIT then Some(DigitsValue(digits))
    else None
  }

  /** Every number a `u64` can hold is read back by `u64::from_str` from its decimal rendering. */
  lemma ParseDecimal(n: nat)
    requires n < U64_LIMIT
    ensures ParseU64(Decimal(n)) == Some(n)
  {
    DecimalValue(n);
  }

  /** The sort key of a migration name, when its prefix parses. */
  function Ordinal(name: Name): Option<nat> {
    ParseU64(OrdinalText(name))
  }

  predicate HasOrdinal(name: Name) {
    Ordinal(name).Some?
  }

  /** The key the sort compares; only consulted when every name has an ordinal. */
  function Key(name: Name): nat {
    Ordinal(name).GetOr(0)
  }

  ghost predicate SortedBy(s: seq<Name>, key: Name -> nat) {
    forall i, j :: 0 <= i < j < |s| ==> key(s[i]) <= key(s[j])
  }

  ghost predicate SortedByOrdinal(s: seq<Name>) {
    SortedBy(s, Key)
  }

  ghost predicate Distinct(s: seq<Name>) {
    forall i, j :: 0 <= i < j < |s| ==> s[i] != s[j]
  }

  /**
   * `sort_by_key(...unwrap())` panics exactly when some key fails to parse and the
   * sort looks at keys at all, which it does only for two or more names.
   */
  ghost predicate OrderingFails(names: set<Name>) {
    |names| >= 2 && exists n :: n in names && !HasOrdinal(n)
  }

  /** `order` lists every name of `names` exactly once. */
  ghost predicate Lists(names: set<Name>, order: seq<Name>) {
    Distinct(order) && forall n :: n in order <==> n in names
  }

  /** `order` lists every name of `names` once, in ascending order of ordinal. */
  ghost predicate Arranged(names: set<Name>, order: seq<Name>) {
    Lists(names, order) && SortedByOrdinal(order)
  }

  /** Insert `x` before the first element whose key is not smaller. */
  function Insert(x: Name, s: seq<Name>, key: Name -> nat): (r: seq<Name>)
    ensures multiset(r) == multiset(s) + multiset{x}
  {
    if s == [] || key(x) <= key(s[0]) then [x] + s
    else
      assert s == [s[0]] + s[1..];
      [s[0]] + Insert(x, s[1..], key)
  }

  lemma SortedTail(s: seq<Name>, key: Name -> nat)
    requires SortedBy(s, key) && s != []
    ensures SortedBy(s[1..], key)
  {
    forall i, j | 0 <= i < j < |s[1..]| ensures key(s[1..][i]) <= key(s[1..][j]) {
      assert s[1..][i] == s[i + 1] && s[1..][j] == s[j + 1];
    }
  }

  lemma SortedCons(a: Name, rest: seq<Name>, key: Name -> nat)
    requires SortedBy(rest, key)
    requires forall k :: 0 <= k < |rest| ==> key(a) <= key(rest[k])
    ensures SortedBy([a] + rest, key)
  {
    var r := [a] + rest;
    forall i, j | 0 <= i < j < |r| ensures key(r[i]) <= key(r[j]) {
      if i > 0 {
        assert r[i] == rest[i - 1];
      }
      assert r[j] == rest[j - 1];
    }
  }

  /** Inserting keeps every key at or above a lower bound that `x` and `s` respect. */
  lemma {:induction false} InsertAbove(x: Name, s: seq<Name>, key: Name -> nat, low: nat)
    requires low <= key(x) && forall k :: 0 <= k < |s| ==> low <= key(s[k])
    ensures forall k :: 0 <= k < |Insert(x, s, key)| ==> low <= key(Insert(x, s, key)[k])
  {
    if s != [] && key(x) > key(s[0]) {
      InsertAbove(x, s[1..], key, low);
      var rest := Insert(x, s[1..], key);
      assert forall k :: 0 <= k < |rest| ==> low <= key(rest[k]);
      assert Insert(x, s, key) == [s[0]] + rest;
    }
  }

  lemma {:induction false} InsertSorted(x: Name, s: seq<Name>, key: Name -> nat)
    requires SortedBy(s, key)
    ensures SortedBy(Insert(x, s, key), key)
  {
    if s == [] || key(x) <= key(s[0]) {
      SortedCons(x, s, key);
    } else {
      SortedTail(s, key);
      InsertSorted(x, s[1..], key);
      InsertAbove(x, s[1..], key, key(s[0]));
      SortedCons(s[0], Insert(x, s[1..], key), key);
    }
  }

  lemma {:induction false} InsertDistinct(x: Name, s: seq<Name>, key: Name -> nat)
    requires Distinct(s) && x !in s
    ensures Distinct(Insert(x, s, key))
  {
    if s != [] && key(x) > key(s[0]) {
      var rest := Insert(x, s[1..], key);
      InsertDistinct(x, s[1..], key);
      assert s == [s[0]] + s[1..];
      assert s[0] !in multiset(rest);
    }
  }

  /** A stable insertion sort by key: the model of the library's `sort_by_key`. */
  function InsertionSort(s: seq<Name>, key: Name -> nat): (r: seq<Name>)
    ensures multiset(r) == multiset(s)
  {
    if s == [] then []
    else
      assert s == [s[0]] + s[1..];
      Insert(s[0], InsertionSort(s[1..], key), key)
  }

  /** The sort's output is ordered by the key, and repeats no name its input did not repeat. */
  lemma {:induction false} InsertionSortArranges(s: seq<Name>, key: Name -> nat)
    ensures SortedBy(InsertionSort(s, key), key)
    ensures Distinct(s) ==> Distinct(InsertionSort(s, key))
  {
    if s != [] {
      assert s == [s[0]] + s[1..];
      var rest := InsertionSort(s[1..], key);
      InsertionSortArranges(s[1..], key);
      InsertSorted(s[0], rest, key);
      if Distinct(s) {
        assert s[0] !in multiset(rest);
        InsertDistinct(s[0], rest, key);
      }
    }
  }

  /** `keys().collect()`: the names of a map, once each, in whatever order the map yields them. */
  method ListNames(names: set<Name>) returns (listed: seq<Name>)
    ensures Lists(names, listed) && |listed| == |names|
  {
    listed := [];
    var rest := names;
    while rest != {}
      invariant rest <= names
      invariant Distinct(listed)
      invariant forall n :: n in listed ==> n in names && n !in rest
      invariant forall n :: n in names ==> n in listed || n in rest
      invariant |listed| + |rest| == |names|
      decreases |rest|
    {
      var n :| n in rest;
      listed := listed + [n];
      rest := rest - {n};
    }
  }

  /** Sorting a listing of names by ordinal arranges them. */
  lemma SortArranges(names: set<Name>, listed: seq<Name>)
    requires Lists(names, listed)
    ensures Arranged(names, InsertionSort(listed, Key))
  {
    var sorted := InsertionSort(listed, Key);
    InsertionSortArranges(listed, Key);
    forall n ensures n in sorted <==> n in names {
      assert n in sorted <==> n in multiset(listed);
    }
  }

  /**
   * The sorted name list of `up` and `down`: the keys of the map in whatever order the
   * map yields them, then sorted by ordinal. `None` stands for the panic of the key's `unwrap`.
   */
  method OrderNames(names: set<Name>) returns (r: Option<seq<Name>>)
    ensures r.None? <==> OrderingFails(names)
    ensures r.Some? ==> Arranged(names, r.value)
  {
    var listed := ListNames(names);
    if |listed| < 2 {
      assert !OrderingFails(names);
      return Some(listed);
    }
    var i := 0;
    while i < |listed|
      invariant 0 <= i <= |listed|
      invariant forall k :: 0 <= k < i ==> HasOrdinal(listed[k])
    {
      if !HasOrdinal(listed[i]) {
        return None;
      }
      i := i + 1;
    }
    assert forall n :: n in names ==> HasOrdinal(n) by {
      forall n | n in names ensures HasOrdinal(n) {
        var k :| 0 <= k < |listed| && listed[k] == n;
      }
    }
    SortArranges(names, listed);
    r := Some(InsertionSort(listed, Key));
  }

  ghost predicate StrictlyBy(s: seq<Name>, key: Name -> nat) {
    forall i, j :: 0 <= i < j < |s| ==> key(s[i]) < key(s[j])
  }

  /** Ordinals strictly ascend along `s`, so no two of its names share one. */
  ghost predicate StrictlyAscending(s: seq<Name>) {
    StrictlyBy(s, Key)
  }

  /** The first name of an ascending order has the least ordinal of all the names. */
  lemma ArrangedHead(names: set<Name>, o: seq<Name>, n: Name)
    requires Arranged(names, o) && n in names
    ensures Key(o[0]) <= Key(n)
  {
    var k :| 0 <= k < |o| && o[k] == n;
    if k > 0 {
      assert Key(o[0]) <= Key(o[k]);
    }
  }

  lemma ListsTail(names: set<Name>, o: seq<Name>)
    requires Lists(names, o) && o != []
    ensures Lists(names - {o[0]}, o[1..])
  {
    forall n ensures n in o[1..] <==> n in names - {o[0]} {
      assert n in o <==> n == o[0] || n in o[1..];
      if n in o[1..] {
        var k :| 0 <= k < |o[1..]| && o[1..][k] == n;
        assert o[k + 1] == n;
      }
    }
  }

  lemma {:induction false} ListsLength(names: set<Name>, o: seq<Name>)
    requires Lists(names, o)
    ensures |o| == |names|
    decreases |o|
  {
    if o == [] {
      assert names == {};
    } else {
      ListsTail(names, o);
      ListsLength(names - {o[0]}, o[1..]);
    }
  }

  /** In a strictly ascending order, only its first name has an ordinal as small as the first. */
  lemma StrictHead(names: set<Name>, o: seq<Name>, n: Name)
    requires Arranged(names, o) && StrictlyAscending(o)
    requires n in names && Key(n) <= Key(o[0])
    ensures n == o[0]
  {
    var k :| 0 <= k < |o| && o[k] == n;
    assert k == 0;
  }

  /** When names' ordinals strictly ascend along some order, that is their only ascending order. */
  lemma {:induction false} ArrangedUnique(names: set<Name>, o1: seq<Name>, o2: seq<Name>)
    requires Arranged(names, o1) && Arranged(names, o2) && StrictlyAscending(o2)
    ensures o1 == o2
    decreases |o1|
  {
    ListsLength(names, o1);
    ListsLength(names, o2);
    if o1 != [] {
      var a, b := o1[0], o2[0];
      assert a in names && b in names;
      ArrangedHead(names, o1, b);
      StrictHead(names, o2, a);
      ListsTail(names, o1);
      ListsTail(names, o2);
      ArrangedUnique(names - {a}, o1[1..], o2[1..]);
      assert o1 == [a] + o1[1..] && o2 == [b] + o2[1..];
    }
  }

  lemma KeyOfOne()
    ensures Key("1_a") == 1
  {
    assert OrdinalText("1_a") == "1" by {
      assert BeforeFirst("1_a", '_') == ['1'] + BeforeFirst("_a", '_');
    }
    assert DigitsValue("1") == 1 by {
      assert "1"[..0] == "";
    }
  }

  lemma KeyOfTwo()
    ensures Key("2_b") == 2
  {
    assert OrdinalText("2_b") == "2" by {
      assert BeforeFirst("2_b", '_') == ['2'] + BeforeFirst("_b", '_');
    }
    assert DigitsValue("2") == 2 by {
      assert "2"[..0] == "";
    }
  }

  lemma KeyOfTen()
    ensures Key("10_c") == 10
  {
    assert OrdinalText("10_c") == "10" by {
      assert BeforeFirst("10_c", '_') == ['1'] + BeforeFirst("0_c", '_');
      assert BeforeFirst("0_c", '_') == ['0'] + BeforeFirst("_c", '_');
    }
    assert DigitsValue("10") == 10 by {
      assert "10"[..1] == "1";
      assert "1"[..0] == "";
    }
  }

  lemma ExampleKeys()
    ensures Key("1_a") == 1 && Key("2_b") == 2 && Key("10_c") == 10
  {
    KeyOfOne();
    KeyOfTwo();
    KeyOfTen();
  }

  lemma ThreeAscending(s: seq<Name>, key: Name -> nat)
    requires |s| == 3 && key(s[0]) < key(s[1]) < key(s[2])
    ensures StrictlyBy(s, key) && SortedBy(s, key)
  {
  }

  lemma ExampleSorted()
    ensures StrictlyAscending(["1_a", "2_b", "10_c"])
    ensures SortedByOrdinal(["1_a", "2_b", "10_c"])
  {
    ExampleKeys();
    var expected := ["1_a", "2_b", "10_c"];
    assert expected[0] == "1_a" && expected[1] == "2_b" && expected[2] == "10_c";
    ThreeAscending(expected, Key);
  }

  lemma ExampleLists()
    ensures Lists({"1_a", "2_b", "10_c"}, ["1_a", "2_b", "10_c"])
  {
    var expected := ["1_a", "2_b", "10_c"];
    assert expected[0] == "1_a" && expected[1] == "2_b" && expected[2] == "10_c";
    forall i, j | 0 <= i < j < |expected| ensures expected[i] != expected[j] {
      assert expected[i][0] != expected[j][0] || |expected[i]| != |expected[j]|;
    }
  }

  /** Numeric, not lexical: `1_a`, `2_b`, `10_c` is the only order of these three names. */
  lemma NumericNotLexical(order: seq<Name>)
    requires Arranged({"1_a", "2_b", "10_c"}, order)
    ensures order == ["1_a", "2_b", "10_c"]
    ensures order != ["1_a", "10_c", "2_b"]
  {
    ExampleSorted();
    ExampleLists();
    ArrangedUnique({"1_a", "2_b", "10_c"}, order, ["1_a", "2_b", "10_c"]);
  }
}
