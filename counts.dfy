/**
  Count maps: the `defaultdict(int)` tables of the commander state (cargo and the
  three material categories) and the bounty plugin's tallies. An absent key
  reads as 0, as a `defaultdict(int)` does.
 */
module Counts {

  type Tally = map<string, int>

  /** `{Name, Count}` element of a cargo inventory or a material list. */
  datatype Item = Item(name: string, count: int)

  /** `m[k]` on a `defaultdict(int)` */
  function Stock(m: Tally, k: string): int {
    if k in m then m[k] else 0
  }

  /** Sparse: every key present holds a positive count. */
  predicate Sparse(m: Tally) {
    forall k :: k in m ==> m[k] > 0
  }

  /** `m[k] += d` on a `defaultdict(int)`: the key is kept whatever the result. */
  function Bumped(m: Tally, k: string, d: int): (r: Tally)
    ensures k in r && Stock(r, k) == Stock(m, k) + d
    ensures forall j :: j != k ==> (j in r <==> j in m) && Stock(r, j) == Stock(m, j)
    ensures Sparse(m) && d > 0 ==> Sparse(r)
  {
    m[k := Stock(m, k) + d]
  }

  /**
    `m[k] += d`, then the key is removed when the count is no longer positive
    (`add_cargo`, and the discard branches of the journal parser).
   */
  function Restocked(m: Tally, k: string, d: int): (r: Tally)
    ensures k in r <==> Stock(m, k) + d > 0
    ensures Stock(r, k) == if Stock(m, k) + d > 0 then Stock(m, k) + d else 0
    ensures forall j :: j != k ==> (j in r <==> j in m) && Stock(r, j) == Stock(m, j)
    ensures Sparse(m) ==> Sparse(r)
  {
    var n := Stock(m, k) + d;
    if n > 0 then m[k := n] else m - {k}
  }

  /** Adding a positive amount and then taking it away restores a sparse map. */
  lemma RestockRoundTrip(m: Tally, k: string, d: int)
    requires Sparse(m) && d > 0
    ensures Restocked(Restocked(m, k, d), k, -d) == m
  {
    var r := Restocked(Restocked(m, k, d), k, -d);
    assert forall j :: j in r <==> j in m;
    assert forall j :: j in r ==> r[j] == m[j] by {
      forall j | j in r ensures r[j] == m[j] {
        assert Stock(r, j) == Stock(m, j);
      }
    }
  }

  /** No element after position `i` carries the same name as `items[i]`. */
  predicate LastOfName(items: seq<Item>, i: int)
    requires 0 <= i < |items|
  {
    forall j :: i < j < |items| ==> items[j].name != items[i].name
  }

  /**
    The dict comprehension `{x['Name']: x['Count'] for x in items}`: one key per
    name, holding the count of the LAST element with that name.
   */
  function Snapshot(items: seq<Item>): (r: Tally)
    ensures forall k :: k in r ==> exists i :: 0 <= i < |items| && items[i].name == k
    ensures (forall i :: 0 <= i < |items| ==> items[i].count > 0) ==> Sparse(r)
  {
    if items == [] then map[]
    else
      var init, last := items[..|items| - 1], items[|items| - 1];
      var prev := Snapshot(init);
      var r := prev[last.name := last.count];
      assert forall i :: 0 <= i < |init| ==> items[i] == init[i];
      assert forall k :: k in r ==> exists i :: 0 <= i < |items| && items[i].name == k by {
        forall k | k in r ensures exists i :: 0 <= i < |items| && items[i].name == k {
          if k != last.name {
            var i :| 0 <= i < |init| && init[i].name == k;
            assert items[i].name == k;
          } else {
            assert items[|items| - 1].name == k;
          }
        }
      }
      r
  }

  /** Every listed name is a key, holding the count of its last occurrence. */
  lemma {:induction false} SnapshotValue(items: seq<Item>, i: int)
    requires 0 <= i < |items| && LastOfName(items, i)
    ensures items[i].name in Snapshot(items) && Snapshot(items)[items[i].name] == items[i].count
  {
    var init := items[..|items| - 1];
    if i < |items| - 1 {
      assert init[i] == items[i];
      assert LastOfName(init, i) by {
        forall j | i < j < |init| ensures init[j].name != init[i].name {
          assert init[j] == items[j];
        }
      }
      SnapshotValue(init, i);
    }
  }

  /**
    The crafting loop: for each ingredient whose name is already in `m`, its
    count is taken away and the key removed once it is no longer positive;
    names not in `m` are skipped.
   */
  function Consumed(m: Tally, items: seq<Item>): (r: Tally)
    ensures r.Keys <= m.Keys
    ensures Sparse(m) ==> Sparse(r)
  {
    if items == [] then m
    else
      var init, x := items[..|items| - 1], items[|items| - 1];
      var prev := Consumed(m, init);
      assert forall i :: 0 <= i < |init| ==> items[i] == init[i];
      if x.name in prev then Restocked(prev, x.name, -x.count) else prev
  }

  /** A name no ingredient mentions keeps its count. */
  lemma {:induction false} ConsumedUntouched(m: Tally, items: seq<Item>, k: string)
    requires k in m && forall i :: 0 <= i < |items| ==> items[i].name != k
    ensures k in Consumed(m, items) && Consumed(m, items)[k] == m[k]
  {
    if items != [] {
      var init := items[..|items| - 1];
      assert forall i :: 0 <= i < |init| ==> init[i] == items[i];
      ConsumedUntouched(m, init, k);
    }
  }

  /**
    An ingredient that is held and named once takes its count away from the
    held amount; the name is removed once nothing positive is left.
   */
  lemma {:induction false} ConsumedOnce(m: Tally, items: seq<Item>, i: int)
    requires 0 <= i < |items| && items[i].name in m
    requires forall j :: 0 <= j < |items| && j != i ==> items[j].name != items[i].name
    ensures var k, n := items[i].name, m[items[i].name] - items[i].count;
      && (k in Consumed(m, items) <==> n > 0)
      && Stock(Consumed(m, items), k) == if n > 0 then n else 0
  {
    var init := items[..|items| - 1];
    assert forall j :: 0 <= j < |init| ==> init[j] == items[j];
    if i == |items| - 1 {
      ConsumedUntouched(m, init, items[i].name);
    } else {
      ConsumedOnce(m, init, i);
    }
  }

  /** With non-negative ingredient counts, crafting never raises a count. */
  lemma {:induction false} ConsumedNeverGrows(m: Tally, items: seq<Item>, k: string)
    requires forall i :: 0 <= i < |items| ==> items[i].count >= 0
    requires k in Consumed(m, items)
    ensures Consumed(m, items)[k] <= m[k]
  {
    if items != [] {
      var init := items[..|items| - 1];
      assert forall i :: 0 <= i < |init| ==> init[i] == items[i];
      ConsumedNeverGrows(m, init, k);
    }
  }
}
