/** `groupby(columns)[measure].sum()`: the view split by the value of one or
    more categorical columns, one summed total per distinct key, the groups
    listed in ascending key order as pandas lists them. */
module Aggregates {
  import opened SalesData
  import opened KeyOrder

  /** One row of a group-by result: the key (one value per grouping column)
      and the summed measure. */
  datatype Group = Group(key: seq<string>, total: real)

  /** A record's key when grouping by the given columns. */
  function KeyOf(r: Record, cols: seq<Dimension>): seq<string>
  {
    seq(|cols|, i requires 0 <= i < |cols| => Field(r, cols[i]))
  }

  /** The keys that occur in some rows. */
  function KeysIn(rows: seq<Record>, cols: seq<Dimension>): set<seq<string>>
  {
    set r | r in rows :: KeyOf(r, cols)
  }

  /** The rows that fall in the group with key `k`, in table order. */
  function RowsWithKey(rows: seq<Record>, cols: seq<Dimension>, k: seq<string>): seq<Record>
  {
    if rows == [] then []
    else if KeyOf(rows[0], cols) == k then [rows[0]] + RowsWithKey(rows[1..], cols, k)
    else RowsWithKey(rows[1..], cols, k)
  }

  /** Groups listed in strictly ascending key order (so no key twice). */
  predicate KeysAscending(gs: seq<Group>)
  {
    forall i, j :: 0 <= i < j < |gs| ==> KeyLess(gs[i].key, gs[j].key)
  }

  /** The keys of a group-by result. */
  function Keys(gs: seq<Group>): set<seq<string>>
  {
    set g | g in gs :: g.key
  }

  /** The sum of all group totals. */
  function Total(gs: seq<Group>): real
  {
    if gs == [] then 0.0 else gs[0].total + Total(gs[1..])
  }

  /** The total of the group with key `k`; 0 when there is no such group. */
  function Lookup(gs: seq<Group>, k: seq<string>): real
  {
    if gs == [] then 0.0
    else if gs[0].key == k then gs[0].total
    else Lookup(gs[1..], k)
  }

  lemma {:induction false} LookupAbsent(gs: seq<Group>, k: seq<string>)
    requires k !in Keys(gs)
    ensures Lookup(gs, k) == 0.0
  {
    if gs != [] {
      assert gs[0] in gs;
      assert Keys(gs[1..]) <= Keys(gs) by {
        forall g | g in gs[1..] ensures g in gs { }
      }
      LookupAbsent(gs[1..], k);
    }
  }

  /** How the key set, the total and the lookup of a list read off its first group. */
  lemma ConsFacts(g: Group, gs: seq<Group>)
    ensures Keys([g] + gs) == {g.key} + Keys(gs)
    ensures Total([g] + gs) == g.total + Total(gs)
    ensures forall j :: Lookup([g] + gs, j) == if g.key == j then g.total else Lookup(gs, j)
  {
    assert ([g] + gs)[1..] == gs;
    assert forall x :: x in [g] + gs <==> x == g || x in gs;
  }

  /** In an ascending list, every later key is above the first. */
  lemma FirstBelowRest(gs: seq<Group>)
    requires KeysAscending(gs) && gs != []
    ensures forall x :: x in Keys(gs[1..]) ==> KeyLess(gs[0].key, x)
  {
    forall x | x in Keys(gs[1..])
      ensures KeyLess(gs[0].key, x)
    {
      var g :| g in gs[1..] && g.key == x;
      var j :| 0 <= j < |gs[1..]| && gs[1..][j] == g;
      assert gs[1 + j] == g;
    }
  }

  /** Putting a group in front of an ascending list whose keys are all above
      its own keeps the list ascending. */
  lemma AscendingCons(g: Group, gs: seq<Group>)
    requires KeysAscending(gs)
    requires forall x :: x in Keys(gs) ==> KeyLess(g.key, x)
    ensures KeysAscending([g] + gs)
  {
    forall i | 0 <= i < |gs|
      ensures KeyLess(g.key, gs[i].key)
    {
      assert gs[i] in gs;
    }
  }

  /** A key below the first key of an ascending list is below every key in it. */
  lemma BelowFirstIsBelowAll(gs: seq<Group>, k: seq<string>)
    requires KeysAscending(gs) && gs != [] && KeyLess(k, gs[0].key)
    ensures forall x :: x in Keys(gs) ==> KeyLess(k, x)
    ensures k !in Keys(gs)
  {
    forall x | x in Keys(gs)
      ensures KeyLess(k, x)
    {
      var g :| g in gs && g.key == x;
      var i :| 0 <= i < |gs| && gs[i] == g;
      if i > 0 {
        KeyLessTransitive(k, gs[0].key, gs[i].key);
      }
    }
    KeyLessIrreflexive(k);
  }

  /** Adds `v` to the group with key `k`, creating that group in its place in
      key order when it does not exist yet. */
  function AddTo(gs: seq<Group>, k: seq<string>, v: real): seq<Group>
  {
    if gs == [] then [Group(k, v)]
    else if gs[0].key == k then [Group(k, gs[0].total + v)] + gs[1..]
    else if KeyLess(k, gs[0].key) then [Group(k, v)] + gs
    else [gs[0]] + AddTo(gs[1..], k, v)
  }

  /** Adding `v` for key `k` adds `k` to the keys and `v` to the total. */
  lemma {:induction false} AddToKeysAndTotal(gs: seq<Group>, k: seq<string>, v: real)
    ensures Keys(AddTo(gs, k, v)) == Keys(gs) + {k}
    ensures Total(AddTo(gs, k, v)) == Total(gs) + v
  {
    if gs == [] {
      ConsFacts(Group(k, v), []);
    } else {
      assert gs == [gs[0]] + gs[1..];
      ConsFacts(gs[0], gs[1..]);
      if gs[0].key == k {
        ConsFacts(Group(k, gs[0].total + v), gs[1..]);
      } else if KeyLess(k, gs[0].key) {
        ConsFacts(Group(k, v), gs);
      } else {
        AddToKeysAndTotal(gs[1..], k, v);
        ConsFacts(gs[0], AddTo(gs[1..], k, v));
      }
    }
  }

  /** Adding to an ascending list keeps it ascending. */
  lemma {:induction false} AddToAscending(gs: seq<Group>, k: seq<string>, v: real)
    requires KeysAscending(gs)
    ensures KeysAscending(AddTo(gs, k, v))
  {
    if gs != [] {
      assert gs == [gs[0]] + gs[1..];
      ConsFacts(gs[0], gs[1..]);
      if gs[0].key == k {
        FirstBelowRest(gs);
        AscendingCons(Group(k, gs[0].total + v), gs[1..]);
      } else if KeyLess(k, gs[0].key) {
        BelowFirstIsBelowAll(gs, k);
        AscendingCons(Group(k, v), gs);
      } else {
        KeyLessTotal(k, gs[0].key);
        AddToAscending(gs[1..], k, v);
        AddToKeysAndTotal(gs[1..], k, v);
        FirstBelowRest(gs);
        AscendingCons(gs[0], AddTo(gs[1..], k, v));
      }
    }
  }

  /** In an ascending list, adding `v` for key `k` adds `v` to the group of
      `k` and leaves every other group's total alone. */
  lemma {:induction false} AddToLookup(gs: seq<Group>, k: seq<string>, v: real, j: seq<string>)
    requires KeysAscending(gs)
    ensures Lookup(AddTo(gs, k, v), j) == Lookup(gs, j) + (if j == k then v else 0.0)
  {
    if gs == [] {
      ConsFacts(Group(k, v), []);
    } else {
      assert gs == [gs[0]] + gs[1..];
      ConsFacts(gs[0], gs[1..]);
      if gs[0].key == k {
        ConsFacts(Group(k, gs[0].total + v), gs[1..]);
      } else if KeyLess(k, gs[0].key) {
        BelowFirstIsBelowAll(gs, k);
        LookupAbsent(gs, k);
        ConsFacts(Group(k, v), gs);
      } else {
        AddToLookup(gs[1..], k, v, j);
        ConsFacts(gs[0], AddTo(gs[1..], k, v));
      }
    }
  }

  /** `rows.groupby(cols)[m].sum()`: one group per distinct key, in ascending
      key order. Every row lands in exactly one group, so the totals add up
      to the column sum of the rows, and each group's total is the sum over
      the rows with its key. */
  function GroupBy(rows: seq<Record>, cols: seq<Dimension>, m: Measure): (gs: seq<Group>)
    ensures KeysAscending(gs)
    ensures Keys(gs) == KeysIn(rows, cols)
    ensures Total(gs) == Sum(rows, m)
    ensures forall k :: Lookup(gs, k) == Sum(RowsWithKey(rows, cols, k), m)
  {
    if rows == [] then []
    else
      assert KeysIn(rows, cols) == {KeyOf(rows[0], cols)} + KeysIn(rows[1..], cols) by {
        assert rows == [rows[0]] + rows[1..];
      }
      var rest := GroupBy(rows[1..], cols, m);
      var k, v := KeyOf(rows[0], cols), Value(rows[0], m);
      AddToKeysAndTotal(rest, k, v);
      AddToAscending(rest, k, v);
      assert forall j :: Lookup(AddTo(rest, k, v), j) == Lookup(rest, j) + (if j == k then v else 0.0) by {
        forall j { AddToLookup(rest, k, v, j); }
      }
      AddTo(rest, k, v)
  }
}
