/** The top-N selection of the horizontal bar charts:
    `data.sort_values(column, ascending=False).head(top_n)` on a group-by
    result. */
module Ranking {
  import opened Aggregates

  /** The default `top_n` of `plot_horizontal_bar`, used by both of its callers. */
  const DefaultTopN: int := 10

  /** Group totals never increase along the list. */
  predicate Descending(gs: seq<Group>)
  {
    forall i, j :: 0 <= i < j < |gs| ==> gs[i].total >= gs[j].total
  }

  /** Inserts `g` before the first group whose total is not above its own. */
  function InsertDescending(g: Group, s: seq<Group>): seq<Group>
  {
    if s == [] then [g]
    else if s[0].total <= g.total then [g] + s
    else [s[0]] + InsertDescending(g, s[1..])
  }

  /** Inserting adds exactly `g` to the groups. */
  lemma {:induction false} InsertDescendingPermutes(g: Group, s: seq<Group>)
    ensures multiset(InsertDescending(g, s)) == multiset(s) + multiset{g}
  {
    if s != [] && s[0].total > g.total {
      assert s == [s[0]] + s[1..];
      InsertDescendingPermutes(g, s[1..]);
    }
  }

  /** A group at least as large as every group of a descending list can go in front. */
  lemma DescendingCons(x: Group, s: seq<Group>)
    requires Descending(s)
    requires forall i :: 0 <= i < |s| ==> x.total >= s[i].total
    ensures Descending([x] + s)
  {
  }

  /** Inserting into a descending list keeps it descending. */
  lemma {:induction false} InsertDescendingSorted(g: Group, s: seq<Group>)
    requires Descending(s)
    ensures Descending(InsertDescending(g, s))
  {
    if s == [] {
    } else if s[0].total <= g.total {
      DescendingCons(g, s);
    } else {
      var rest := InsertDescending(g, s[1..]);
      InsertDescendingSorted(g, s[1..]);
      InsertDescendingPermutes(g, s[1..]);
      forall i | 0 <= i < |rest|
        ensures s[0].total >= rest[i].total
      {
        assert rest[i] in multiset(rest);
        if rest[i] != g {
          assert rest[i] in s[1..];
          var j :| 0 <= j < |s[1..]| && s[1..][j] == rest[i];
          assert s[1 + j] == rest[i];
        }
      }
      DescendingCons(s[0], rest);
    }
  }

  /** `sort_values(ascending=False)` on the group totals; groups with equal
      totals keep their key order. */
  function SortDescending(gs: seq<Group>): (sorted: seq<Group>)
    ensures Descending(sorted)
    ensures multiset(sorted) == multiset(gs)
  {
    if gs == [] then []
    else
      var rest := SortDescending(gs[1..]);
      InsertDescendingSorted(gs[0], rest);
      InsertDescendingPermutes(gs[0], rest);
      assert multiset(gs) == multiset(gs[1..]) + multiset{gs[0]} by {
        assert gs == [gs[0]] + gs[1..];
      }
      InsertDescending(gs[0], rest)
  }

  /** How many rows `head(n)` keeps out of `len` (a negative `n` drops the
      last `-n` rows, as in Python slicing). */
  function HeadCount(len: nat, n: int): (c: nat)
    ensures c <= len
  {
    if n >= 0 then (if n < len then n else len)
    else if len + n > 0 then len + n else 0
  }

  /** `data.sort_values(total, ascending=False).head(n)`. */
  function TopN(gs: seq<Group>, n: int): seq<Group>
  {
    var sorted := SortDescending(gs);
    sorted[..HeadCount(|sorted|, n)]
  }

  /** The groups `TopN` leaves out. */
  function NotSelected(gs: seq<Group>, n: int): seq<Group>
  {
    var sorted := SortDescending(gs);
    sorted[HeadCount(|sorted|, n)..]
  }

  /** Cutting a descending list in two leaves nothing in the second part
      larger than anything in the first. */
  lemma CutDescending(sorted: seq<Group>, c: nat)
    requires Descending(sorted) && c <= |sorted|
    ensures forall g, h :: g in sorted[..c] && h in sorted[c..] ==> g.total >= h.total
  {
    forall g, h | g in sorted[..c] && h in sorted[c..]
      ensures g.total >= h.total
    {
      var i :| 0 <= i < c && sorted[i] == g;
      var j :| 0 <= j < |sorted| - c && sorted[c..][j] == h;
      assert sorted[c + j] == h;
    }
  }

  /** The two parts of a cut list hold its groups. */
  lemma CutMultiset(s: seq<Group>, c: nat)
    requires c <= |s|
    ensures multiset(s[..c]) + multiset(s[c..]) == multiset(s)
  {
    assert s[..c] + s[c..] == s;
  }

  /** A prefix of a descending list is descending. */
  lemma PrefixDescending(s: seq<Group>, c: nat)
    requires Descending(s) && c <= |s|
    ensures Descending(s[..c])
  {
  }

  /** Sorting keeps the number of groups. */
  lemma SortDescendingLength(gs: seq<Group>)
    ensures |SortDescending(gs)| == |gs|
  {
    assert |multiset(SortDescending(gs))| == |multiset(gs)|;
  }

  /** The chart shows at most `n` groups (all of them when there are fewer),
      in descending order of total; together with the groups left out they
      are exactly the input groups; and no group left out has a larger total
      than a group shown. */
  lemma TopNSelectsLargest(gs: seq<Group>, n: int)
    ensures n >= 0 ==> |TopN(gs, n)| == if n < |gs| then n else |gs|
    ensures n < 0 ==> |TopN(gs, n)| == if |gs| + n > 0 then |gs| + n else 0
    ensures Descending(TopN(gs, n))
    ensures multiset(TopN(gs, n)) + multiset(NotSelected(gs, n)) == multiset(gs)
    ensures forall g, h :: g in TopN(gs, n) && h in NotSelected(gs, n) ==> g.total >= h.total
  {
    var sorted := SortDescending(gs);
    var c := HeadCount(|sorted|, n);
    SortDescendingLength(gs);
    PrefixDescending(sorted, c);
    CutMultiset(sorted, c);
    CutDescending(sorted, c);
  }
}
