/** The order in which pandas lists the groups of a `groupby`: strings compare
    by code point, lexicographically, a proper prefix first; a key made of
    several columns compares column by column, like a Python tuple. */
module KeyOrder {

  /** Python's `a < b` on two strings. */
  predicate StrLess(a: string, b: string)
    decreases |a|
  {
    if a == [] then b != []
    else if b == [] then false
    else if a[0] != b[0] then a[0] < b[0]
    else StrLess(a[1..], b[1..])
  }

  lemma {:induction false} StrLessIrreflexive(a: string)
    ensures !StrLess(a, a)
    decreases |a|
  {
    if a != [] {
      StrLessIrreflexive(a[1..]);
    }
  }

  lemma {:induction false} StrLessTransitive(a: string, b: string, c: string)
    requires StrLess(a, b) && StrLess(b, c)
    ensures StrLess(a, c)
    decreases |a|
  {
    if a != [] && a[0] == b[0] && b[0] == c[0] {
      StrLessTransitive(a[1..], b[1..], c[1..]);
    }
  }

  lemma {:induction false} StrLessTotal(a: string, b: string)
    requires a != b
    ensures StrLess(a, b) || StrLess(b, a)
    decreases |a|
  {
    if a != [] && b != [] && a[0] == b[0] {
      assert a == [a[0]] + a[1..] && b == [b[0]] + b[1..];
      StrLessTotal(a[1..], b[1..]);
    }
  }

  /** Python's `a < b` on two tuples of strings of the same shape. */
  predicate KeyLess(a: seq<string>, b: seq<string>)
    decreases |a|
  {
    if a == [] then b != []
    else if b == [] then false
    else if a[0] != b[0] then StrLess(a[0], b[0])
    else KeyLess(a[1..], b[1..])
  }

  lemma {:induction false} KeyLessIrreflexive(a: seq<string>)
    ensures !KeyLess(a, a)
    decreases |a|
  {
    if a != [] {
      KeyLessIrreflexive(a[1..]);
    }
  }

  lemma {:induction false} KeyLessTransitive(a: seq<string>, b: seq<string>, c: seq<string>)
    requires KeyLess(a, b) && KeyLess(b, c)
    ensures KeyLess(a, c)
    decreases |a|
  {
    if a != [] && b != [] && c != [] {
      if a[0] == b[0] && b[0] == c[0] {
        KeyLessTransitive(a[1..], b[1..], c[1..]);
      } else if a[0] != b[0] && b[0] != c[0] {
        StrLessTransitive(a[0], b[0], c[0]);
        if a[0] == c[0] {
          StrLessIrreflexive(a[0]);
        }
      }
    }
  }

  lemma {:induction false} KeyLessTotal(a: seq<string>, b: seq<string>)
    requires a != b
    ensures KeyLess(a, b) || KeyLess(b, a)
    decreases |a|
  {
    if a != [] && b != [] {
      if a[0] == b[0] {
        assert a == [a[0]] + a[1..] && b == [b[0]] + b[1..];
        KeyLessTotal(a[1..], b[1..]);
      } else {
        StrLessTotal(a[0], b[0]);
      }
    }
  }
}
