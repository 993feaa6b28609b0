/**
 * Python datetimes as the normalizer sees them: wall-clock fields plus an
 * optional UTC offset. Naive datetimes compare field by field, from the year
 * down to the microsecond; that comparison is the sort key of every table.
 */
module Dates {
  import opened Wrappers

  datatype Wall = Wall(year: int, month: int, day: int, hour: int, minute: int, second: int, microsecond: int)

  /** `offset` is the UTC offset in minutes of an aware datetime, None for a naive one. */
  datatype DateTime = DateTime(wall: Wall, offset: Option<int>)

  function Fields(w: Wall): (r: seq<int>)
    ensures |r| == 7
  {
    [w.year, w.month, w.day, w.hour, w.minute, w.second, w.microsecond]
  }

  /** Lexicographic order on equally long integer sequences. */
  predicate LexLe(s: seq<int>, t: seq<int>)
    requires |s| == |t|
  {
    |s| == 0 || s[0] < t[0] || (s[0] == t[0] && LexLe(s[1..], t[1..]))
  }

  /** `a <= b` between two naive datetimes. */
  predicate WallLe(a: Wall, b: Wall) {
    LexLe(Fields(a), Fields(b))
  }

  lemma {:induction false} LexLeReflexive(s: seq<int>)
    ensures LexLe(s, s)
  {
    if |s| > 0 {
      LexLeReflexive(s[1..]);
    }
  }

  lemma {:induction false} LexLeTotal(s: seq<int>, t: seq<int>)
    requires |s| == |t|
    ensures LexLe(s, t) || LexLe(t, s)
  {
    if |s| > 0 && s[0] == t[0] {
      LexLeTotal(s[1..], t[1..]);
    }
  }

  lemma {:induction false} LexLeTransitive(s: seq<int>, t: seq<int>, u: seq<int>)
    requires |s| == |t| == |u|
    requires LexLe(s, t) && LexLe(t, u)
    ensures LexLe(s, u)
  {
    if |s| > 0 && s[0] == t[0] == u[0] {
      LexLeTransitive(s[1..], t[1..], u[1..]);
    }
  }

  lemma {:induction false} LexLeAntisymmetric(s: seq<int>, t: seq<int>)
    requires |s| == |t|
    requires LexLe(s, t) && LexLe(t, s)
    ensures s == t
  {
    if |s| > 0 {
      LexLeAntisymmetric(s[1..], t[1..]);
      assert s == [s[0]] + s[1..] && t == [t[0]] + t[1..];
    }
  }

  lemma WallLeReflexive(a: Wall)
    ensures WallLe(a, a)
  {
    LexLeReflexive(Fields(a));
  }

  lemma WallLeTotal(a: Wall, b: Wall)
    ensures WallLe(a, b) || WallLe(b, a)
  {
    LexLeTotal(Fields(a), Fields(b));
  }

  lemma WallLeTransitive(a: Wall, b: Wall, c: Wall)
    requires WallLe(a, b) && WallLe(b, c)
    ensures WallLe(a, c)
  {
    LexLeTransitive(Fields(a), Fields(b), Fields(c));
  }

  lemma WallLeAntisymmetric(a: Wall, b: Wall)
    requires WallLe(a, b) && WallLe(b, a)
    ensures a == b
  {
    LexLeAntisymmetric(Fields(a), Fields(b));
    assert Fields(a) == Fields(b);
    assert Fields(a)[0] == Fields(b)[0] && Fields(a)[6] == Fields(b)[6];
  }
}
