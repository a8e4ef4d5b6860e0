/** String joining and splitting.

    `Join` is Python's `sep.join(fields)`, the operation every signature
    pre-image is built with. `Split` is its inverse for a one-character
    separator (the receiving side's view of a pre-image or a query string);
    the lemmas here say when a joined string gives its fields back, how many
    separators it holds and that it binds each field at its position. */
module Text {

  /** Python's `sep.join(fields)`: the fields in order, with `sep` between
      neighbours and nowhere else. */
  function Join(fields: seq<string>, sep: string): (s: string)
    ensures |fields| == 0 ==> s == ""
    ensures |s| == TotalLength(fields) + SeparatorCount(|fields|) * |sep|
  {
    if |fields| == 0 then ""
    else if |fields| == 1 then fields[0]
    else
      var rest := Join(fields[1..], sep);
      assert SeparatorCount(|fields|) * |sep| == |sep| + SeparatorCount(|fields| - 1) * |sep|;
      fields[0] + sep + rest
  }

  /** The summed length of the fields. */
  function TotalLength(fields: seq<string>): nat
  {
    if |fields| == 0 then 0 else |fields[0]| + TotalLength(fields[1..])
  }

  /** How many separators n joined fields contain: one fewer than the fields. */
  function SeparatorCount(n: nat): nat
  {
    if n == 0 then 0 else n - 1
  }

  /** The number of occurrences of `c` in `s`. */
  function Count(s: string, c: char): (n: nat)
    ensures n <= |s|
    ensures n == 0 <==> c !in s
  {
    if |s| == 0 then 0
    else (if s[0] == c then 1 else 0) + Count(s[1..], c)
  }

  /** True when no field contains `c`. */
  predicate FreeOf(fields: seq<string>, c: char)
  {
    forall i :: 0 <= i < |fields| ==> c !in fields[i]
  }

  /** The position of the first `c` in `s`. */
  function FirstIndex(s: string, c: char): (i: nat)
    requires c in s
    ensures i < |s| && s[i] == c
    ensures c !in s[..i]
  {
    if s[0] == c then 0
    else
      var j := FirstIndex(s[1..], c);
      assert s[..j + 1] == [s[0]] + s[1..][..j];
      j + 1
  }

  /** Python's `s.split(c)` for a one-character separator: the maximal
      pieces of `s` between occurrences of `c` (at least one piece). */
  function Split(s: string, c: char): (parts: seq<string>)
    ensures |parts| >= 1
    decreases |s|
  {
    if c !in s then [s]
    else
      var i := FirstIndex(s, c);
      [s[..i]] + Split(s[i + 1..], c)
  }

  lemma {:induction false} CountConcat(a: string, b: string, c: char)
    ensures Count(a + b, c) == Count(a, c) + Count(b, c)
  {
    if |a| == 0 {
      assert a + b == b;
    } else {
      assert (a + b)[1..] == a[1..] + b;
      CountConcat(a[1..], b, c);
    }
  }

  /** A list of n fields none of which holds the one-character separator
      joins into a string with exactly n - 1 separators (none for one
      field, none for the empty list). */
  lemma {:induction false} JoinSeparatorCount(fields: seq<string>, c: char)
    requires FreeOf(fields, c)
    ensures Count(Join(fields, [c]), c) == SeparatorCount(|fields|)
  {
    if |fields| == 1 {
      assert Join(fields, [c]) == fields[0];
    } else if |fields| > 1 {
      JoinSeparatorCount(fields[1..], c);
      var rest := Join(fields[1..], [c]);
      CountConcat(fields[0], [c], c);
      CountConcat(fields[0] + [c], rest, c);
      assert c !in fields[0];
      assert Count([c], c) == 1;
    }
  }

  /** The first separator of `x + c + y` is the one after `x` when `x` has none. */
  lemma FirstIndexAfter(x: string, c: char, y: string)
    requires c !in x
    ensures c in x + [c] + y
    ensures FirstIndex(x + [c] + y, c) == |x|
  {
    var s := x + [c] + y;
    assert s[|x|] == c;
    assert s[..|x|] == x;
  }

  /** Splitting `x + c + y` yields `x` and then the pieces of `y`. */
  lemma SplitCons(x: string, c: char, y: string)
    requires c !in x
    ensures Split(x + [c] + y, c) == [x] + Split(y, c)
  {
    var s := x + [c] + y;
    FirstIndexAfter(x, c, y);
    assert s[..|x|] == x;
    assert s[|x| + 1..] == y;
  }

  /** Round trip: splitting a joined non-empty field list on its separator
      gives the fields back, in order, provided no field holds the separator. */
  lemma {:induction false} SplitJoin(fields: seq<string>, c: char)
    requires |fields| >= 1
    requires FreeOf(fields, c)
    ensures Split(Join(fields, [c]), c) == fields
  {
    if |fields| == 1 {
      assert Join(fields, [c]) == fields[0];
      assert c !in fields[0];
    } else {
      SplitJoin(fields[1..], c);
      assert Join(fields, [c]) == fields[0] + [c] + Join(fields[1..], [c]);
      assert c !in fields[0];
      SplitCons(fields[0], c, Join(fields[1..], [c]));
      assert [fields[0]] + fields[1..] == fields;
    }
  }

  /** Order sensitivity: two non-empty field lists free of the separator
      join to the same string only if they are the same list, so reordering
      or replacing a field changes the joined string. */
  lemma JoinInjective(a: seq<string>, b: seq<string>, c: char)
    requires |a| >= 1 && |b| >= 1
    requires FreeOf(a, c) && FreeOf(b, c)
    ensures Join(a, [c]) == Join(b, [c]) <==> a == b
  {
    if Join(a, [c]) == Join(b, [c]) {
      SplitJoin(a, c);
      SplitJoin(b, c);
    }
  }

  /** Joining two non-empty lists one after the other puts one separator
      between their joins. */
  lemma {:induction false} JoinAppend(a: seq<string>, b: seq<string>, sep: string)
    requires |a| >= 1 && |b| >= 1
    ensures Join(a + b, sep) == Join(a, sep) + sep + Join(b, sep)
  {
    if |a| == 1 {
      assert (a + b)[1..] == b;
      assert Join(a, sep) == a[0];
    } else {
      assert (a + b)[1..] == a[1..] + b;
      JoinAppend(a[1..], b, sep);
    }
  }

  /** The joined string with field `x` between the lists `a` and `b`:
      the part contributed by `a`, then `x`, then the part contributed by `b`. */
  lemma JoinAround(a: seq<string>, x: string, b: seq<string>, sep: string)
    ensures Join(a + [x] + b, sep) == Prefix(a, sep) + x + Suffix(b, sep)
  {
    assert Join([x], sep) == x;
    var tail := [x] + b;
    if |b| >= 1 {
      JoinAppend([x], b, sep);
    } else {
      assert tail == [x];
    }
    assert Join(tail, sep) == x + Suffix(b, sep);
    if |a| >= 1 {
      JoinAppend(a, tail, sep);
      assert a + [x] + b == a + tail;
    } else {
      assert a + [x] + b == tail;
    }
  }

  /** What the fields before a given field contribute to a joined string. */
  function Prefix(a: seq<string>, sep: string): string
  {
    if |a| == 0 then "" else Join(a, sep) + sep
  }

  /** What the fields after a given field contribute to a joined string. */
  function Suffix(b: seq<string>, sep: string): string
  {
    if |b| == 0 then "" else sep + Join(b, sep)
  }

  /** A joined string binds every field at its position, whatever the
      fields contain: replacing one field by a different value always
      changes the joined string. */
  lemma JoinBindsField(a: seq<string>, x: string, y: string, b: seq<string>, sep: string)
    ensures Join(a + [x] + b, sep) == Join(a + [y] + b, sep) <==> x == y
  {
    JoinAround(a, x, b, sep);
    JoinAround(a, y, b, sep);
    var p, s := Prefix(a, sep), Suffix(b, sep);
    if p + x + s == p + y + s {
      assert |x| == |y|;
      assert x == (p + x + s)[|p|..|p| + |x|];
      assert y == (p + y + s)[|p|..|p| + |y|];
    }
  }
}
