/**
  The order `list.sort(key=lambda x: x[3])` puts State values in. Python
  compares two strings lexicographically by code point and two numbers
  (booleans count as 0 and 1) numerically; any other pair, and in particular
  None against anything, raises TypeError. `KeyLe` extends those orders to a
  total preorder over all values by ranking the kinds, so the sort can be
  stated for every input and Python's own order is what it does on pairs
  Python can compare.
 */
module StateOrder {
  import opened Json

  /** Python's `a <= b` on strings. */
  predicate LexLe(a: string, b: string)
    decreases |a|
  {
    a == [] || (b != [] && (a[0] < b[0] || (a[0] == b[0] && LexLe(a[1..], b[1..]))))
  }

  lemma {:induction false} LexLeRefl(a: string)
    ensures LexLe(a, a)
    decreases |a|
  {
    if a != [] {
      LexLeRefl(a[1..]);
    }
  }

  lemma {:induction false} LexLeTotal(a: string, b: string)
    ensures LexLe(a, b) || LexLe(b, a)
    decreases |a|
  {
    if a != [] && b != [] && a[0] == b[0] {
      LexLeTotal(a[1..], b[1..]);
    }
  }

  lemma {:induction false} LexLeTrans(a: string, b: string, c: string)
    requires LexLe(a, b) && LexLe(b, c)
    ensures LexLe(a, c)
    decreases |a|
  {
    if a != [] && b != [] && c != [] && a[0] == b[0] && b[0] == c[0] {
      LexLeTrans(a[1..], b[1..], c[1..]);
    }
  }

  lemma {:induction false} LexLeAntisym(a: string, b: string)
    requires LexLe(a, b) && LexLe(b, a)
    ensures a == b
    decreases |a|
  {
    if a != [] && b != [] {
      LexLeAntisym(a[1..], b[1..]);
      assert a == [a[0]] + a[1..] && b == [b[0]] + b[1..];
    }
  }

  /** Which kind of value: the kinds Python can compare among themselves. */
  function Rank(v: Value): nat {
    match v
    case Null => 0
    case Bool(_) => 1
    case Num(_) => 1
    case Str(_) => 2
    case List(_) => 3
    case Dict(_) => 4
  }

  /** The numeric value of a number or a boolean. */
  function Number(v: Value): int
    requires Rank(v) == 1
  {
    match v
    case Bool(b) => if b then 1 else 0
    case Num(n) => n
  }

  /** Python can evaluate `a < b` without raising. */
  predicate Comparable(a: Scalar, b: Scalar) {
    (a.Str? && b.Str?) || (Rank(a) == 1 && Rank(b) == 1)
  }

  predicate KeyLe(a: Scalar, b: Scalar) {
    if Rank(a) != Rank(b) then Rank(a) < Rank(b)
    else if a.Str? then LexLe(a.s, b.s)
    else if Rank(a) == 1 then Number(a) <= Number(b)
    else true
  }

  /** The comparison the sort makes: `a < b`. */
  predicate KeyLt(a: Scalar, b: Scalar) {
    !KeyLe(b, a)
  }

  /** Keys the sort cannot tell apart. */
  predicate Equivalent(a: Scalar, b: Scalar) {
    KeyLe(a, b) && KeyLe(b, a)
  }

  lemma KeyLeRefl(a: Scalar)
    ensures KeyLe(a, a)
  {
    if a.Str? {
      LexLeRefl(a.s);
    }
  }

  lemma KeyLeTotal(a: Scalar, b: Scalar)
    ensures KeyLe(a, b) || KeyLe(b, a)
  {
    if a.Str? && b.Str? {
      LexLeTotal(a.s, b.s);
    }
  }

  lemma KeyLeTrans(a: Scalar, b: Scalar, c: Scalar)
    requires KeyLe(a, b) && KeyLe(b, c)
    ensures KeyLe(a, c)
  {
    if a.Str? && b.Str? && c.Str? {
      LexLeTrans(a.s, b.s, c.s);
    }
  }

  /** Two strings are equivalent keys only when they are equal. */
  lemma EquivalentStrings(a: Scalar, b: Scalar)
    requires a.Str? && b.Str? && Equivalent(a, b)
    ensures a == b
  {
    LexLeAntisym(a.s, b.s);
  }
}
