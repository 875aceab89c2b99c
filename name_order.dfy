/** Lexicographic order on plugin names, by character code. */
module NameOrder {

  predicate Less(a: string, b: string)
    decreases |a|
  {
    if a == [] then b != []
    else if b == [] then false
    else if a[0] != b[0] then a[0] < b[0]
    else Less(a[1..], b[1..])
  }

  /** `a` comes no later than `b`. */
  predicate LessOrEqual(a: string, b: string)
  {
    a == b || Less(a, b)
  }

  lemma {:induction false} LessIrreflexive(a: string)
    ensures !Less(a, a)
    decreases |a|
  {
    if a != [] {
      LessIrreflexive(a[1..]);
    }
  }

  lemma {:induction false} LessTransitive(a: string, b: string, c: string)
    requires Less(a, b) && Less(b, c)
    ensures Less(a, c)
    decreases |a|
  {
    if a != [] && a[0] == b[0] && b[0] == c[0] {
      LessTransitive(a[1..], b[1..], c[1..]);
    }
  }

  /** Any two different names are ordered one way. */
  lemma {:induction false} LessTotal(a: string, b: string)
    requires a != b
    ensures Less(a, b) || Less(b, a)
    decreases |a|
  {
    if a != [] && b != [] && a[0] == b[0] {
      assert a == [a[0]] + a[1..] && b == [b[0]] + b[1..];
      LessTotal(a[1..], b[1..]);
    }
  }

  /** ... and only one way. */
  lemma LessAsymmetric(a: string, b: string)
    requires Less(a, b)
    ensures !Less(b, a)
  {
    if Less(b, a) {
      LessTransitive(a, b, a);
      LessIrreflexive(a);
    }
  }

  lemma LessOrEqualTransitive(a: string, b: string, c: string)
    requires LessOrEqual(a, b) && LessOrEqual(b, c)
    ensures LessOrEqual(a, c)
  {
    if a != b && b != c {
      LessTransitive(a, b, c);
    }
  }

  /** Not coming before is coming no earlier. */
  lemma NotLess(a: string, b: string)
    requires !Less(a, b)
    ensures LessOrEqual(b, a)
  {
    if a != b {
      LessTotal(a, b);
    }
  }
}
