/** Texts in their order, character by character. */
module Texts {
  predicate Less(a: string, b: string)
    decreases |a|
  {
    b != "" && (a == "" || a[0] < b[0] || (a[0] == b[0] && Less(a[1..], b[1..])))
  }

  /** The texts agree before this place, where the first ends or has the smaller character. */
  predicate FirstDifference(a: string, b: string, i: nat) {
    i <= |a| && i < |b| && a[..i] == b[..i] && (i == |a| || a[i] < b[i])
  }

  lemma Shifted(c: char, a: string, b: string, i: nat)
    ensures FirstDifference([c] + a, [c] + b, i + 1) <==> FirstDifference(a, b, i)
    ensures !FirstDifference([c] + a, [c] + b, 0)
  {
    if i <= |a| && i <= |b| {
      assert ([c] + a)[..i + 1] == [c] + a[..i] && ([c] + b)[..i + 1] == [c] + b[..i];
      assert ([c] + a[..i])[1..] == a[..i] && ([c] + b[..i])[1..] == b[..i];
    }
  }

  lemma FirstAgrees(a: string, b: string, i: nat)
    ensures FirstDifference(a, b, i) && i > 0 ==> a[0] == b[0]
  {
    if FirstDifference(a, b, i) && i > 0 { assert a[..i][0] == a[0] && b[..i][0] == b[0]; }
  }

  /** The first difference decides, and the end comes before anything. */
  lemma {:induction false} LessIs(a: string, b: string)
    ensures Less(a, b) <==> exists i: nat :: FirstDifference(a, b, i)
    decreases |a|
  {
    hide FirstDifference;
    if a != "" && b != "" && a[0] == b[0] {
      LessIs(a[1..], b[1..]);
      assert a == [a[0]] + a[1..] && b == [a[0]] + b[1..];
      Shifted(a[0], a[1..], b[1..], 0);
      if i: nat :| FirstDifference(a, b, i) {
        if i > 0 { Shifted(a[0], a[1..], b[1..], i - 1); }
      }
      if j: nat :| FirstDifference(a[1..], b[1..], j) { Shifted(a[0], a[1..], b[1..], j); }
    } else {
      AtFirst(a, b);
      forall i: nat { FirstAgrees(a, b, i); }
    }
  }

  lemma AtFirst(a: string, b: string)
    ensures FirstDifference(a, b, 0) <==> b != "" && (a == "" || a[0] < b[0])
    ensures forall i: nat :: FirstDifference(a, b, i) && i > 0 ==> a != "" && b != ""
  {
    if a != "" && b != "" { assert a[..0] == b[..0]; }
  }

  lemma {:induction false} LessTotal(a: string, b: string)
    ensures a == b || Less(a, b) || Less(b, a)
    ensures !(Less(a, b) && Less(b, a)) && !Less(a, a)
    decreases |a|
  {
    if a != "" && b != "" && a[0] == b[0] {
      LessTotal(a[1..], b[1..]);
      assert a == [a[0]] + a[1..] && b == [b[0]] + b[1..];
    }
    if a != "" { LessTotal(a[1..], a[1..]); }
  }

  lemma {:induction false} LessTransitive(a: string, b: string, c: string)
    requires Less(a, b) && Less(b, c)
    ensures Less(a, c)
    decreases |a|
  {
    if a != "" && a[0] == b[0] == c[0] { LessTransitive(a[1..], b[1..], c[1..]); }
  }

  lemma {:induction false} PrefixIsLess(a: string, b: string)
    requires a < b
    ensures Less(a, b)
    decreases |a|
  {
    if a != "" {
      assert a[1..] == b[1..][..|a| - 1];
      PrefixIsLess(a[1..], b[1..]);
    }
  }
}
