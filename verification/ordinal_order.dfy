/** Ordinal string order (StringComparer.Ordinal): strings compared char by
    char, a proper prefix ordered first. It is the comparer the validation
    table uses, and the model's stand-in for the default string comparer.
 */
module OrdinalOrder {

  /** Three-way ordinal comparison: negative, zero or positive. */
  function Compare(a: string, b: string): int
  {
    if |a| == 0 then (if |b| == 0 then 0 else -1)
    else if |b| == 0 then 1
    else if a[0] < b[0] then -1
    else if b[0] < a[0] then 1
    else Compare(a[1..], b[1..])
  }

  /** Lexicographic precedence, stated without Compare: a is a proper prefix
      of b, or a is smaller at the first position where the two differ. */
  ghost predicate Precedes(a: string, b: string) {
    || (|a| < |b| && a == b[..|a|])
    || exists i :: 0 <= i < |a| && i < |b| && a[..i] == b[..i] && a[i] < b[i]
  }

  /** Dropping a common first char keeps precedence. */
  lemma PrecedesDropHead(a: string, b: string)
    requires |a| > 0 && |b| > 0 && a[0] == b[0]
    requires Precedes(a, b)
    ensures Precedes(a[1..], b[1..])
  {
    var a', b' := a[1..], b[1..];
    if |a| < |b| && a == b[..|a|] {
      assert a' == b[..|a|][1..] == b'[..|a'|];
    } else {
      var i :| 0 <= i < |a| && i < |b| && a[..i] == b[..i] && a[i] < b[i];
      assert i != 0;
      assert a'[..i - 1] == a[..i][1..] == b[..i][1..] == b'[..i - 1];
      assert a'[i - 1] < b'[i - 1];
    }
  }

  /** Putting a common first char back keeps precedence. */
  lemma PrecedesAddHead(a: string, b: string)
    requires |a| > 0 && |b| > 0 && a[0] == b[0]
    requires Precedes(a[1..], b[1..])
    ensures Precedes(a, b)
  {
    var a', b' := a[1..], b[1..];
    if |a'| < |b'| && a' == b'[..|a'|] {
      assert a == [a[0]] + a' == [b[0]] + b'[..|a'|] == b[..|a|];
    } else {
      var i :| 0 <= i < |a'| && i < |b'| && a'[..i] == b'[..i] && a'[i] < b'[i];
      assert a[..i + 1] == [a[0]] + a'[..i] == [b[0]] + b'[..i] == b[..i + 1];
      assert a[i + 1] < b[i + 1];
    }
  }

  /** Two strings that start with the same char are ordered as their tails. */
  lemma PrecedesTail(a: string, b: string)
    requires |a| > 0 && |b| > 0 && a[0] == b[0]
    ensures Precedes(a, b) <==> Precedes(a[1..], b[1..])
  {
    if Precedes(a, b) {
      PrecedesDropHead(a, b);
    }
    if Precedes(a[1..], b[1..]) {
      PrecedesAddHead(a, b);
    }
  }

  /** A string that starts with a smaller char precedes, and is never preceded. */
  lemma FirstCharDecides(a: string, b: string)
    requires |a| > 0 && |b| > 0 && a[0] < b[0]
    ensures Precedes(a, b) && !Precedes(b, a)
  {
    assert a[..0] == b[..0];
    if exists i :: 0 <= i < |b| && i < |a| && b[..i] == a[..i] && b[i] < a[i] {
      var i :| 0 <= i < |b| && i < |a| && b[..i] == a[..i] && b[i] < a[i];
      if i > 0 {
        assert b[0] == b[..i][0] == a[..i][0] == a[0];
      }
    }
  }

  /** Compare's sign is exactly lexicographic precedence. */
  lemma {:induction false} CompareMeansPrecedes(a: string, b: string)
    ensures Compare(a, b) < 0 <==> Precedes(a, b)
    ensures Compare(a, b) > 0 <==> Precedes(b, a)
    ensures Compare(a, b) == 0 <==> a == b
    decreases |a|
  {
    if |a| == 0 || |b| == 0 {
      if |a| == 0 && |b| > 0 {
        assert a == b[..|a|];
      } else if |b| == 0 && |a| > 0 {
        assert b == a[..|b|];
      }
    } else if a[0] < b[0] {
      FirstCharDecides(a, b);
    } else if b[0] < a[0] {
      FirstCharDecides(b, a);
    } else {
      CompareMeansPrecedes(a[1..], b[1..]);
      PrecedesTail(a, b);
      PrecedesTail(b, a);
      assert a == [a[0]] + a[1..];
      assert b == [b[0]] + b[1..];
    }
  }

  /** Swapping the arguments flips the sign: the property the ordering guards need. */
  lemma CompareAntisymmetric(a: string, b: string)
    ensures Compare(a, b) < 0 <==> Compare(b, a) > 0
  {
    CompareMeansPrecedes(a, b);
    CompareMeansPrecedes(b, a);
  }
}
