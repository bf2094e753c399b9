/** The order behind the ordered containers of the runtime: slugs compare
    lexicographically. */
module Ordering {

  predicate StringLess(a: string, b: string) {
    if b == "" then false
    else if a == "" then true
    else a[0] < b[0] || (a[0] == b[0] && StringLess(a[1..], b[1..]))
  }

  lemma {:induction false} StringLessTotal(a: string, b: string)
    ensures a != b ==> StringLess(a, b) || StringLess(b, a)
    ensures !(StringLess(a, b) && StringLess(b, a))
    ensures StringLess(a, b) ==> a != b
  {
    if a != "" && b != "" {
      StringLessTotal(a[1..], b[1..]);
      assert a == [a[0]] + a[1..] && b == [b[0]] + b[1..];
    }
  }

  lemma {:induction false} StringLessTransitive(a: string, b: string, c: string)
    requires StringLess(a, b) && StringLess(b, c)
    ensures StringLess(a, c)
  {
    if a != "" && a[0] == b[0] == c[0] {
      StringLessTransitive(a[1..], b[1..], c[1..]);
    }
  }

  /** The strings agree up to k, and there a ends or has the smaller character. */
  predicate LessAt(a: string, b: string, k: nat) {
    && k <= |a| && k < |b| && a[..k] == b[..k]
    && (k == |a| || a[k] < b[k])
  }

  /** Less means less at the first difference. */
  lemma {:induction false} StringLessIff(a: string, b: string)
    ensures StringLess(a, b) <==> exists k: nat :: LessAt(a, b, k)
  {
    if a != "" && b != "" && a[0] == b[0] {
      StringLessIff(a[1..], b[1..]);
      if k: nat :| LessAt(a[1..], b[1..], k) {
        assert a[..k + 1] == [a[0]] + a[1..][..k] && b[..k + 1] == [b[0]] + b[1..][..k];
        assert LessAt(a, b, k + 1);
      }
      if k: nat :| LessAt(a, b, k) {
        assert k > 0;
        assert a[1..][..k - 1] == a[..k][1..] && b[1..][..k - 1] == b[..k][1..];
        assert LessAt(a[1..], b[1..], k - 1);
      }
    } else {
      assert StringLess(a, b) <==> LessAt(a, b, 0);
      forall k: nat | LessAt(a, b, k) ensures LessAt(a, b, 0) {
        AgreeAtFirst(a, b, k);
      }
    }
  }

  lemma AgreeAtFirst(a: string, b: string, k: nat)
    requires LessAt(a, b, k)
    ensures k > 0 ==> a != "" && b != "" && a[0] == b[0]
  {
    if k > 0 {
      assert a[..k][0] == a[0] && b[..k][0] == b[0];
    }
  }

  /** The first element of a slug set in iteration order. */
  predicate IsFirst(s: set<string>, x: string) {
    x in s && forall y | y in s :: y == x || StringLess(x, y)
  }

  lemma {:induction false} FirstExists(s: set<string>)
    requires s != {}
    ensures exists x :: IsFirst(s, x)
    decreases |s|
  {
    var a :| a in s;
    var rest := s - {a};
    assert s == rest + {a};
    if rest == {} {
      assert IsFirst(s, a);
    } else {
      FirstExists(rest);
      var m :| IsFirst(rest, m);
      StringLessTotal(a, m);
      if StringLess(a, m) {
        forall y | y in s ensures y == a || StringLess(a, y) {
          if y in rest && y != m {
            StringLessTransitive(a, m, y);
          }
        }
        assert IsFirst(s, a);
      } else {
        assert IsFirst(s, m);
      }
    }
  }

  lemma FirstUnique(s: set<string>, x: string, y: string)
    requires IsFirst(s, x) && IsFirst(s, y)
    ensures x == y
  {
    StringLessTotal(x, y);
  }

  function First(s: set<string>): (r: string)
    requires s != {}
    ensures r in s
  {
    FirstExists(s);
    assert forall x, y | IsFirst(s, x) && IsFirst(s, y) :: x == y by {
      forall x, y | IsFirst(s, x) && IsFirst(s, y) ensures x == y {
        FirstUnique(s, x, y);
      }
    }
    var x :| x in s && IsFirst(s, x);
    x
  }
}
