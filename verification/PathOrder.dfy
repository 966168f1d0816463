/** Payload names in the order Python's sorted() gives them: by code point, shorter prefix first. */
module PathOrder {

  predicate Before(a: string, b: string) {
    b != [] && (a == [] || a[0] < b[0] || (a[0] == b[0] && Before(a[1..], b[1..])))
  }

  lemma {:induction false} Trichotomy(a: string, b: string)
    ensures a == b || Before(a, b) || Before(b, a)
    ensures !(Before(a, b) && Before(b, a)) && !Before(a, a)
  {
    if a != [] && b != [] && a[0] == b[0] {
      Trichotomy(a[1..], b[1..]);
      assert a == [a[0]] + a[1..] && b == [b[0]] + b[1..];
    }
    if a != [] {
      Trichotomy(a[1..], a[1..]);
    }
  }

  lemma {:induction false} Transitive(a: string, b: string, c: string)
    requires Before(a, b) && Before(b, c)
    ensures Before(a, c)
  {
    if a != [] && a[0] == b[0] == c[0] {
      Transitive(a[1..], b[1..], c[1..]);
    }
  }

  predicate Least(s: set<string>, m: string) {
    m in s && forall x | x in s && x != m :: Before(m, x)
  }

  lemma {:induction false} LeastExists(s: set<string>) returns (m: string)
    requires s != {}
    ensures Least(s, m)
  {
    var x :| x in s;
    if s == {x} {
      m := x;
    } else {
      var y := LeastExists(s - {x});
      Trichotomy(x, y);
      m := if Before(x, y) then x else y;
      forall z | z in s && z != m ensures Before(m, z) {
        if m == x && z != y { Transitive(x, y, z); }
      }
    }
  }

  lemma LeastIsUnique(s: set<string>)
    requires s != {}
    ensures exists m :: Least(s, m)
    ensures forall m, n | Least(s, m) && Least(s, n) :: m == n
  {
    var m := LeastExists(s);
    forall m, n | Least(s, m) && Least(s, n) ensures m == n {
      Trichotomy(m, n);
    }
  }

  /** The elements of s, each exactly once, in ascending order. */
  function Sorted(s: set<string>): (r: seq<string>)
    ensures forall x :: x in r <==> x in s
    ensures forall i, j | 0 <= i < j < |r| :: Before(r[i], r[j])
    ensures forall i, j | 0 <= i < |r| && 0 <= j < |r| && i != j :: r[i] != r[j]
  {
    if s == {} then []
    else
      LeastIsUnique(s);
      var m :| Least(s, m);
      [m] + Sorted(s - {m})
  }
}
