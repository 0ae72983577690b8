/** The comparator's distance between two finite sets, and the laws that make it
    a metric. */
module SetDistance {

  /** _set_distance: one minus the share of common elements. */
  function Distance<T(==)>(left: set<T>, right: set<T>): real {
    if left == right then 0.0
    else if left == {} || right == {} then 1.0
    else 1.0 - (|left * right| as real / |left + right| as real)
  }

  function Apart<T(==)>(left: set<T>, right: set<T>): set<T> {
    (left - right) + (right - left)
  }

  lemma SizeOfUnion<T>(s: set<T>, t: set<T>)
    requires s !! t
    ensures |s + t| == |s| + |t|
  {
  }

  lemma SizeOfSubset<T>(s: set<T>, t: set<T>)
    requires s <= t
    ensures |s| <= |t|
  {
    assert t == s + (t - s);
  }

  lemma Scaled(a: real, b: real, y: real)
    requires a < b && y > 0.0
    ensures a * y < b * y
  {
  }

  lemma Quotient(x: real, y: real, d: real)
    requires y > 0.0
    ensures x <= d * y ==> x / y <= d
    ensures d * y <= x ==> d <= x / y
  {
    var q := x / y;
    assert q * y == x;
    if q > d { Scaled(d, q, y); }
    if q < d { Scaled(q, d, y); }
  }

  lemma Complement(c: real, d: real, n: real)
    requires n == c + d && n > 0.0
    ensures 1.0 - c / n == d / n
  {
    var p, q := c / n, d / n;
    assert p * n == c && q * n == d;
    assert (p + q) * n == p * n + q * n;
    if p + q > 1.0 { Scaled(1.0, p + q, n); }
    if p + q < 1.0 { Scaled(p + q, 1.0, n); }
  }

  lemma SumOfShares(x: real, p: real, q: real, n: real)
    requires x <= p + q && n > 0.0
    ensures x / n <= p / n + q / n
  {
    var s, t := p / n, q / n;
    assert s * n == p && t * n == q;
    assert (s + t) * n == s * n + t * n;
    Quotient(x, n, s + t);
  }

  lemma UnionParts<T>(left: set<T>, right: set<T>)
    ensures |left + right| == |left * right| + |Apart(left, right)|
    ensures left == right ==> Apart(left, right) == {}
    ensures left == {} || right == {} ==> Apart(left, right) == left + right
  {
    var common, apart := left * right, Apart(left, right);
    assert left + right == common + apart;
    SizeOfUnion(common, apart);
  }

  /** The distance is the share of elements in only one of the sets. */
  lemma DistanceIsShare<T>(left: set<T>, right: set<T>)
    requires left + right != {}
    ensures Distance(left, right) == |Apart(left, right)| as real / |left + right| as real
  {
    hide Apart;
    UnionParts(left, right);
    assert |left + right| > 0;
    if left != right && left != {} && right != {} {
      Complement(|left * right| as real, |Apart(left, right)| as real, |left + right| as real);
    } else if left != right {
      var n := |left + right| as real;
      Quotient(n, n, 1.0);
    }
  }

  lemma DistanceBounds<T>(left: set<T>, right: set<T>)
    ensures 0.0 <= Distance(left, right) <= 1.0
  {
    if left + right != {} {
      DistanceIsShare(left, right);
      SizeOfSubset(Apart(left, right), left + right);
      Share(|Apart(left, right)|, |left + right|);
      hide Distance, Apart;
    }
  }

  lemma Share(part: nat, whole: nat)
    requires part <= whole && whole > 0
    ensures 0.0 <= part as real / whole as real <= 1.0
  {
    Quotient(part as real, whole as real, 1.0);
    Quotient(part as real, whole as real, 0.0);
  }

  lemma DistanceSymmetric<T>(left: set<T>, right: set<T>)
    ensures Distance(left, right) == Distance(right, left)
  {
    assert left * right == right * left && left + right == right + left;
  }

  lemma ZeroIffEqual<T>(left: set<T>, right: set<T>)
    ensures Distance(left, right) == 0.0 <==> left == right
  {
    if left != right && left != {} && right != {} {
      var all, common := left + right, left * right;
      assert exists x :: x in all && x !in common by {
        if left <= right { assert left < right; } else { }
      }
      assert common < all;
      SizeOfUnion(common, all - common);
      assert all == common + (all - common);
      Quotient(|common| as real, |all| as real, 1.0);
      var q := |common| as real / |all| as real;
      assert q * (|all| as real) == |common| as real;
    }
  }

  /** A share grows when as much is added below as above. */
  lemma ShareGrows(x: nat, y: nat, t: nat)
    requires x <= y && y > 0
    ensures x as real / y as real <= (x + t) as real / (y + t) as real
  {
    var r := (x + t) as real / (y + t) as real;
    var a, b, c := x as real, y as real, t as real;
    assert r * (b + c) == a + c;
    Quotient(a + c, b + c, 1.0);
    assert r <= 1.0;
    assert r * b == a + c - r * c;
    assert r * c <= c;
    Quotient(a, b, r);
  }

  /** A share shrinks when only the whole grows. */
  lemma ShareShrinks(x: nat, y: nat, n: nat)
    requires 0 < y <= n
    ensures x as real / n as real <= x as real / y as real
  {
    var r := x as real / n as real;
    assert r * (n as real) == x as real;
    Quotient(x as real, n as real, 0.0);
    assert r * (y as real) <= r * (n as real);
    Quotient(x as real, y as real, r);
  }

  /** Elements in only one of a and c are in only one of a, b or of b, c; those
      of b outside both are in both. */
  lemma ApartCounts<T>(a: set<T>, b: set<T>, c: set<T>)
    ensures |Apart(a, c)| + |b - (a + c)| <= |Apart(a, b)| + |Apart(b, c)|
  {
    var ab, bc, rest := Apart(a, b), Apart(b, c), b - (a + c);
    SizeOfUnion(Apart(a, c), rest);
    SizeOfSubset(Apart(a, c) + rest, ab + bc);
    assert |ab + bc| <= |ab| + |bc| by {
      assert ab + bc == ab + (bc - ab);
      SizeOfUnion(ab, bc - ab);
      SizeOfSubset(bc - ab, bc);
    }
  }

  lemma Sizes<T>(a: set<T>, b: set<T>, c: set<T>)
    ensures |a + c| + |b - (a + c)| == |a + b + c|
    ensures |a + b| <= |a + b + c| && |b + c| <= |a + b + c|
    ensures |Apart(a, c)| <= |a + c|
  {
    assert a + b + c == (a + c) + (b - (a + c));
    SizeOfUnion(a + c, b - (a + c));
    SizeOfSubset(a + b, a + b + c);
    SizeOfSubset(b + c, a + b + c);
    SizeOfSubset(Apart(a, c), a + c);
  }

  /** The triangle inequality. */
  lemma TriangleInequality<T>(a: set<T>, b: set<T>, c: set<T>)
    ensures Distance(a, c) <= Distance(a, b) + Distance(b, c)
  {
    DistanceBounds(a, b);
    DistanceBounds(b, c);
    if a != b && b != c && a + c != {} {
      assert a + b != {} && b + c != {};
      DistanceIsShare(a, c);
      DistanceIsShare(a, b);
      DistanceIsShare(b, c);
      Sizes(a, b, c);
      ApartCounts(a, b, c);
      assert |a + c| > 0 && |a + b| > 0 && |b + c| > 0;
      hide Distance, Apart;
      Shares(|Apart(a, c)|, |Apart(a, b)|, |Apart(b, c)|, |b - (a + c)|, |a + c|, |a + b|, |b + c|, |a + b + c|);
    }
  }

  lemma Shares(ac: nat, ab: nat, bc: nat, rest: nat, sizeAC: nat, sizeAB: nat, sizeBC: nat, n: nat)
    requires ac <= sizeAC && sizeAC + rest == n && 0 < sizeAC && 0 < sizeAB <= n && 0 < sizeBC <= n
    requires ac + rest <= ab + bc
    ensures ac as real / sizeAC as real <= ab as real / sizeAB as real + bc as real / sizeBC as real
  {
    ShareGrows(ac, sizeAC, rest);
    ShareShrinks(ab, sizeAB, n);
    ShareShrinks(bc, sizeBC, n);
    SumOfShares((ac + rest) as real, ab as real, bc as real, n as real);
  }
}
