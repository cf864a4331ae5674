/** Order-preserving filtering and counting over sequences: the
    `Array.prototype.filter` and counting `reduce` that the store and the
    controller run over the product list. */
module Lists {

  /** The elements of `s` that satisfy `f`, in their original order. */
  function Keep<T>(s: seq<T>, f: T -> bool): (r: seq<T>)
    ensures |r| <= |s|
  {
    if s == [] then [] else (if f(s[0]) then [s[0]] else []) + Keep(s[1..], f)
  }

  /** The number of elements of `s` that satisfy `f`. */
  function CountIf<T>(s: seq<T>, f: T -> bool): (n: nat)
    ensures n <= |s|
  {
    if s == [] then 0 else (if f(s[0]) then 1 else 0) + CountIf(s[1..], f)
  }

  /** An element survives the filter exactly when it was there and passes. */
  lemma {:induction false} KeepMembers<T>(s: seq<T>, f: T -> bool, x: T)
    ensures x in Keep(s, f) <==> x in s && f(x)
  {
    if s != [] {
      KeepMembers(s[1..], f, x);
      assert s == [s[0]] + s[1..];
    }
  }

  /** Filtering distributes over concatenation, so the filter keeps the
      relative order of the elements it keeps. */
  lemma {:induction false} KeepConcat<T>(a: seq<T>, b: seq<T>, f: T -> bool)
    ensures Keep(a + b, f) == Keep(a, f) + Keep(b, f)
  {
    if a == [] {
      assert a + b == b;
    } else {
      var head := if f(a[0]) then [a[0]] else [];
      assert (a + b)[0] == a[0];
      assert (a + b)[1..] == a[1..] + b;
      assert Keep(a + b, f) == head + Keep(a[1..] + b, f);
      assert Keep(a, f) == head + Keep(a[1..], f);
      KeepConcat(a[1..], b, f);
      assert head + (Keep(a[1..], f) + Keep(b, f)) == (head + Keep(a[1..], f)) + Keep(b, f);
    }
  }

  /** A filter that every element passes changes nothing. */
  lemma {:induction false} KeepAll<T>(s: seq<T>, f: T -> bool)
    requires forall i :: 0 <= i < |s| ==> f(s[i])
    ensures Keep(s, f) == s
  {
    if s != [] {
      assert f(s[0]);
      KeepAll(s[1..], f);
    }
  }

  /** Two filters applied one after the other commute. */
  lemma {:induction false} KeepCommutes<T>(s: seq<T>, f: T -> bool, g: T -> bool)
    ensures Keep(Keep(s, f), g) == Keep(Keep(s, g), f)
  {
    if s != [] {
      var h := if f(s[0]) then [s[0]] else [];
      var k := if g(s[0]) then [s[0]] else [];
      KeepConcat(h, Keep(s[1..], f), g);
      KeepConcat(k, Keep(s[1..], g), f);
      KeepCommutes(s[1..], f, g);
    }
  }

  /** Keeping the elements that fail `g` leaves `|s|` minus the number that pass it. */
  lemma {:induction false} KeepLength<T>(s: seq<T>, f: T -> bool, g: T -> bool)
    requires forall x :: f(x) == !g(x)
    ensures |Keep(s, f)| == |s| - CountIf(s, g)
  {
    if s != [] {
      KeepLength(s[1..], f, g);
    }
  }

  /** No element passes exactly when the count is zero. */
  lemma {:induction false} CountIfZero<T>(s: seq<T>, f: T -> bool)
    ensures CountIf(s, f) == 0 <==> forall i :: 0 <= i < |s| ==> !f(s[i])
  {
    if s != [] {
      CountIfZero(s[1..], f);
      assert forall i :: 1 <= i < |s| ==> s[i] == s[1..][i - 1];
    }
  }

  /** Appending one element adds one to the count when it passes. */
  lemma {:induction false} CountIfAppend<T>(s: seq<T>, x: T, f: T -> bool)
    ensures CountIf(s + [x], f) == CountIf(s, f) + (if f(x) then 1 else 0)
  {
    if s == [] {
      assert s + [x] == [x];
    } else {
      assert (s + [x])[1..] == s[1..] + [x];
      CountIfAppend(s[1..], x, f);
    }
  }
}
