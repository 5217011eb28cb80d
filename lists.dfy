/**
 * `list.filter(x => x !== y)`, the list operation behind both the indicator
 * toggle of the advanced chart and the "required data fields" checkboxes of
 * the signal-bot form, with the facts both of them rely on.
 */
module Lists {

  /** Every entry of `s` except the ones equal to `y`, in their original order. */
  function Without<T(==)>(s: seq<T>, y: T): seq<T> {
    if s == [] then []
    else if s[0] == y then Without(s[1..], y)
    else [s[0]] + Without(s[1..], y)
  }

  /** An entry survives the filter iff it was there and is not `y`. */
  lemma {:induction false} WithoutMembership<T>(s: seq<T>, y: T, x: T)
    ensures x in Without(s, y) <==> x in s && x != y
  {
    if s != [] {
      WithoutMembership(s[1..], y, x);
      assert s == [s[0]] + s[1..];
    }
  }

  /** Filtering out an entry that is not there changes nothing. */
  lemma {:induction false} WithoutAbsent<T>(s: seq<T>, y: T)
    requires y !in s
    ensures Without(s, y) == s
  {
    if s != [] {
      assert y !in s[1..];
      WithoutAbsent(s[1..], y);
      assert s == [s[0]] + s[1..];
    }
  }

  /** The filter works piecewise: entries of `s` stay ahead of entries of `t`. */
  lemma {:induction false} WithoutAppend<T>(s: seq<T>, t: seq<T>, y: T)
    ensures Without(s + t, y) == Without(s, y) + Without(t, y)
  {
    if s == [] {
      assert s + t == t;
    } else {
      assert (s + t)[0] == s[0];
      assert (s + t)[1..] == s[1..] + t;
      WithoutAppend(s[1..], t, y);
    }
  }

  /** Every other entry keeps its number of occurrences; `y` has none left. */
  lemma {:induction false} WithoutMultiset<T>(s: seq<T>, y: T)
    ensures multiset(Without(s, y)) == multiset(s)[y := 0]
  {
    if s != [] {
      WithoutMultiset(s[1..], y);
      assert s == [s[0]] + s[1..];
      assert multiset(s) == multiset([s[0]]) + multiset(s[1..]);
    }
  }

  /** Filtering twice by the same entry is the same as filtering once. */
  lemma WithoutIdempotent<T>(s: seq<T>, y: T)
    ensures Without(Without(s, y), y) == Without(s, y)
  {
    WithoutMembership(s, y, y);
    WithoutAbsent(Without(s, y), y);
  }
}
