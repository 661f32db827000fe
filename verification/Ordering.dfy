/**
 The order Go's `sort.Strings` and `<` use on strings, and sorted listings of map keys.
 Characters are Unicode scalar values, whose order agrees with the byte order of UTF-8.
 */
module Ordering {
  predicate Less(a: string, b: string) {
    b != [] && (a == [] || a[0] < b[0] || (a[0] == b[0] && Less(a[1..], b[1..])))
  }

  lemma {:induction false} LessIsTotal(a: string, b: string)
    ensures Less(a, b) || a == b || Less(b, a)
    ensures !(Less(a, b) && Less(b, a)) && !Less(a, a)
  {
    if a != [] && b != [] {
      LessIsTotal(a[1..], b[1..]);
      LessIsTotal(a[1..], a[1..]);
      if a[0] == b[0] && a[1..] == b[1..] {
        assert a == [a[0]] + a[1..] && b == [b[0]] + b[1..];
      }
    } else if a != [] {
      LessIsTotal(a[1..], a[1..]);
    }
  }

  lemma {:induction false} LessIsTransitive(a: string, b: string, c: string)
    requires Less(a, b) && Less(b, c)
    ensures Less(a, c)
  {
    if a != [] && a[0] == b[0] && b[0] == c[0] {
      LessIsTransitive(a[1..], b[1..], c[1..]);
    }
  }

  ghost predicate Sorted(s: seq<string>) {
    forall i, j :: 0 <= i < j < |s| ==> Less(s[i], s[j])
  }

  /** `s` lists exactly the elements of `keys`, in order, each once. */
  ghost predicate Lists(s: seq<string>, keys: set<string>) {
    Sorted(s) && forall k :: k in s <==> k in keys
  }

  /** A sorted listing does not depend on the order a map was iterated in. */
  lemma {:induction false} ListingIsUnique(s: seq<string>, t: seq<string>, keys: set<string>)
    requires Lists(s, keys) && Lists(t, keys)
    ensures s == t
  {
    assert t != [] ==> t[0] in keys && t[0] in s;
    if s != [] {
      assert s[0] in keys && s[0] in t;
      var i :| 0 <= i < |t| && t[i] == s[0];
      var j :| 0 <= j < |s| && s[j] == t[0];
      LessIsTotal(s[0], t[0]);
      assert s[0] == t[0];
      RestLists(s, keys);
      RestLists(t, keys);
      ListingIsUnique(s[1..], t[1..], keys - {s[0]});
      assert s == [s[0]] + s[1..] && t == [t[0]] + t[1..];
    }
  }

  lemma RestLists(s: seq<string>, keys: set<string>)
    requires Lists(s, keys) && s != []
    ensures Lists(s[1..], keys - {s[0]})
  {
    forall k ensures k in s[1..] <==> k in keys - {s[0]} {
      if k in s[1..] {
        var i :| 1 <= i < |s| && s[i] == k;
        LessIsTotal(s[0], s[i]);
      }
      if k in keys - {s[0]} {
        assert k in s;
      }
    }
  }

  method Insert(s: seq<string>, x: string, ghost keys: set<string>) returns (out: seq<string>)
    requires Lists(s, keys) && x !in keys
    ensures Lists(out, keys + {x})
  {
    var i := 0;
    while i < |s| && Less(s[i], x)
      invariant 0 <= i <= |s|
      invariant forall j :: 0 <= j < i ==> Less(s[j], x)
    {
      i := i + 1;
    }
    out := s[..i] + [x] + s[i..];
    if i < |s| {
      assert s[i] in keys;
      LessIsTotal(s[i], x);
    }
    forall j | i <= j < |s| ensures Less(x, s[j]) {
      if i < j { LessIsTransitive(x, s[i], s[j]); }
    }
    forall k ensures k in out <==> k in keys + {x} {
      assert k in s <==> k in s[..i] || k in s[i..] by { assert s == s[..i] + s[i..]; }
      assert k in out <==> k in s[..i] || k == x || k in s[i..];
    }
  }

  /** Collecting the keys of a Go map in any order and sorting them. */
  method SortedKeys(keys: set<string>) returns (out: seq<string>)
    ensures Lists(out, keys)
  {
    out := [];
    var rest := keys;
    while rest != {}
      invariant rest <= keys && Lists(out, keys - rest)
      decreases rest
    {
      var k :| k in rest;
      out := Insert(out, k, keys - rest);
      assert keys - (rest - {k}) == (keys - rest) + {k};
      rest := rest - {k};
    }
    assert keys - rest == keys;
  }
}
