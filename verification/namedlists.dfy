/** Lists of named entries (environment variables, plugins): the algorithms that
    drop duplicates and sort by name, and the one canonical list they all reach. */
module NamedLists {
  import opened GoTypes

  datatype Named<+T> = Named(name: string, item: T)

  // ----- Go's order on strings -----

  predicate Less(a: string, b: string) {
    if b == "" then false
    else if a == "" then true
    else a[0] < b[0] || (a[0] == b[0] && Less(a[1..], b[1..]))
  }

  lemma {:induction false} LessIsTotal(a: string, b: string)
    ensures a == b || Less(a, b) || Less(b, a)
    ensures !(Less(a, b) && Less(b, a))
    ensures !Less(a, a)
  {
    if a != "" && b != "" {
      LessIsTotal(a[1..], b[1..]);
      assert a == [a[0]] + a[1..] && b == [b[0]] + b[1..];
    }
    if a != "" {
      LessIsTotal(a[1..], a[1..]);
    }
  }

  lemma {:induction false} LessIsTransitive(a: string, b: string, c: string)
    requires Less(a, b) && Less(b, c)
    ensures Less(a, c)
  {
    if a != "" && a[0] == b[0] == c[0] {
      LessIsTransitive(a[1..], b[1..], c[1..]);
    }
  }

  // ----- Canonical lists -----

  /** The first entry with the given name. */
  function Find<T>(l: seq<Named<T>>, name: string): (r: Option<Named<T>>)
    ensures r.Some? ==> r.value in l && r.value.name == name
    ensures r.None? ==> forall e | e in l :: e.name != name
  {
    if l == [] then None
    else if l[0].name == name then Some(l[0])
    else Find(l[1..], name)
  }

  /** Sorted by name, no name twice. */
  ghost predicate StrictlySorted<T>(l: seq<Named<T>>) {
    forall i, j | 0 <= i < j < |l| :: Less(l[i].name, l[j].name)
  }

  /** Puts an entry in its place, displacing an entry of the same name. */
  function Place<T>(x: Named<T>, l: seq<Named<T>>): seq<Named<T>> {
    if l == [] then [x]
    else if x.name == l[0].name then [x] + l[1..]
    else if Less(x.name, l[0].name) then [x] + l
    else [l[0]] + Place(x, l[1..])
  }

  /** Sorted, and the first entry of each name survives. */
  function Canonical<T>(l: seq<Named<T>>): seq<Named<T>> {
    if l == [] then [] else Place(l[0], Canonical(l[1..]))
  }

  lemma {:induction false} PlaceFinds<T>(x: Named<T>, l: seq<Named<T>>, name: string)
    ensures Find(Place(x, l), name) == if name == x.name then Some(x) else Find(l, name)
  {
    if l != [] && x.name != l[0].name && !Less(x.name, l[0].name) {
      PlaceFinds(x, l[1..], name);
    }
  }

  lemma {:induction false} PlaceKeepsSorted<T>(x: Named<T>, l: seq<Named<T>>)
    requires StrictlySorted(l)
    ensures StrictlySorted(Place(x, l))
    ensures forall e | e in Place(x, l) :: e == x || e in l
  {
    if l != [] {
      LessIsTotal(x.name, l[0].name);
      if Less(x.name, l[0].name) {
        forall j | 0 < j < |l| ensures Less(x.name, l[j].name) {
          LessIsTransitive(x.name, l[0].name, l[j].name);
        }
      } else if x.name != l[0].name {
        PlaceKeepsSorted(x, l[1..]);
        var rest := Place(x, l[1..]);
        forall j | 0 <= j < |rest| ensures Less(l[0].name, rest[j].name) {
          assert rest[j] == x || rest[j] in l[1..];
        }
      }
    }
  }

  /** The canonical list is sorted, has unique names, and keeps first occurrences. */
  lemma {:induction false} CanonicalIsCanonical<T>(l: seq<Named<T>>)
    ensures StrictlySorted(Canonical(l))
    ensures forall name :: Find(Canonical(l), name) == Find(l, name)
  {
    if l != [] {
      CanonicalIsCanonical(l[1..]);
      PlaceKeepsSorted(l[0], Canonical(l[1..]));
      forall name ensures Find(Canonical(l), name) == Find(l, name) {
        PlaceFinds(l[0], Canonical(l[1..]), name);
      }
    }
  }

  lemma {:induction false} SortedFindTail<T>(l: seq<Named<T>>, name: string)
    requires l != [] && StrictlySorted(l)
    ensures Find(l[1..], name) == if name == l[0].name then None else Find(l, name)
  {
    LessIsTotal(name, name);
    if Find(l[1..], l[0].name).Some? {
      var e := Find(l[1..], l[0].name).value;
      var i :| 0 <= i < |l[1..]| && l[1..][i] == e;
      assert Less(l[0].name, l[1 + i].name);
      LessIsTotal(l[0].name, l[0].name);
      assert false;
    }
  }

  lemma HeadIsLeast<T>(l: seq<Named<T>>, e: Named<T>)
    requires StrictlySorted(l) && e in l
    ensures l[0] == e || Less(l[0].name, e.name)
  {
    var i :| 0 <= i < |l| && l[i] == e;
  }

  /** Sorted lists of unique names are determined by what they hold. */
  lemma {:induction false} SortedListsAreUnique<T>(a: seq<Named<T>>, b: seq<Named<T>>)
    requires StrictlySorted(a) && StrictlySorted(b)
    requires forall name :: Find(a, name) == Find(b, name)
    ensures a == b
  {
    if a != [] {
      assert Find(a, a[0].name) == Some(a[0]);
    }
    if b != [] {
      assert Find(b, b[0].name) == Some(b[0]);
    }
    if a != [] && b != [] {
      var x, y := a[0], b[0];
      HeadIsLeast(a, Find(a, y.name).value);
      HeadIsLeast(b, Find(b, x.name).value);
      LessIsTotal(x.name, y.name);
      assert x == y;
      forall name ensures Find(a[1..], name) == Find(b[1..], name) {
        SortedFindTail(a, name);
        SortedFindTail(b, name);
      }
      SortedListsAreUnique(a[1..], b[1..]);
      assert a == [x] + a[1..] && b == [y] + b[1..];
    }
  }

  /** Whatever sorted list of unique names agrees with `l` on first occurrences is the canonical one. */
  lemma CanonicalIsUnique<T>(s: seq<Named<T>>, l: seq<Named<T>>)
    requires StrictlySorted(s)
    requires forall name :: Find(s, name) == Find(l, name)
    ensures s == Canonical(l)
  {
    CanonicalIsCanonical(l);
    SortedListsAreUnique(s, Canonical(l));
  }

  // ----- Order independence -----

  ghost predicate DistinctNames<T>(l: seq<Named<T>>) {
    forall i, j | 0 <= i < j < |l| :: l[i].name != l[j].name
  }

  lemma {:induction false} DistinctFind<T>(l: seq<Named<T>>, e: Named<T>)
    requires DistinctNames(l) && e in l
    ensures Find(l, e.name) == Some(e)
  {
    if l[0] != e {
      assert e in l[1..];
      var i :| 0 < i < |l| && l[i] == e;
      assert l[0].name != l[i].name;
      DistinctFind(l[1..], e);
    }
  }

  /** Reordering a list of distinct names does not change its canonical form. */
  lemma PermutationInvariant<T>(l: seq<Named<T>>, p: seq<Named<T>>)
    requires DistinctNames(l) && multiset(l) == multiset(p)
    ensures Canonical(l) == Canonical(p)
  {
    CanonicalIsCanonical(p);
    forall name ensures Find(p, name) == Find(l, name) {
      match Find(p, name)
      case Some(e) =>
        assert e in multiset(l);
        DistinctFind(l, e);
      case None =>
        forall e | e in l ensures e.name != name {
          assert e in multiset(p);
        }
    }
    CanonicalIsUnique(Canonical(p), l);
  }

  ghost predicate NoDuplicates<T>(l: seq<T>) {
    forall i, j | 0 <= i < j < |l| :: l[i] != l[j]
  }

  lemma {:induction false} CountAtMostOne<T>(l: seq<T>, e: T)
    requires NoDuplicates(l)
    ensures multiset(l)[e] <= 1
  {
    if l != [] {
      var front, last := l[..|l| - 1], l[|l| - 1];
      assert l == front + [last];
      CountAtMostOne(front, e);
      assert last !in front;
    }
  }

  lemma PermutationHasNoDuplicates<T>(l: seq<T>, p: seq<T>)
    requires NoDuplicates(l) && multiset(l) == multiset(p)
    ensures NoDuplicates(p)
  {
    forall i, j | 0 <= i < j < |p| ensures p[i] != p[j] {
      CountAtMostOne(l, p[i]);
      assert p == (p[..i] + [p[i]] + p[i + 1..j]) + ([p[j]] + p[j + 1..]);
      assert multiset(p)[p[i]] <= 1;
      assert p[i] in p[..i] + [p[i]] + p[i + 1..j];
    }
  }

  lemma SameElements<T>(l: seq<T>, p: seq<T>)
    requires multiset(l) == multiset(p)
    ensures forall e :: e in l <==> e in p
  {
    forall e ensures e in l <==> e in p {
      assert e in l <==> e in multiset(l);
      assert e in p <==> e in multiset(p);
    }
  }

  lemma PermutationHasDistinctNames<T>(l: seq<Named<T>>, p: seq<Named<T>>)
    requires DistinctNames(l) && multiset(l) == multiset(p)
    ensures DistinctNames(p)
  {
    PermutationHasNoDuplicates(l, p);
    forall i, j | 0 <= i < j < |p| ensures p[i].name != p[j].name {
      assert p[i] in multiset(l) && p[j] in multiset(l);
      DistinctFind(l, p[i]);
      DistinctFind(l, p[j]);
    }
  }

  // ----- Sorting -----

  ghost predicate Ascending<T>(l: seq<T>, key: T -> string) {
    forall i, j | 0 <= i < j < |l| :: !Less(key(l[j]), key(l[i]))
  }

  /** `sort.Strings` and `sort.SliceStable` by name. */
  method SortBy<T>(items: seq<T>, key: T -> string) returns (res: seq<T>)
    ensures multiset(res) == multiset(items)
    ensures Ascending(res, key)
  {
    res := [];
    for n := 0 to |items|
      invariant multiset(res) == multiset(items[..n])
      invariant Ascending(res, key)
    {
      var at := |res|;
      while at > 0 && Less(key(items[n]), key(res[at - 1]))
        invariant 0 <= at <= |res|
        invariant forall j | at <= j < |res| :: Less(key(items[n]), key(res[j]))
      {
        at := at - 1;
      }
      InsertionKeepsAscending(res, items[n], at, key);
      assert res == res[..at] + res[at..];
      res := res[..at] + [items[n]] + res[at..];
      assert items[..n + 1] == items[..n] + [items[n]];
    }
    assert items[..|items|] == items;
  }

  lemma InsertionKeepsAscending<T>(l: seq<T>, x: T, at: nat, key: T -> string)
    requires Ascending(l, key) && at <= |l|
    requires at > 0 ==> !Less(key(x), key(l[at - 1]))
    requires forall j | at <= j < |l| :: Less(key(x), key(l[j]))
    ensures Ascending(l[..at] + [x] + l[at..], key)
  {
    forall j | at <= j < |l| ensures !Less(key(l[j]), key(x)) {
      LessIsTotal(key(x), key(l[j]));
    }
    forall i | 0 <= i < at ensures !Less(key(x), key(l[i])) {
      if Less(key(x), key(l[i])) && i < at - 1 {
        LessIsTotal(key(l[i]), key(l[at - 1]));
        if Less(key(l[i]), key(l[at - 1])) {
          LessIsTransitive(key(x), key(l[i]), key(l[at - 1]));
        }
      }
    }
  }

  /** Sorting distinct names in ascending order sorts them strictly. */
  lemma AscendingDistinct<T>(l: seq<Named<T>>)
    requires DistinctNames(l)
    requires Ascending(l, (e: Named<T>) => e.name)
    ensures StrictlySorted(l)
  {
    forall i, j | 0 <= i < j < |l| ensures Less(l[i].name, l[j].name) {
      LessIsTotal(l[i].name, l[j].name);
      var key := (e: Named<T>) => e.name;
      assert !Less(key(l[j]), key(l[i]));
    }
  }

  // ----- Maps from names to entries -----

  /** A Go map from names to entries that holds the first entries of a list. */
  ghost predicate Represents<T>(m: map<string, Named<T>>, l: seq<Named<T>>) {
    forall name :: (name in m <==> Find(l, name).Some?) && (name in m ==> Find(l, name) == Some(m[name]))
  }

  lemma {:induction false} FindInConcat<T>(a: seq<Named<T>>, b: seq<Named<T>>, name: string)
    ensures Find(a + b, name) == if Find(a, name).Some? then Find(a, name) else Find(b, name)
  {
    if a == [] {
      assert a + b == b;
    } else {
      FindInConcat(a[1..], b, name);
      assert (a + b)[1..] == a[1..] + b;
    }
  }

  lemma RepresentsPush<T>(m: map<string, Named<T>>, l: seq<Named<T>>, x: Named<T>)
    requires Represents(m, l)
    ensures Represents(m[x.name := x], [x] + l)
  {
    forall name ensures Find([x] + l, name) == if name == x.name then Some(x) else Find(l, name) {
      assert ([x] + l)[1..] == l;
    }
  }

  lemma RepresentsAppend<T>(m: map<string, Named<T>>, l: seq<Named<T>>, x: Named<T>)
    requires Represents(m, l)
    ensures Represents(if x.name in m then m else m[x.name := x], l + [x])
  {
    forall name ensures Find(l + [x], name) == if Find(l, name).Some? then Find(l, name) else Find([x], name) {
      FindInConcat(l, [x], name);
    }
  }

  /** A sorted listing of a map that holds the first entries of `l` is the canonical form of `l`. */
  lemma SortedListingIsCanonical<T>(s: seq<Named<T>>, m: map<string, Named<T>>, l: seq<Named<T>>)
    requires Represents(m, l) && StrictlySorted(s)
    requires forall e | e in s :: e.name in m && m[e.name] == e
    requires forall name | name in m :: m[name] in s
    ensures s == Canonical(l)
  {
    forall name ensures Find(s, name) == Find(l, name) {
      if name in m {
        assert m[name] in s && m[name].name == name;
      }
    }
    CanonicalIsUnique(s, l);
  }

  /** `for _, v := range m { ret = append(ret, v) }` followed by a sort on the name. */
  method SortedValues<T>(m: map<string, Named<T>>, ghost l: seq<Named<T>>) returns (res: seq<Named<T>>)
    requires Represents(m, l)
    ensures res == Canonical(l)
  {
    var ret: seq<Named<T>> := [];
    var pending := m.Keys;
    while pending != {}
      invariant pending <= m.Keys
      invariant forall name | name in m :: m[name].name == name
      invariant forall e | e in ret :: e.name in m && m[e.name] == e && e.name !in pending
      invariant forall name | name in m && name !in pending :: m[name] in ret
      invariant DistinctNames(ret)
    {
      var name :| name in pending;
      ret := ret + [m[name]];
      pending := pending - {name};
    }
    res := SortBy(ret, (e: Named<T>) => e.name);
    PermutationHasDistinctNames(ret, res);
    AscendingDistinct(res);
    SameElements(ret, res);
    SortedListingIsCanonical(res, m, l);
  }

  /** `for key := range m { keys = append(keys, key) }`, a sort of the keys, and a lookup of each. */
  method SortedLookups<T>(m: map<string, Named<T>>, ghost l: seq<Named<T>>) returns (res: seq<Named<T>>)
    requires Represents(m, l)
    ensures res == Canonical(l)
  {
    var keys: seq<string> := [];
    var pending := m.Keys;
    while pending != {}
      invariant pending <= m.Keys
      invariant forall k | k in keys :: k in m && k !in pending
      invariant forall k | k in m && k !in pending :: k in keys
      invariant NoDuplicates(keys)
    {
      var k :| k in pending;
      keys := keys + [k];
      pending := pending - {k};
    }
    var sorted := SortBy(keys, (k: string) => k);
    PermutationHasNoDuplicates(keys, sorted);
    SameElements(keys, sorted);
    res := [];
    for i := 0 to |sorted|
      invariant |res| == i
      invariant forall j | 0 <= j < i :: sorted[j] in m && res[j] == m[sorted[j]]
    {
      res := res + [m[sorted[i]]];
    }
    LookupsAreCanonical(sorted, res, m, l);
  }

  lemma LookupsAreCanonical<T>(sorted: seq<string>, res: seq<Named<T>>, m: map<string, Named<T>>, l: seq<Named<T>>)
    requires Represents(m, l)
    requires NoDuplicates(sorted) && Ascending(sorted, (k: string) => k)
    requires |res| == |sorted| && forall j | 0 <= j < |res| :: sorted[j] in m && res[j] == m[sorted[j]]
    requires forall name | name in m :: name in sorted
    ensures res == Canonical(l)
  {
    var key := (k: string) => k;
    forall j | 0 <= j < |res| ensures res[j].name == sorted[j] {
      assert Find(l, sorted[j]) == Some(res[j]);
    }
    forall i, j | 0 <= i < j < |res| ensures Less(res[i].name, res[j].name) {
      LessIsTotal(sorted[i], sorted[j]);
      assert !Less(key(sorted[j]), key(sorted[i]));
    }
    forall name | name in m ensures m[name] in res {
      var i :| 0 <= i < |sorted| && sorted[i] == name;
      assert res[i] == m[name];
    }
    SortedListingIsCanonical(res, m, l);
  }
}
