/** The container environment: the CR's variables merged with the proxy variables. */
module Environment {
  import opened GoTypes
  import opened NamedLists
  import opened RolloutManagers

  function Reversed<T>(s: seq<T>): seq<T> {
    if s == [] then [] else [s[|s| - 1]] + Reversed(s[..|s| - 1])
  }

  /** Every candidate, in order of precedence. */
  function Precedence(existing: seq<EnvVar>, merge: seq<EnvVar>, override: bool): seq<EnvVar> {
    if override then Reversed(merge) + Reversed(existing) else Reversed(existing) + merge
  }

  function EnvMerged(existing: seq<EnvVar>, merge: seq<EnvVar>, override: bool): seq<EnvVar> {
    Canonical(Precedence(existing, merge, override))
  }

  method EnvMerge(existing: seq<EnvVar>, merge: seq<EnvVar>, override: bool) returns (ret: seq<EnvVar>)
    ensures ret == EnvMerged(existing, merge, override)
  {
    var final: map<string, EnvVar> := map[];
    for i := 0 to |existing|
      invariant Represents(final, Reversed(existing[..i]))
    {
      ReversedPush(existing, i);
      RepresentsPush(final, Reversed(existing[..i]), existing[i]);
      final := final[existing[i].name := existing[i]];
    }
    assert existing[..|existing|] == existing;
    assert Precedence(existing, merge[..0], override) == Reversed(existing);
    for j := 0 to |merge|
      invariant Represents(final, Precedence(existing, merge[..j], override))
    {
      var m := merge[j];
      PrecedenceStep(existing, merge, j, override);
      RepresentsPush(final, Precedence(existing, merge[..j], override), m);
      RepresentsAppend(final, Precedence(existing, merge[..j], override), m);
      if m.name in final {
        if override {
          final := final[m.name := m];
        }
      } else {
        final := final[m.name := m];
      }
    }
    assert merge[..|merge|] == merge;
    ret := SortedValues(final, Precedence(existing, merge, override));
  }

  lemma ReversedPush<T>(s: seq<T>, i: nat)
    requires i < |s|
    ensures Reversed(s[..i + 1]) == [s[i]] + Reversed(s[..i])
  {
    assert s[..i + 1][..i] == s[..i];
  }

  /** Each further variable to merge goes last, or first when it overrides. */
  lemma PrecedenceStep(existing: seq<EnvVar>, merge: seq<EnvVar>, j: nat, override: bool)
    requires j < |merge|
    ensures Precedence(existing, merge[..j + 1], override) ==
            if override then [merge[j]] + Precedence(existing, merge[..j], override)
            else Precedence(existing, merge[..j], override) + [merge[j]]
  {
    var e, m := Reversed(existing), Reversed(merge[..j]);
    if override {
      ReversedPush(merge, j);
      assert ([merge[j]] + m) + e == [merge[j]] + (m + e);
    } else {
      var front := merge[..j];
      assert merge[..j + 1] == front + [merge[j]];
      assert e + (front + [merge[j]]) == (e + front) + [merge[j]];
    }
  }

  /** The last entry with the given name. */
  function FindLast(l: seq<EnvVar>, name: string): Option<EnvVar> {
    if l == [] then None
    else if l[|l| - 1].name == name then Some(l[|l| - 1])
    else FindLast(l[..|l| - 1], name)
  }

  lemma {:induction false} FindInReversed(l: seq<EnvVar>, name: string)
    ensures Find(Reversed(l), name) == FindLast(l, name)
  {
    if l != [] {
      FindInReversed(l[..|l| - 1], name);
      assert Reversed(l)[1..] == Reversed(l[..|l| - 1]);
    }
  }

  /** Sorted by name with unique names; which candidate wins for each name. */
  lemma EnvMergeWinners(existing: seq<EnvVar>, merge: seq<EnvVar>, override: bool, name: string)
    ensures StrictlySorted(EnvMerged(existing, merge, override))
    ensures Find(EnvMerged(existing, merge, override), name) ==
            if override then
              if FindLast(merge, name).Some? then FindLast(merge, name) else FindLast(existing, name)
            else
              if FindLast(existing, name).Some? then FindLast(existing, name) else Find(merge, name)
  {
    CanonicalIsCanonical(Precedence(existing, merge, override));
    FindInReversed(existing, name);
    FindInReversed(merge, name);
    if override {
      FindInConcat(Reversed(merge), Reversed(existing), name);
    } else {
      FindInConcat(Reversed(existing), merge, name);
    }
  }

  lemma {:induction false} SortedFindLast(l: seq<EnvVar>, name: string)
    requires StrictlySorted(l)
    ensures FindLast(l, name) == Find(l, name)
  {
    if l != [] {
      var front, last := l[..|l| - 1], l[|l| - 1];
      SortedFindLast(front, name);
      FindInConcat(front, [last], name);
      assert l == front + [last];
      if last.name == name && Find(front, name).Some? {
        var i :| 0 <= i < |front| && front[i] == Find(front, name).value;
        assert Less(l[i].name, l[|l| - 1].name);
        LessIsTotal(name, name);
      }
    }
  }

  /** Merging the same variables again changes nothing. */
  lemma EnvMergeIdempotent(existing: seq<EnvVar>, merge: seq<EnvVar>, override: bool)
    ensures EnvMerged(EnvMerged(existing, merge, override), merge, override) == EnvMerged(existing, merge, override)
  {
    var once := EnvMerged(existing, merge, override);
    CanonicalIsCanonical(Precedence(existing, merge, override));
    forall name ensures Find(once, name) == Find(Precedence(once, merge, override), name) {
      EnvMergeWinners(existing, merge, override, name);
      EnvMergeWinners(once, merge, override, name);
      CanonicalIsCanonical(Precedence(once, merge, override));
      SortedFindLast(once, name);
    }
    CanonicalIsUnique(once, Precedence(once, merge, override));
  }
}
