/** Labels and annotations: what the operator expects on its objects, what it
    compares, and how it merges what it expects into a live object. */
module Metadata {
  import opened GoTypes
  import opened GoStrings
  import opened RolloutManagers

  const RESOURCE_NAME := "argo-rollouts"
  const NAME_LABEL := "app.kubernetes.io/name"
  const PART_OF_LABEL := "app.kubernetes.io/part-of"
  const COMPONENT_LABEL := "app.kubernetes.io/component"
  const RBAC_PREFIX := "rbac.authorization.k8s.io/"

  /** The controller owner of an object. */
  datatype Owner = Owner(isRolloutManager: bool, name: string)

  datatype Meta = Meta(labels: StringMap, annotations: StringMap, owner: Option<Owner>, rest: Opaque)

  const BARE_META := Meta(NilMap, NilMap, None, 0)

  const STANDARD_LABELS: map<string, string> :=
    map[NAME_LABEL := RESOURCE_NAME, PART_OF_LABEL := RESOURCE_NAME, COMPONENT_LABEL := RESOURCE_NAME]

  function DefaultLabels(spec: Spec): map<string, string> {
    STANDARD_LABELS + spec.ExtraLabels()
  }

  function DefaultMeta(spec: Spec): Meta {
    BARE_META.(labels := Map(DefaultLabels(spec)), annotations := Map(spec.ExtraAnnotations()))
  }

  /** A copy that keeps only the keys in `keep`; nil stays nil. */
  function Restrict(m: StringMap, keep: set<string>): StringMap {
    if m.NilMap? then NilMap else Map(map k | k in m.entries && k in keep :: m.entries[k])
  }

  /** Labels the comparison never treats as the user's own. */
  predicate IsAggregateLabel(key: string) {
    Contains(key, RBAC_PREFIX) && Contains(key, "aggregate")
  }

  /** The labels of a live object that take part in the comparison. */
  predicate IsComparedLabel(key: string, spec: Spec) {
    IsAggregateLabel(key) || key in DefaultLabels(spec)
  }

  function ComparedKeys(m: StringMap, spec: Spec): set<string> {
    set k | k in m.Content() && IsComparedLabel(k, spec)
  }

  function ComparedLabels(m: StringMap, spec: Spec): StringMap {
    Restrict(m, ComparedKeys(m, spec))
  }

  function ComparedAnnotations(m: StringMap, spec: Spec): StringMap {
    Restrict(m, spec.ExtraAnnotations().Keys)
  }

  /** Whether the compared part of the live metadata is as expected. */
  predicate MetaMatches(live: Meta, expected: Meta, spec: Spec) {
    AreStringMapsEqual(ComparedLabels(live.labels, spec), expected.labels) &&
    AreStringMapsEqual(ComparedAnnotations(live.annotations, spec), expected.annotations)
  }

  function MergeMaps(live: StringMap, expected: StringMap): StringMap {
    Map(live.Content() + expected.Content())
  }

  /** The live metadata after one pass of a reconciler. */
  function MergedMeta(live: Meta, expected: Meta, spec: Spec): Meta {
    if MetaMatches(live, expected, spec) then live
    else live.(labels := MergeMaps(live.labels, expected.labels),
               annotations := MergeMaps(live.annotations, expected.annotations))
  }

  /** How metadata comes back from the API server. */
  function StoredMeta(m: Meta): Meta {
    m.(labels := OmitEmpty(m.labels), annotations := OmitEmpty(m.annotations))
  }

  // ----- Properties of the merge -----

  /** Whether or not a difference is detected, the outcome is the live content overridden
      by the expected content: no key is lost, every expected key has its expected value,
      and every other key keeps its value. */
  lemma MergeContent(live: Meta, expected: Meta, spec: Spec)
    ensures MergedMeta(live, expected, spec).labels.Content() == live.labels.Content() + expected.labels.Content()
    ensures MergedMeta(live, expected, spec).annotations.Content()
         == live.annotations.Content() + expected.annotations.Content()
    ensures MergedMeta(live, expected, spec).owner == live.owner
    ensures MergedMeta(live, expected, spec).rest == live.rest
  {
    if MetaMatches(live, expected, spec) {
      RestrictedIsPart(live.labels, expected.labels, ComparedKeys(live.labels, spec));
      RestrictedIsPart(live.annotations, expected.annotations, spec.ExtraAnnotations().Keys);
    }
  }

  lemma RestrictedIsPart(live: StringMap, expected: StringMap, keep: set<string>)
    requires Restrict(live, keep).Content() == expected.Content()
    ensures live.Content() + expected.Content() == live.Content()
  {
    forall k | k in expected.Content()
      ensures k in live.Content() && live.Content()[k] == expected.Content()[k]
    {
      assert k in Restrict(live, keep).Content();
    }
  }

  /** The expected content of the last expectation that names the key, if any does. */
  function LastExpected(expected: seq<map<string, string>>, key: string): Option<string> {
    if expected == [] then None
    else
      var last := expected[|expected| - 1];
      if key in last then Some(last[key]) else LastExpected(expected[..|expected| - 1], key)
  }

  function LabelsOf(wanted: seq<Meta>): seq<map<string, string>> {
    seq(|wanted|, i requires 0 <= i < |wanted| => wanted[i].labels.Content())
  }

  function AnnotationsOf(wanted: seq<Meta>): seq<map<string, string>> {
    seq(|wanted|, i requires 0 <= i < |wanted| => wanted[i].annotations.Content())
  }

  /** No key is lost; each expected key has the value of the last expectation that names it, and
      every other key keeps its value. */
  ghost predicate Overridden(before: map<string, string>, after: map<string, string>,
                             expected: seq<map<string, string>>) {
    forall key ::
      (key in after <==> key in before || LastExpected(expected, key).Some?) &&
      (key in after ==> after[key] == (match LastExpected(expected, key) case Some(v) => v case None => before[key]))
  }

  lemma {:induction false} FirstExpected(first: map<string, string>, rest: seq<map<string, string>>, key: string)
    ensures LastExpected([first] + rest, key) ==
            if LastExpected(rest, key).Some? then LastExpected(rest, key)
            else if key in first then Some(first[key]) else None
    decreases |rest|
  {
    var all := [first] + rest;
    if rest == [] {
      assert all == [first];
    } else {
      FirstExpected(first, rest[..|rest| - 1], key);
      assert all[..|all| - 1] == [first] + rest[..|rest| - 1];
    }
  }

  /** One expectation first, then the others. */
  lemma OverriddenThen(before: map<string, string>, first: map<string, string>, after: map<string, string>,
                       rest: seq<map<string, string>>)
    requires Overridden(before + first, after, rest)
    ensures Overridden(before, after, [first] + rest)
  {
    forall key
      ensures key in after <==> key in before || LastExpected([first] + rest, key).Some?
      ensures key in after ==>
              after[key] == (match LastExpected([first] + rest, key) case Some(v) => v case None => before[key])
    {
      FirstExpected(first, rest, key);
    }
  }

  /** The labels of aggregate roles: whoever put them there, the comparison keeps them. */
  predicate IsKept(key: string) {
    Contains(key, "rbac.authorization.k8s.io/") && Contains(key, "aggregate")
  }

  /** A second pass detects a difference exactly when an expected label is not one the
      comparison keeps, or the live object carries an aggregate label nobody expects. */
  lemma SecondPassMatches(live: Meta, expected: Meta, spec: Spec)
    requires expected.annotations.Content() == spec.ExtraAnnotations()
    requires DefaultLabels(spec).Keys <= expected.labels.Content().Keys
    ensures MetaMatches(StoredMeta(MergedMeta(live, expected, spec)), expected, spec) <==>
            (forall k | k in expected.labels.Content() :: IsKept(k) || k in DefaultLabels(spec)) &&
            (forall k | k in live.labels.Content() && IsKept(k) :: k in expected.labels.Content())
  {
    MergeContent(live, expected, spec);
    var merged := StoredMeta(MergedMeta(live, expected, spec));
    FilterOfMerge(live.labels.Content(), expected.labels.Content(), merged.labels, ComparedKeys(merged.labels, spec));
    FilterOfMerge(live.annotations.Content(), expected.annotations.Content(), merged.annotations,
                  spec.ExtraAnnotations().Keys);
    assert forall k :: IsComparedLabel(k, spec) && !IsAggregateLabel(k) ==> k in expected.labels.Content();
  }

  lemma FilterOfMerge(live: map<string, string>, expected: map<string, string>, merged: StringMap, keep: set<string>)
    requires merged.Content() == live + expected
    ensures Restrict(merged, keep).Content() == expected <==>
            expected.Keys <= keep && (forall k | k in live && k in keep :: k in expected)
  {
    var kept := Restrict(merged, keep).Content();
    assert forall k :: k in kept <==> k in keep && (k in live || k in expected);
    assert kept == expected <==> kept.Keys == expected.Keys;
  }

  // ----- The operator's code, on metadata it edits in place -----

  /** A Go map in memory: everybody who holds a reference to it sees what is done to it. */
  class GoMap {
    var entries: map<string, string>

    constructor (m: map<string, string>)
      ensures entries == m
    {
      entries := m;
    }

    /** `for k, v := range from { m[k] = v }`, in whatever order the range runs. */
    method Assign(from: map<string, string>)
      modifies this
      ensures entries == old(entries) + from
    {
      var pending := from.Keys;
      while pending != {}
        invariant pending <= from.Keys
        invariant entries == old(entries) + map k | k in from && k !in pending :: from[k]
      {
        var k :| k in pending;
        entries := entries[k := from[k]];
        pending := pending - {k};
      }
      assert from == map k | k in from && k !in pending :: from[k];
    }

    /** `for k := range m { if !keep(k) { delete(m, k) } }`, in whatever order the range runs. */
    method KeepOnly(keep: string -> bool)
      modifies this
      ensures entries == map k | k in old(entries) && keep(k) :: old(entries)[k]
    {
      var pending := entries.Keys;
      while pending != {}
        invariant pending <= old(entries).Keys
        invariant entries == map k | k in old(entries) && (k in pending || keep(k)) :: old(entries)[k]
      {
        var key :| key in pending;
        pending := pending - {key};
        if !keep(key) {
          entries := entries - {key};
        }
      }
    }
  }

  function MapValue(m: GoMap?): StringMap
    reads m
  {
    if m == null then NilMap else Map(m.entries)
  }

  method NewMap(m: StringMap) returns (r: GoMap?)
    ensures MapValue(r) == m && (r != null ==> fresh(r))
  {
    r := null;
    if m.Map? {
      r := new GoMap(m.entries);
    }
  }

  class LiveMeta {
    var labels: GoMap?
    var annotations: GoMap?
    const owner: Option<Owner>
    const rest: Opaque

    /** Labels and annotations are not the same map. */
    predicate Valid()
      reads this
    {
      labels == null || labels != annotations
    }

    constructor (m: Meta)
      ensures Valid() && Value() == m
      ensures labels != null ==> fresh(labels)
      ensures annotations != null ==> fresh(annotations)
    {
      labels, annotations, owner, rest := null, null, m.owner, m.rest;
      new;
      labels := NewMap(m.labels);
      annotations := NewMap(m.annotations);
    }

    function Value(): Meta
      reads this, labels, annotations
    {
      Meta(MapValue(labels), MapValue(annotations), owner, rest)
    }

    /** The copy shares no map with the original. */
    method DeepCopy() returns (c: LiveMeta)
      ensures fresh(c) && c.Valid() && c.Value() == Value()
      ensures c.labels != null ==> fresh(c.labels)
      ensures c.annotations != null ==> fresh(c.annotations)
    {
      c := new LiveMeta(Value());
    }

    method SetRolloutsLabelsAndAnnotations()
      modifies this
      ensures Valid() && fresh(labels) && fresh(annotations)
      ensures Value() == old(Value()).(labels := Map(STANDARD_LABELS), annotations := Map(map[]))
    {
      labels := new GoMap(map[]);
      annotations := new GoMap(map[]);
      labels.entries := labels.entries[NAME_LABEL := RESOURCE_NAME];
      labels.entries := labels.entries[PART_OF_LABEL := RESOURCE_NAME];
      labels.entries := labels.entries[COMPONENT_LABEL := RESOURCE_NAME];
    }

    method SetAdditionalLabelsAndAnnotations(spec: Spec)
      requires Valid()
      modifies this, labels, annotations
      ensures Valid()
      ensures labels == old(labels) || fresh(labels)
      ensures annotations == old(annotations) || fresh(annotations)
      ensures Value() == if spec.additionalMetadata.None? then old(Value())
                         else old(Value()).(
                           labels := Map(old(Value()).labels.Content() + spec.ExtraLabels()),
                           annotations := Map(old(Value()).annotations.Content() + spec.ExtraAnnotations()))
    {
      if spec.additionalMetadata.Some? {
        if labels == null {
          labels := new GoMap(map[]);
        }
        if annotations == null {
          annotations := new GoMap(map[]);
        }
        labels.Assign(spec.additionalMetadata.value.labels.Content());
        annotations.Assign(spec.additionalMetadata.value.annotations.Content());
      }
    }

    method SetDefaults(spec: Spec)
      modifies this
      ensures Valid() && fresh(labels) && fresh(annotations)
      ensures Value() == old(Value()).(labels := Map(DefaultLabels(spec)), annotations := Map(spec.ExtraAnnotations()))
    {
      SetRolloutsLabelsAndAnnotations();
      SetAdditionalLabelsAndAnnotations(spec);
      assert map[] + spec.ExtraAnnotations() == spec.ExtraAnnotations();
      assert STANDARD_LABELS + map[] == STANDARD_LABELS;
    }

    method SetCustomLabels(custom: StringMap)
      requires Valid()
      modifies this, labels
      ensures Valid()
      ensures Value() == old(Value()).(labels := MergeMaps(old(Value()).labels, custom))
    {
      if labels == null {
        labels := new GoMap(map[]);
      }
      labels.Assign(custom.Content());
    }

    /** Drops the labels and annotations that the operator does not manage, out of the very maps. */
    method RemoveUserLabelsAndAnnotations(spec: Spec)
      requires Valid()
      modifies labels, annotations
      ensures Value() == old(Value()).(labels := ComparedLabels(old(Value()).labels, spec),
                                       annotations := ComparedAnnotations(old(Value()).annotations, spec))
    {
      var defaults := DefaultsOf(spec);
      ghost var live := Value();
      if labels != null {
        labels.KeepOnly(k => IsAggregateLabel(k) || k in defaults.labels.Content());
      }
      assert MapValue(labels) == ComparedLabels(live.labels, spec);
      if annotations != null {
        annotations.KeepOnly(k => k in defaults.annotations.Content());
      }
      assert MapValue(annotations) == ComparedAnnotations(live.annotations, spec);
    }

    /** Whether the compared part differs from what is expected; it is a copy that is normalised,
        and nothing that existed before is changed. */
    method Differs(expected: Meta, spec: Spec) returns (differs: bool)
      requires Valid()
      ensures differs == !MetaMatches(Value(), expected, spec)
    {
      var normalized := DeepCopy();
      normalized.RemoveUserLabelsAndAnnotations(spec);
      var n := normalized.Value();
      differs := !AreStringMapsEqual(n.labels, expected.labels) ||
                 !AreStringMapsEqual(n.annotations, expected.annotations);
    }

    /** One metadata pass: merge when a difference is found.  Nothing but the references of this
        object changes: the live maps themselves keep every entry. */
    method MergeExpected(expected: Meta, spec: Spec) returns (changed: bool)
      requires Valid()
      modifies this
      ensures Valid() && Value() == MergedMeta(old(Value()), expected, spec)
      ensures changed == !MetaMatches(old(Value()), expected, spec)
    {
      changed := Differs(expected, spec);
      if changed {
        var live := Value();
        var l := CombineStringMaps(Slice([live.labels, expected.labels]));
        var a := CombineStringMaps(Slice([live.annotations, expected.annotations]));
        CombinedPair(live.labels, expected.labels);
        CombinedPair(live.annotations, expected.annotations);
        labels := NewMap(l);
        annotations := NewMap(a);
      }
    }
  }

  /** An empty object with the default labels and annotations. */
  method DefaultsOf(spec: Spec) returns (m: Meta)
    ensures m == DefaultMeta(spec)
  {
    var defaults := new LiveMeta(BARE_META);
    defaults.SetDefaults(spec);
    m := defaults.Value();
  }

  lemma CombinedPair(a: StringMap, b: StringMap)
    ensures Combined([a, b]) == a.Content() + b.Content()
  {
    assert [a, b][..1] == [a];
    assert [a][..0] == [];
    assert Combined([a]) == map[] + a.Content() == a.Content();
  }
}
