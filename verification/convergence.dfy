/** The Deployment: one reconcile makes it normal, and exactly when the next one still writes. */
module Convergence {
  import opened GoTypes
  import opened RolloutManagers
  import opened Metadata
  import opened Environment
  import opened Deployments
  import opened Cluster
  import opened Operator
  import opened Settling

  /** A Deployment that carries everything the operator asks for. */
  predicate Carries(e: Deployment, d: Deployment) {
    var has, want := e.spec.template.pod, d.spec.template.pod;
    e.spec.strategy == d.spec.strategy && e.spec.replicas == d.spec.replicas && e.spec.selector == d.spec.selector &&
    e.spec.template.labels == d.spec.template.labels && e.spec.template.annotations == d.spec.template.annotations &&
    has.containers == want.containers && has.serviceAccount == want.serviceAccount && has.affinity == want.affinity &&
    has.nodeSelector == want.nodeSelector && has.tolerations == want.tolerations && has.security == want.security &&
    has.volumes == want.volumes &&
    e.meta.labels.Content() == e.meta.labels.Content() + d.meta.labels.Content() &&
    e.meta.annotations.Content() == e.meta.annotations.Content() + d.meta.annotations.Content()
  }

  /** A container as it reads back: the server completed its sources and resources. */
  function ReadContainer(k: Container): Container {
    k.(env := Slice(StoredVars(k.env.Elems())), resources := InStore(k.resources))
  }

  /** The desired Deployment as it reads back: an empty annotation map or toleration list is
      gone, and the container is completed. */
  function ReadBack(e: Deployment, d: Deployment): Deployment {
    d.(meta := d.meta.(annotations := if e.meta.annotations.Content() == map[] then NilMap else d.meta.annotations),
       spec := d.spec.(template := d.spec.template.(pod := d.spec.template.pod.(
         tolerations := OmitEmptySlice(d.spec.template.pod.tolerations),
         containers := seq(|d.spec.template.pod.containers|, i requires 0 <= i < |d.spec.template.pod.containers| =>
                             ReadContainer(d.spec.template.pod.containers[i]))))))
  }

  lemma RestrictedToExpected(e: StringMap, expected: map<string, string>)
    requires e.Content() == e.Content() + expected
    ensures Restrict(OmitEmpty(e), expected.Keys) == if e.Content() == map[] then NilMap else Map(expected)
  {
    assert forall k | k in expected :: (e.Content() + expected)[k] == expected[k];
  }

  lemma StoredContainerIsNormal(c: Config, spec: Spec)
    requires Desired(c, spec).Ok?
    ensures NormalContainer(StoredContainer(RolloutsContainer(c, spec).value)) ==
            Ok(ReadContainer(RolloutsContainer(c, spec).value))
  {
    var k := RolloutsContainer(c, spec).value;
    assert StoredContainer(k).ports[0].(rest := UNSET) == k.ports[0];
    assert StoredContainer(k).ports[1].(rest := UNSET) == k.ports[1];
  }

  /** Whatever else the live object holds, its normal form is the desired Deployment as it reads back. */
  lemma StoredIsNormal(c: Config, spec: Spec, e: Deployment, d: Deployment)
    requires Desired(c, spec) == Ok(d) && Carries(e, d)
    ensures Normalize(StoredDeployment(e), spec) == Ok(ReadBack(e, d))
  {
    var s := StoredDeployment(e);
    RestrictedToExpected(e.meta.labels, DefaultLabels(spec));
    assert NAME_LABEL in DefaultLabels(spec);
    assert NAME_LABEL in e.meta.labels.Content();
    RestrictedToExpected(e.meta.annotations, spec.ExtraAnnotations());
    StoredContainerIsNormal(c, spec);
    assert s.spec.template.pod.containers == [StoredContainer(d.spec.template.pod.containers[0])];
    assert ReadBack(e, d).spec.template.pod.containers == [ReadContainer(d.spec.template.pod.containers[0])];
    assert NAME_LABEL in PodLabels(spec);
    var os := "kubernetes.io/os";
    assert os in DesiredNodeSelector(spec);
  }

  /** Overwriting what is already carried stores the same object again. */
  lemma OverwriteIsStable(e: Deployment, d: Deployment)
    requires Carries(e, d)
    ensures StoredDeployment(Overwritten(StoredDeployment(e), d)) == StoredDeployment(e)
  {
    var s := StoredDeployment(e);
    var o := Overwritten(s, d);
    StoredByContent(o.meta, e.meta);
    assert StoredPod(o.spec.template.pod) == StoredPod(e.spec.template.pod);
  }

  lemma OverwrittenCarries(live: Deployment, d: Deployment)
    ensures Carries(Overwritten(live, d), d)
  {
    OverrideTwice(live.meta.labels.Content(), d.meta.labels.Content());
    OverrideTwice(live.meta.annotations.Content(), d.meta.annotations.Content());
  }

  lemma OwnedCarries(r: Request, d: Deployment)
    ensures Carries(d.(meta := d.meta.(owner := Some(Owner(true, r.name)))), d)
  {
    OverrideTwice(map[], d.meta.labels.Content());
    OverrideTwice(map[], d.meta.annotations.Content());
  }

  lemma ReadBackDiffers(c: Config, spec: Spec, e: Deployment, d: Deployment)
    requires Desired(c, spec) == Ok(d)
    ensures ReadBack(e, d) != d <==>
            e.meta.annotations.Content() == map[] || DesiredTolerations(spec) == Slice([]) || ServerCompletes(c, spec)
    ensures ReadBack(e, d).spec.selector == d.spec.selector
  {
    assert ReadBack(e, d).meta.annotations == d.meta.annotations <==> e.meta.annotations.Content() != map[];
    assert ReadBack(e, d).spec.template.pod.tolerations == d.spec.template.pod.tolerations <==>
           DesiredTolerations(spec) != Slice([]);
    ReadContainerDiffers(c, spec);
    assert ReadBack(e, d).spec.template.pod.containers[0] == ReadContainer(d.spec.template.pod.containers[0]);
    if e.meta.annotations.Content() != map[] && DesiredTolerations(spec) != Slice([]) && !ServerCompletes(c, spec) {
      assert ReadBack(e, d).spec.template.pod.containers == d.spec.template.pod.containers;
      assert ReadBack(e, d).spec.template.pod == d.spec.template.pod;
    }
  }

  lemma ReadContainerDiffers(c: Config, spec: Spec)
    requires RolloutsContainer(c, spec).Ok?
    ensures ReadContainer(RolloutsContainer(c, spec).value) != RolloutsContainer(c, spec).value
            <==> ServerCompletes(c, spec)
  {
    var env := EnvMerged(spec.env, c.proxyEnv, false);
    if exists e | e in env :: e.item.valueFrom.AsSent? {
      var i :| 0 <= i < |env| && env[i].item.valueFrom.AsSent?;
      assert StoredVars(env)[i] != env[i];
    } else {
      assert StoredVars(env) == env;
    }
  }

  /** Once written, the Deployment is settled; it still differs from the desired one exactly
      when it has no annotation at all, or the CR lists tolerations and lists none, or the
      server completes what the CR gives. */
  lemma WrittenSettles(c: Config, spec: Spec, e: Deployment, d: Deployment, s: Deployment)
    requires Desired(c, spec) == Ok(d) && Carries(e, d) && s == StoredDeployment(e)
    ensures DeploymentSettled(AsObj(s), d, spec)
    ensures DeploymentDiffers(AsObj(s), d, spec) <==>
            e.meta.annotations.Content() == map[] || DesiredTolerations(spec) == Slice([]) || ServerCompletes(c, spec)
  {
    var n := NormalizedOnce(c, spec, e, d, s);
    DesiredIsNormal(c, spec);
    SettledByNormalForm(s, d, spec, n);
  }

  lemma NormalizedOnce(c: Config, spec: Spec, e: Deployment, d: Deployment, s: Deployment) returns (n: Deployment)
    requires Desired(c, spec) == Ok(d) && Carries(e, d) && s == StoredDeployment(e)
    ensures Normalize(s, spec) == Ok(n) && n.spec.selector == d.spec.selector
    ensures n != d <==>
            e.meta.annotations.Content() == map[] || DesiredTolerations(spec) == Slice([]) || ServerCompletes(c, spec)
    ensures StoredDeployment(Overwritten(s, d)) == s
  {
    n := ReadBack(e, d);
    StoredIsNormal(c, spec, e, d);
    ReadBackDiffers(c, spec, e, d);
    OverwriteIsStable(e, d);
  }

  lemma SettledByNormalForm(s: Deployment, d: Deployment, spec: Spec, n: Deployment)
    requires Normalize(s, spec) == Ok(n) && Normalize(d, spec) == Ok(d)
    requires n.spec.selector == d.spec.selector && StoredDeployment(Overwritten(s, d)) == s
    ensures DeploymentSettled(AsObj(s), d, spec)
    ensures DeploymentDiffers(AsObj(s), d, spec) <==> n != d
  {
    assert AsDeployment(AsObj(s)) == s;
    assert Stored(AsObj(Overwritten(s, d))) == AsObj(s);
  }

  // ----- The stage -----

  lemma StoredAsObj(e: Deployment)
    ensures Stored(AsObj(e)) == AsObj(StoredDeployment(e))
  {
  }

  /** The live Deployment is one the operator just wrote. */
  predicate Written(c: Config, r: Request, spec: Spec, d: Deployment, v: World) {
    match v.Lookup(KeyOf(r, DeploymentStage))
    case None => false
    case Some(live) =>
      DeploymentSettled(live, d, spec) &&
      (DeploymentDiffers(live, d, spec) <==>
        live.meta.annotations.Content() == map[] || DesiredTolerations(spec) == Slice([]) || ServerCompletes(c, spec))
  }

  lemma PutLands(c: Config, w: World, r: Request, spec: Spec, e: Deployment, d: Deployment)
    requires Desired(c, spec) == Ok(d) && Carries(e, d)
    ensures Written(c, r, spec, d, SetObject(w, KeyOf(r, DeploymentStage), Some(Stored(AsObj(e))), true))
    ensures Within(w, SetObject(w, KeyOf(r, DeploymentStage), Some(Stored(AsObj(e))), true),
                   {KeyOf(r, DeploymentStage)})
  {
    WrittenSettles(c, spec, e, d, StoredDeployment(e));
    StoredAsObj(e);
  }

  lemma CreateDeploymentLands(c: Config, w: World, r: Request, spec: Spec, d: Deployment)
    requires w.Quiet() && KeyOf(r, DeploymentStage) !in w.objs && Desired(c, spec) == Ok(d)
    ensures var (v, o) := CreateDeployment(w, r, d);
            o == Done && Within(w, v, {KeyOf(r, DeploymentStage)}) && Written(c, r, spec, d, v)
  {
    var owned := d.(meta := d.meta.(owner := Some(Owner(true, r.name))));
    OwnedCarries(r, d);
    PutLands(c, w, r, spec, owned, d);
  }

  /** The server lets the operator's fields of the live Deployment be overwritten. */
  predicate Overwritable(r: Request, live: Obj, d: Deployment) {
    !ChangesSelector(KeyOf(r, DeploymentStage), live, AsObj(Overwritten(AsDeployment(live), d)))
  }

  lemma OverwritableBySelectors(r: Request, live: Obj, d: Deployment)
    requires live.body.DeploymentBody? && live.body.spec.selector.Some? && d.spec.selector.Some?
    ensures Overwritable(r, live, d) <==>
            StoredSelector(live.body.spec.selector.value) == StoredSelector(d.spec.selector.value)
  {
    assert SelectorOf(Stored(live)) == Some(StoredSelector(live.body.spec.selector.value));
    assert SelectorOf(Stored(AsObj(Overwritten(AsDeployment(live), d)))) == Some(StoredSelector(d.spec.selector.value));
  }

  lemma SelectorsAlike(live: Obj, d: Deployment, spec: Spec)
    requires NormalOrEmpty(AsDeployment(live), spec).spec.selector == d.spec.selector && d.spec.selector.Some?
    ensures live.body.DeploymentBody? && live.body.spec.selector.Some?
    ensures StoredSelector(live.body.spec.selector.value).matchLabels ==
            StoredSelector(d.spec.selector.value).matchLabels
    ensures d.spec.selector.value.matchExpressions == UNSET
  {
  }

  lemma DesiredSelector(c: Config, spec: Spec, live: Obj, d: Deployment)
    requires Desired(c, spec) == Ok(d) && !SelectorsDiffer(live, d, spec)
    ensures NormalOrEmpty(AsDeployment(live), spec).spec.selector == d.spec.selector && d.spec.selector.Some?
  {
    DesiredIsNormal(c, spec);
  }

  /** A live Deployment with the same labels to select can be overwritten exactly when its
      selector has no expressions. */
  lemma RefusedExactly(c: Config, r: Request, spec: Spec, live: Obj, d: Deployment)
    requires Desired(c, spec) == Ok(d) && !SelectorsDiffer(live, d, spec)
    ensures Overwritable(r, live, d) <==> !HasExpressions(live)
  {
    DesiredSelector(c, spec, live, d);
    SelectorsAlike(live, d, spec);
    OverwritableBySelectors(r, live, d);
  }

  lemma FixByUpdate(w: World, r: Request, live: Obj, d: Deployment, have: Deployment, want: Deployment)
    requires w.Quiet() && w.Lookup(KeyOf(r, DeploymentStage)) == Some(live) && have.spec.selector == want.spec.selector
    ensures FixDeployment(w, r, live, d, have, want) ==
            if Overwritable(r, live, d) then
              (SetObject(w, KeyOf(r, DeploymentStage), Some(Stored(AsObj(Overwritten(AsDeployment(live), d)))), true),
               Done)
            else (w, Failed(ApiCause(Invalid)))
  {
  }

  lemma FixDeploymentLands(c: Config, w: World, r: Request, spec: Spec, live: Obj, d: Deployment, have: Deployment,
                           want: Deployment)
    requires w.Quiet() && w.Lookup(KeyOf(r, DeploymentStage)) == Some(live) && Desired(c, spec) == Ok(d)
    requires have.spec.selector != want.spec.selector || Overwritable(r, live, d)
    ensures var (v, o) := FixDeployment(w, r, live, d, have, want);
            o == Done && Within(w, v, {KeyOf(r, DeploymentStage)}) && Written(c, r, spec, d, v)
  {
    if have.spec.selector != want.spec.selector {
      CreateDeploymentLands(c, SetObject(w, KeyOf(r, DeploymentStage), None, true), r, spec, d);
    } else {
      FixByUpdate(w, r, live, d, have, want);
      OverwrittenCarries(AsDeployment(live), d);
      PutLands(c, w, r, spec, Overwritten(AsDeployment(live), d), d);
    }
  }

  lemma FixConverges(c: Config, w: World, r: Request, spec: Spec, live: Obj, d: Deployment,
                     have: Deployment, want: Deployment, recreated: bool)
    requires w.Quiet() && w.Lookup(KeyOf(r, DeploymentStage)) == Some(live) && Desired(c, spec) == Ok(d)
    requires recreated <==> have.spec.selector != want.spec.selector
    ensures var (v, o) := FixDeployment(w, r, live, d, have, want);
            if recreated || Overwritable(r, live, d) then
              o == Done && Within(w, v, {KeyOf(r, DeploymentStage)}) && Written(c, r, spec, d, v)
            else v == w && o == Failed(ApiCause(Invalid))
  {
    if recreated || Overwritable(r, live, d) {
      FixDeploymentLands(c, w, r, spec, live, d, have, want);
    } else {
      FixByUpdate(w, r, live, d, have, want);
    }
  }

  /** A live Deployment that differs, by whether it is recreated. */
  lemma DriveConverges(c: Config, w: World, r: Request, spec: Spec, live: Obj, d: Deployment)
    requires w.Quiet() && w.Lookup(KeyOf(r, DeploymentStage)) == Some(live) && Desired(c, spec) == Ok(d)
    requires DeploymentDiffers(live, d, spec)
    ensures var (v, o) := DriveDeployment(w, r, spec, d);
            if SelectorsDiffer(live, d, spec) || Overwritable(r, live, d) then
              o == Done && Within(w, v, {KeyOf(r, DeploymentStage)}) && Written(c, r, spec, d, v)
            else v == w && o == Failed(ApiCause(Invalid))
  {
    FixConverges(c, w, r, spec, live, d, NormalOrEmpty(AsDeployment(live), spec), NormalOrEmpty(d, spec),
                 SelectorsDiffer(live, d, spec));
  }

  lemma RefusedIfDiffers(c: Config, r: Request, spec: Spec, live: Obj, d: Deployment)
    requires Desired(c, spec) == Ok(d) && DeploymentDiffers(live, d, spec)
    ensures SelectorsDiffer(live, d, spec) ==> !UpdateRefused(live, d, spec)
    ensures !SelectorsDiffer(live, d, spec) ==> (UpdateRefused(live, d, spec) <==> !Overwritable(r, live, d))
  {
    if !SelectorsDiffer(live, d, spec) {
      RefusedExactly(c, r, spec, live, d);
    }
  }

  lemma DriveAbsent(c: Config, w: World, r: Request, spec: Spec, d: Deployment)
    requires w.Quiet() && KeyOf(r, DeploymentStage) !in w.objs && Desired(c, spec) == Ok(d)
    ensures var (v, o) := DriveDeployment(w, r, spec, d);
            o == Done && Within(w, v, {KeyOf(r, DeploymentStage)}) && Written(c, r, spec, d, v)
  {
    CreateDeploymentLands(c, w, r, spec, d);
  }

  /** What a quiet run of the stage comes to. */
  ghost predicate Converged(c: Config, r: Request, spec: Spec, d: Deployment, w: World, v: World, o: Outcome) {
    var live := w.Lookup(KeyOf(r, DeploymentStage));
    if live.Some? && UpdateRefused(live.value, d, spec) then v == w && o == Failed(ApiCause(Invalid))
    else o == Done && Within(w, v, {KeyOf(r, DeploymentStage)}) && WorkloadSettled(c, r, spec, v.objs) &&
         (if live.Some? && !DeploymentDiffers(live.value, d, spec) then v == w else Written(c, r, spec, d, v))
  }

  /** From any live Deployment or none, even one without a normal form, a quiet run of the stage
      either finds its update refused and changes nothing, or succeeds and settles it; after a
      write the next run writes again exactly in the three cases named. */
  lemma DeploymentConverges(c: Config, w: World, r: Request, spec: Spec, d: Deployment)
    requires w.Quiet() && Desired(c, spec) == Ok(d)
    ensures Converged(c, r, spec, d, w, RunDeployment(c, w, r, spec).0, RunDeployment(c, w, r, spec).1)
  {
    assert RunDeployment(c, w, r, spec) == DriveDeployment(w, r, spec, d);
    var k := KeyOf(r, DeploymentStage);
    if k !in w.objs {
      DriveAbsent(c, w, r, spec, d);
    } else if DeploymentDiffers(w.objs[k], d, spec) {
      DriveConverges(c, w, r, spec, w.objs[k], d);
      RefusedIfDiffers(c, r, spec, w.objs[k], d);
    }
  }

  /** The desired Deployment but for its strategy, with expressions in its selector. */
  function WithExpressions(d: Deployment, expressions: Opaque): Deployment
    requires d.spec.selector.Some?
  {
    d.(spec := d.spec.(strategy := Strategy("Recreate", UNSET),
                       selector := Some(d.spec.selector.value.(matchExpressions := expressions))))
  }

  /** With it live, every run of the stage fails and changes nothing. */
  lemma ExpressionsBlock(c: Config, w: World, r: Request, spec: Spec, d: Deployment, expressions: Opaque)
    requires w.Quiet() && Desired(c, spec) == Ok(d) && expressions != UNSET
    ensures var u := w.(objs := w.objs[KeyOf(r, DeploymentStage) := AsObj(WithExpressions(d, expressions))]);
            RunDeployment(c, u, r, spec) == (u, Failed(ApiCause(Invalid)))
  {
    var live := WithExpressions(d, expressions);
    var u := w.(objs := w.objs[KeyOf(r, DeploymentStage) := AsObj(live)]);
    ExpressionsAreRefused(c, spec, d, expressions);
    assert AsDeployment(AsObj(live)) == live;
    DeploymentConverges(c, u, r, spec, d);
  }

  lemma ExpressionsAreRefused(c: Config, spec: Spec, d: Deployment, expressions: Opaque)
    requires Desired(c, spec) == Ok(d) && expressions != UNSET
    ensures UpdateRefused(AsObj(WithExpressions(d, expressions)), d, spec)
  {
    var live := WithExpressions(d, expressions);
    DesiredIsNormal(c, spec);
    assert Normalize(live, spec) == Ok(d.(spec := d.spec.(strategy := Strategy("Recreate", UNSET))));
    assert NormalOrEmpty(d, spec) == d && AsDeployment(AsObj(live)) == live;
  }

  lemma StoredSelectorTwice(o: Obj)
    ensures SelectorOf(Stored(Stored(o))) == SelectorOf(Stored(o))
  {
  }

  lemma FixIsIdle(w: World, r: Request, live: Obj, d: Deployment, have: Deployment, want: Deployment)
    requires w.Quiet() && w.Lookup(KeyOf(r, DeploymentStage)) == Some(live)
    requires have.spec.selector == want.spec.selector && Stored(AsObj(Overwritten(AsDeployment(live), d))) == live
    ensures FixDeployment(w, r, live, d, have, want) == (w, Done)
  {
    StoredSelectorTwice(AsObj(Overwritten(AsDeployment(live), d)));
    RewriteIsIdle(w, KeyOf(r, DeploymentStage), true);
  }

  lemma DriveIsIdle(w: World, r: Request, spec: Spec, live: Obj, d: Deployment)
    requires w.Quiet() && w.Lookup(KeyOf(r, DeploymentStage)) == Some(live) && DeploymentSettled(live, d, spec)
    ensures DriveDeployment(w, r, spec, d) == (w, Done)
  {
    if DeploymentDiffers(live, d, spec) {
      FixIsIdle(w, r, live, d, NormalOrEmpty(AsDeployment(live), spec), NormalOrEmpty(d, spec));
    }
  }

  lemma DeploymentIsIdle(c: Config, w: World, r: Request, spec: Spec)
    requires w.Quiet()
    ensures WorkloadSettled(c, r, spec, w.objs) ==> RunDeployment(c, w, r, spec) == (w, Done)
  {
    if WorkloadSettled(c, r, spec, w.objs) {
      DriveIsIdle(w, r, spec, w.objs[KeyOf(r, DeploymentStage)], Desired(c, spec).value);
    }
  }
}
