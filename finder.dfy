/**
 * Model lookup by name (model_bakery/baker.py, class ModelFinder and
 * `get_model`). The framework's app registry `apps.all_models` is given as a
 * sequence of apps, each with its models keyed by lower-case model name;
 * a model class is named by an identity.
 */
module ModelFinder {
  import opened Values
  import opened Text

  /** One entry of the app registry: an app label and its models by lower-case name. */
  datatype App = App(appLabel: string, models: map<string, nat>)

  datatype FinderError =
    | ModelNotFound(name: string)
    | AmbiguousModelName(name: string)
      // `app_label, model_name = name.split(".")` with more than one dot
    | UnpackError(name: string)

  /** The number of apps that define a model called `name`. */
  function AppCount(apps: seq<App>, name: string): nat
  {
    if apps == [] then 0
    else AppCount(apps[..|apps| - 1], name) + (if name in apps[|apps| - 1].models then 1 else 0)
  }

  /** The index `_populate` builds, stated as what it means. */
  ghost predicate IsIndexOf(apps: seq<App>, unique: map<string, nat>, ambiguous: seq<string>)
  {
    && (forall name :: name in unique <==> AppCount(apps, name) == 1)
    && (forall name :: name in ambiguous <==> AppCount(apps, name) >= 2)
    && (forall name, j :: name in unique && 0 <= j < |apps| && name in apps[j].models ==>
          unique[name] == apps[j].models[name])
  }

  /**
   * The two locals of `ModelFinder._populate`: a name goes into `unique` the
   * first time it is seen and into `ambiguous` every later time; afterwards
   * every ambiguous name is popped from `unique`.
   */
  method BuildIndex(apps: seq<App>) returns (unique: map<string, nat>, ambiguous: seq<string>)
    ensures forall name :: name in unique <==> AppCount(apps, name) == 1
    ensures forall name :: name in ambiguous <==> AppCount(apps, name) >= 2
    ensures forall name, j :: name in unique && 0 <= j < |apps| && name in apps[j].models ==>
              unique[name] == apps[j].models[name]
  {
    var seen: map<string, nat> := map[];
    ambiguous := [];
    var i := 0;
    while i < |apps|
      invariant 0 <= i <= |apps|
      invariant forall name :: name in seen <==> AppCount(apps[..i], name) >= 1
      invariant forall name :: name in ambiguous <==> AppCount(apps[..i], name) >= 2
      invariant forall name, j :: 0 <= j < i && name in apps[j].models && AppCount(apps[..i], name) == 1 ==>
                  name in seen && seen[name] == apps[j].models[name]
    {
      AppCountStep(apps, i);
      AppCountMembers(apps[..i]);
      assert forall j :: 0 <= j < i ==> apps[..i][j] == apps[j];
      seen, ambiguous := AddApp(seen, ambiguous, apps[i].models);
      i := i + 1;
    }
    assert apps[..|apps|] == apps;
    unique := seen;
    var k := 0;
    while k < |ambiguous|
      invariant 0 <= k <= |ambiguous|
      invariant forall name :: name in unique <==> name in seen && name !in ambiguous[..k]
      invariant forall name :: name in unique ==> unique[name] == seen[name]
    {
      assert ambiguous[..k + 1] == ambiguous[..k] + [ambiguous[k]];
      unique := unique - {ambiguous[k]};
      k := k + 1;
    }
    assert ambiguous[..k] == ambiguous;
  }

  /** The inner loop of `_populate` over one app's models. */
  method AddApp(seen: map<string, nat>, ambiguous: seq<string>, models: map<string, nat>)
    returns (seen': map<string, nat>, ambiguous': seq<string>)
    ensures forall name :: name in seen' <==> name in seen || name in models
    ensures forall name :: name in ambiguous' <==> name in ambiguous || (name in models && name in seen)
    ensures forall name :: name in seen ==> seen'[name] == seen[name]
    ensures forall name :: name in models && name !in seen ==> seen'[name] == models[name]
  {
    seen', ambiguous' := seen, ambiguous;
    var rest := models.Keys;
    while rest != {}
      invariant rest <= models.Keys
      invariant forall name :: name in seen' <==> name in seen || (name in models && name !in rest)
      invariant forall name :: name in ambiguous' <==>
                  name in ambiguous || (name in models && name !in rest && name in seen)
      invariant forall name :: name in seen ==> seen'[name] == seen[name]
      invariant forall name :: name in models && name !in rest && name !in seen ==> seen'[name] == models[name]
      decreases rest
    {
      var name :| name in rest;
      if name !in seen' {
        seen' := seen'[name := models[name]];
      } else {
        ambiguous' := ambiguous' + [name];
      }
      rest := rest - {name};
    }
  }

  /** `apps.get_model(app_label, model_name)`: `None` stands for LookupError. */
  function LookupQualified(apps: seq<App>, appLabel: string, modelName: string): (r: Option<nat>)
    decreases |apps|, 1
    ensures r.Some? ==> exists j :: 0 <= j < |apps| && apps[j].appLabel == appLabel && Lower(modelName) in apps[j].models
                                  && apps[j].models[Lower(modelName)] == r.value
    ensures r.None? ==> forall j :: 0 <= j < |apps| && apps[j].appLabel == appLabel ==> Lower(modelName) !in apps[j].models
  {
    if apps == [] then None
    else if apps[0].appLabel == appLabel then
      (if Lower(modelName) in apps[0].models then Some(apps[0].models[Lower(modelName)])
       else LookupQualifiedRest(apps, appLabel, modelName))
    else LookupQualifiedRest(apps, appLabel, modelName)
  }

  function LookupQualifiedRest(apps: seq<App>, appLabel: string, modelName: string): (r: Option<nat>)
    requires apps != []
    requires apps[0].appLabel == appLabel ==> Lower(modelName) !in apps[0].models
    ensures r.Some? ==> exists j :: 0 <= j < |apps| && apps[j].appLabel == appLabel && Lower(modelName) in apps[j].models
                                  && apps[j].models[Lower(modelName)] == r.value
    ensures r.None? ==> forall j :: 0 <= j < |apps| && apps[j].appLabel == appLabel ==> Lower(modelName) !in apps[j].models
    decreases |apps|, 0
  {
    var r := LookupQualified(apps[1..], appLabel, modelName);
    assert forall j :: 1 <= j < |apps| ==> apps[j] == apps[1..][j - 1];
    r
  }

  /** The shared finder: the index is built on first use and kept afterwards. */
  class Finder {
    const apps: seq<App>
    var unique: Option<map<string, nat>>
    var ambiguous: Option<seq<string>>

    ghost predicate Valid()
      reads this
    {
      unique.Some? == ambiguous.Some? &&
      (unique.Some? ==> IsIndexOf(apps, unique.value, ambiguous.value))
    }

    constructor (apps: seq<App>)
      ensures Valid() && this.apps == apps
      ensures unique == None && ambiguous == None
    {
      this.apps := apps;
      unique := None;
      ambiguous := None;
    }

    /** `_populate`: build the index and store it. */
    method Populate()
      requires Valid()
      modifies this
      ensures Valid() && unique.Some?
    {
      var u, a := BuildIndex(apps);
      ambiguous := Some(a);
      unique := Some(u);
    }

    /**
     * `get_model_by_name`: the name is lower-cased; a name defined by two or
     * more apps raises AmbiguousModelName, one defined by no app gives None.
     */
    method GetModelByName(name: string) returns (r: Result<Option<nat>, FinderError>)
      requires Valid()
      modifies this
      ensures Valid() && unique.Some?
      ensures old(unique).Some? ==> unique == old(unique) && ambiguous == old(ambiguous)
      ensures r.Err? <==> AppCount(apps, Lower(name)) >= 2
      ensures r.Err? ==> r.error == AmbiguousModelName(Lower(name))
      ensures r == Ok(None) <==> AppCount(apps, Lower(name)) == 0
      ensures r.Ok? && r.value.Some? ==>
                AppCount(apps, Lower(name)) == 1 &&
                exists j :: 0 <= j < |apps| && Lower(name) in apps[j].models && apps[j].models[Lower(name)] == r.value.value
    {
      var n := Lower(name);
      if unique.None? || ambiguous.None? {
        Populate();
      }
      if n in ambiguous.value {
        return Err(AmbiguousModelName(n));
      }
      if n in unique.value {
        AppCountWitness(apps, n);
        return Ok(Some(unique.value[n]));
      }
      return Ok(None);
    }

    /**
     * `get_model`: "app.model" is looked up in that app; a bare name goes
     * through `GetModelByName`; a name not found raises ModelNotFound.
     */
    method GetModel(name: string) returns (r: Result<nat, FinderError>)
      requires Valid()
      modifies this
      ensures Valid()
      ensures '.' in name && |Split(name, '.')| != 2 ==> r == Err(UnpackError(name))
      ensures '.' in name && |Split(name, '.')| == 2 ==>
                var parts := Split(name, '.');
                r == match LookupQualified(apps, parts[0], parts[1])
                     case Some(m) => Ok(m)
                     case None => Err(ModelNotFound(name))
      ensures '.' !in name ==>
                && (r == Err(AmbiguousModelName(Lower(name))) <==> AppCount(apps, Lower(name)) >= 2)
                && (r == Err(ModelNotFound(name)) <==> AppCount(apps, Lower(name)) == 0)
                && (r.Ok? <==> AppCount(apps, Lower(name)) == 1)
      ensures '.' !in name && r.Ok? ==>
                exists j :: 0 <= j < |apps| && Lower(name) in apps[j].models && apps[j].models[Lower(name)] == r.value
    {
      if '.' in name {
        var parts := Split(name, '.');
        if |parts| != 2 {
          return Err(UnpackError(name));
        }
        var m := LookupQualified(apps, parts[0], parts[1]);
        if m.None? {
          return Err(ModelNotFound(name));
        }
        return Ok(m.value);
      }
      var found := GetModelByName(name);
      match found {
        case Err(e) => r := Err(e);
        case Ok(None) => r := Err(ModelNotFound(name));
        case Ok(Some(m)) => r := Ok(m);
      }
    }
  }

  /** Counting over one more app. */
  lemma AppCountStep(apps: seq<App>, i: nat)
    requires i < |apps|
    ensures forall name :: AppCount(apps[..i + 1], name) ==
              AppCount(apps[..i], name) + (if name in apps[i].models then 1 else 0)
  {
    assert apps[..i + 1][..i] == apps[..i];
  }

  lemma AppCountMembers(apps: seq<App>)
    ensures forall name, j :: 0 <= j < |apps| && name in apps[j].models ==> AppCount(apps, name) >= 1
  {
    forall name, j | 0 <= j < |apps| && name in apps[j].models
      ensures AppCount(apps, name) >= 1
    {
      AppCountMember(apps, j, name);
    }
  }

  /** A name defined by some app is counted. */
  lemma {:induction false} AppCountMember(apps: seq<App>, j: nat, name: string)
    requires j < |apps| && name in apps[j].models
    ensures AppCount(apps, name) >= 1
  {
    var last := |apps| - 1;
    if j < last {
      assert apps[..last][j] == apps[j];
      AppCountMember(apps[..last], j, name);
    }
  }

  /** A name counted in some app is defined by one of them. */
  lemma {:induction false} AppCountWitness(apps: seq<App>, name: string)
    requires AppCount(apps, name) >= 1
    ensures exists j :: 0 <= j < |apps| && name in apps[j].models
  {
    var last := |apps| - 1;
    if name !in apps[last].models {
      AppCountWitness(apps[..last], name);
      var j :| 0 <= j < last && name in apps[..last][j].models;
      assert apps[j] == apps[..last][j];
    }
  }
}
