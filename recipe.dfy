/**
 * Recipes (model_bakery/recipe.py): a recipe is a model plus attributes; at
 * each `make`/`prepare` its attributes are merged with the call's keyword
 * arguments by `_mapping`. Objects are never made here: a related object is
 * recorded as the plan of the `make`/`prepare` call that would build it.
 */
module Recipes {
  import opened Values
  import opened Text
  import opened Dicts
  import Baker

  /** A recipe: its model and its attributes in definition order. */
  datatype Recipe = Recipe(model: Baker.ModelRef, attrs: Dict<RecipeAttr>)

  /**
   * A recipe attribute, by the kind `_mapping` tells apart: an iterator, a
   * `RecipeForeignKey`, a `related`, a container (list, dict, string, ...)
   * or any other value.
   */
  datatype RecipeAttr =
    | IteratorAttr(items: seq<Val>)
    | ForeignKey(fk: RecipeForeignKey)
    | RelatedRecipes(rel: Related)
    | Container(c: Val)
    | Value(v: Val)

  datatype RecipeForeignKey = RecipeForeignKey(recipe: Recipe, oneToOne: Val)

  /** What a name in the calling module is bound to. */
  datatype Binding = BoundRecipe(recipe: Recipe) | BoundValue(v: Val)

  /** A `related` object: the recipes (or truthy values found by name) it makes. */
  datatype Related = Related(items: seq<Binding>)

  /** An argument of `RecipeForeignKey` or `related`. */
  datatype Arg = RecipeArg(recipe: Recipe) | NameArg(name: string) | OtherArg(v: Val)

  datatype RecipeError =
    | NotARecipe                  // TypeError("Not a recipe")
    | RecipeNotFound
    | MissingAttribute(name: string) // AttributeError from getattr on the calling module
    | QuantityNotInteger          // TypeError from range(_quantity)

  // ---------------------------------------------------------------------
  // extend

  /** `Recipe.extend`: a recipe of the same model whose attributes are the old ones updated by `attrs`. */
  function Extend(r: Recipe, attrs: Dict<RecipeAttr>): (e: Recipe)
    requires DistinctKeys(attrs)
    ensures e.model == r.model
    ensures Keys(e.attrs) == Keys(r.attrs) + Keys(attrs)
    ensures forall k :: Get(e.attrs, k) == if k in Keys(attrs) then Get(attrs, k) else Get(r.attrs, k)
    ensures DistinctKeys(r.attrs) ==> DistinctKeys(e.attrs)
  {
    assert forall k :: Get(Update(r.attrs, attrs), k) == if k in Keys(attrs) then Get(attrs, k) else Get(r.attrs, k) by {
      forall k ensures Get(Update(r.attrs, attrs), k) == if k in Keys(attrs) then Get(attrs, k) else Get(r.attrs, k) {
        UpdateGet(r.attrs, attrs, k);
      }
    }
    assert DistinctKeys(r.attrs) ==> DistinctKeys(Update(r.attrs, attrs)) by {
      if DistinctKeys(r.attrs) { UpdateDistinct(r.attrs, attrs); }
    }
    UpdateGet(r.attrs, attrs, "");
    Recipe(r.model, Update(r.attrs, attrs))
  }

  /** Extending twice is extending once with the second attributes laid over the first. */
  lemma ExtendTwice(r: Recipe, a: Dict<RecipeAttr>, b: Dict<RecipeAttr>)
    requires DistinctKeys(a) && DistinctKeys(b)
    ensures DistinctKeys(Update(a, b))
    ensures forall k :: Get(Extend(Extend(r, a), b).attrs, k) == Get(Extend(r, Update(a, b)).attrs, k)
  {
    UpdateDistinct(a, b);
    forall k ensures Get(Extend(Extend(r, a), b).attrs, k) == Get(Extend(r, Update(a, b)).attrs, k) {
      UpdateGet(a, b, k);
    }
  }

  // ---------------------------------------------------------------------
  // RecipeForeignKey and related

  /** `RecipeForeignKey.__init__`. */
  function NewRecipeForeignKey(recipe: Arg, oneToOne: Val): (r: Result<RecipeForeignKey, RecipeError>)
    ensures r.Ok? <==> recipe.RecipeArg?
    ensures r.Ok? ==> r.value == RecipeForeignKey(recipe.recipe, oneToOne)
    ensures r.Err? ==> r.error == NotARecipe
  {
    if recipe.RecipeArg? then Ok(RecipeForeignKey(recipe.recipe, oneToOne)) else Err(NotARecipe)
  }

  /**
   * One argument of `related`: a recipe is kept, a name is looked up in the
   * calling module (missing: AttributeError; falsy: RecipeNotFound), anything
   * else is refused.
   */
  function Resolve(arg: Arg, namespace: map<string, Binding>): (r: Result<Binding, RecipeError>)
    ensures arg.RecipeArg? ==> r == Ok(BoundRecipe(arg.recipe))
    ensures arg.OtherArg? ==> r == Err(NotARecipe)
    ensures arg.NameArg? && arg.name !in namespace ==> r == Err(MissingAttribute(arg.name))
    ensures arg.NameArg? && arg.name in namespace ==>
              var b := namespace[arg.name];
              (r.Err? <==> b.BoundValue? && !Truthy(b.v)) && (r.Err? ==> r.error == RecipeNotFound) && (r.Ok? ==> r.value == b)
    ensures r.Ok? ==> r.value.BoundRecipe? || Truthy(r.value.v)
  {
    match arg
    case RecipeArg(recipe) => Ok(BoundRecipe(recipe))
    case OtherArg(_) => Err(NotARecipe)
    case NameArg(name) =>
      if name !in namespace then Err(MissingAttribute(name))
      else
        match namespace[name]
        case BoundRecipe(recipe) => Ok(BoundRecipe(recipe))
        case BoundValue(v) => if Truthy(v) then Ok(BoundValue(v)) else Err(RecipeNotFound)
  }

  /** `related(*args)` as a fold over the arguments; the first refused one raises. */
  function RelatedSpec(args: seq<Arg>, namespace: map<string, Binding>): Result<seq<Binding>, RecipeError>
  {
    if args == [] then Ok([])
    else
      match RelatedSpec(args[..|args| - 1], namespace)
      case Err(e) => Err(e)
      case Ok(items) =>
        match Resolve(args[|args| - 1], namespace)
        case Err(e) => Err(e)
        case Ok(b) => Ok(items + [b])
  }

  lemma {:induction false} RelatedSpecErrSticky(args: seq<Arg>, j: nat, namespace: map<string, Binding>)
    requires j <= |args| && RelatedSpec(args[..j], namespace).Err?
    ensures RelatedSpec(args, namespace) == RelatedSpec(args[..j], namespace)
    decreases |args|
  {
    if j == |args| {
      assert args[..j] == args;
    } else {
      var init := args[..|args| - 1];
      assert init[..j] == args[..j];
      RelatedSpecErrSticky(init, j, namespace);
    }
  }

  /** `related.__init__`: append each resolved argument to `related`. */
  method NewRelated(args: seq<Arg>, namespace: map<string, Binding>) returns (r: Result<Related, RecipeError>)
    ensures RelatedSpec(args, namespace).Ok? ==> r == Ok(Related(RelatedSpec(args, namespace).value))
    ensures RelatedSpec(args, namespace).Err? ==> r == Err(RelatedSpec(args, namespace).error)
  {
    var items: seq<Binding> := [];
    var i := 0;
    while i < |args|
      invariant 0 <= i <= |args|
      invariant RelatedSpec(args[..i], namespace) == Ok(items)
    {
      assert args[..i + 1][..i] == args[..i];
      var b := Resolve(args[i], namespace);
      if b.Err? {
        RelatedSpecErrSticky(args, i + 1, namespace);
        return Err(b.error);
      }
      items := items + [b.value];
      i := i + 1;
    }
    assert args[..i] == args;
    return Ok(Related(items));
  }

  /** `related` accepts its arguments exactly when each resolves, and keeps them one for one, in order. */
  lemma {:induction false} RelatedSpecOk(args: seq<Arg>, namespace: map<string, Binding>)
    ensures RelatedSpec(args, namespace).Ok? <==> forall i :: 0 <= i < |args| ==> Resolve(args[i], namespace).Ok?
    ensures RelatedSpec(args, namespace).Ok? ==>
              |RelatedSpec(args, namespace).value| == |args| &&
              forall i :: 0 <= i < |args| ==> RelatedSpec(args, namespace).value[i] == Resolve(args[i], namespace).value
    decreases |args|
  {
    if args != [] {
      var init := args[..|args| - 1];
      RelatedSpecOk(init, namespace);
      assert forall i :: 0 <= i < |init| ==> init[i] == args[i];
    }
  }

  /** `related.make`: one result per item, in order (`make` of each item is given). */
  function RelatedMake(rel: Related, make: Binding -> Val): (results: seq<Val>)
    ensures |results| == |rel.items|
    ensures forall i :: 0 <= i < |rel.items| ==> results[i] == make(rel.items[i])
  {
    seq(|rel.items|, i requires 0 <= i < |rel.items| => make(rel.items[i]))
  }

  // ---------------------------------------------------------------------
  // make / prepare option forwarding

  /** The keyword options of `Recipe.make`; `None` is an option left at its default. */
  datatype MakeOptions = MakeOptions(
    quantity: Option<Val>,
    makeM2M: Option<Val>,
    refreshAfterCreate: Option<Val>,
    createFiles: Option<Val>,
    bulkCreate: Option<Val>,
    saveKwargs: Option<Val>)

  const MakeOptionNames: set<string> :=
    {"_quantity", "make_m2m", "_refresh_after_create", "_create_files", "_bulk_create", "_save_kwargs", "_using"}

  function SetIfGiven(d: Dict<Val>, k: string, o: Option<Val>): (r: Dict<Val>)
    ensures Get(r, k) == if o.Some? then Some(o.value) else Get(d, k)
    ensures forall k' :: k' != k ==> Get(r, k') == Get(d, k')
    ensures Keys(r) <= Keys(d) + {k}
  {
    if o.Some? then Set(d, k, o.value) else d
  }

  /** The first three options given to `Recipe.make`. */
  function LeadingOptions(o: MakeOptions): (d: Dict<Val>)
    ensures Get(d, "_quantity") == o.quantity
    ensures Get(d, "make_m2m") == o.makeM2M
    ensures Get(d, "_refresh_after_create") == o.refreshAfterCreate
    ensures Keys(d) <= {"_quantity", "make_m2m", "_refresh_after_create"}
  {
    var d0 := SetIfGiven([], "_quantity", o.quantity);
    var d1 := SetIfGiven(d0, "make_m2m", o.makeM2M);
    SetIfGiven(d1, "_refresh_after_create", o.refreshAfterCreate)
  }

  /** The options given to `Recipe.make`, by their keyword names. */
  function OptionsGiven(o: MakeOptions): (d: Dict<Val>)
    ensures Get(d, "_quantity") == o.quantity
    ensures Get(d, "make_m2m") == o.makeM2M
    ensures Get(d, "_refresh_after_create") == o.refreshAfterCreate
    ensures Get(d, "_create_files") == o.createFiles
    ensures Get(d, "_bulk_create") == o.bulkCreate
    ensures Get(d, "_save_kwargs") == o.saveKwargs
    ensures Keys(d) <= MakeOptionNames
  {
    var d2 := LeadingOptions(o);
    assert "_create_files" !in Keys(d2) && "_bulk_create" !in Keys(d2) && "_save_kwargs" !in Keys(d2);
    var d3 := SetIfGiven(d2, "_create_files", o.createFiles);
    var d4 := SetIfGiven(d3, "_bulk_create", o.bulkCreate);
    SetIfGiven(d4, "_save_kwargs", o.saveKwargs)
  }

  /**
   * The keyword arguments `Recipe.make` hands to `_mapping`: only the options
   * that were given, then the call's attributes.
   */
  function MakeDefaults(o: MakeOptions, attrs: Dict<Val>): (d: Dict<Val>)
    requires DistinctKeys(attrs) && Keys(attrs) !! MakeOptionNames
    ensures forall k :: k in MakeOptionNames ==> Get(d, k) == Get(OptionsGiven(o), k)
    ensures forall k :: k !in MakeOptionNames ==> Get(d, k) == Get(attrs, k)
  {
    var given := OptionsGiven(o);
    assert forall k :: Get(Update(given, attrs), k) == if k in Keys(attrs) then Get(attrs, k) else Get(given, k) by {
      forall k ensures Get(Update(given, attrs), k) == if k in Keys(attrs) then Get(attrs, k) else Get(given, k) {
        UpdateGet(given, attrs, k);
      }
    }
    Update(given, attrs)
  }

  /** The keyword arguments `Recipe.prepare` hands to `_mapping`: `_save_related` always, `_quantity` when given. */
  function PrepareDefaults(quantity: Option<Val>, saveRelated: Val, attrs: Dict<Val>): (d: Dict<Val>)
    requires DistinctKeys(attrs) && Keys(attrs) !! {"_quantity", "_save_related", "_using"}
    ensures Get(d, "_save_related") == Some(saveRelated)
    ensures Get(d, "_quantity") == quantity
    ensures forall k :: k !in {"_quantity", "_save_related", "_using"} ==> Get(d, k) == Get(attrs, k)
  {
    var d := SetIfGiven([("_save_related", saveRelated)], "_quantity", quantity);
    assert forall k :: Get(Update(d, attrs), k) == if k in Keys(attrs) then Get(attrs, k) else Get(d, k) by {
      forall k ensures Get(Update(d, attrs), k) == if k in Keys(attrs) then Get(attrs, k) else Get(d, k) {
        UpdateGet(d, attrs, k);
      }
    }
    Update(d, attrs)
  }

  // ---------------------------------------------------------------------
  // _mapping

  /**
   * A related object `_mapping` asks for: made (saved) or prepared from
   * `recipe` with `attrs`, `count` times; `cycled` when the baker receives
   * an endless cycle over them rather than the object itself.
   */
  datatype RelatedPlan = RelatedPlan(recipe: Recipe, attrs: map<string, Val>, saved: bool, count: nat, cycled: bool)

  /** A value of the mapping `_mapping` returns. */
  datatype Mapped =
    | Passed(v: Val)                   // a keyword argument of the call
    | Kept(attr: RecipeAttr)           // a recipe attribute as it is
    | Copied(v: Val)                   // a fresh deep copy of a recipe container
    | IteratorView(items: seq<Val>)    // the usable copy of a recipe iterator
    | RelatedObjects(plan: RelatedPlan)
    | RelatedMaker(rel: Related)       // the bound method `related.make`

  function NotRelKeyP(): string -> bool { k => !Baker.IsRelKey(k) }
  function RelKeyP(): string -> bool { k => Baker.IsRelKey(k) }

  /** The call's keyword arguments without `__`. */
  function Plain(newAttrs: Dict<Val>): Dict<Val> { Filter(newAttrs, NotRelKeyP()) }

  /** The call's keyword arguments with `__` (`rel_fields_attrs`). */
  function Rel(newAttrs: Dict<Val>): Dict<Val> { Filter(newAttrs, RelKeyP()) }

  /** `new_attrs.get("_save_related", True)`, by truthiness. */
  predicate SaveRelated(newAttrs: Dict<Val>) { Truthy(GetOr(newAttrs, "_save_related", Bool(true))) }

  /** `new_attrs.get("_quantity", 1)`. */
  function QuantityArg(newAttrs: Dict<Val>): Val { GetOr(newAttrs, "_quantity", Int(1)) }

  /** What `_mapping` reads from the call's keyword arguments. */
  datatype Call = Call(plain: Dict<Val>, rel: Dict<Val>, saveRelated: bool, quantity: Val)

  function CallOf(newAttrs: Dict<Val>): Call
  {
    Call(Plain(newAttrs), Rel(newAttrs), SaveRelated(newAttrs), QuantityArg(newAttrs))
  }

  /** `len(range(q))`: an int (or bool) is accepted, anything else is a TypeError. */
  function RangeLen(q: Val): (r: Result<nat, RecipeError>)
    ensures r.Err? <==> !(q.Int? || q.Bool?)
    ensures r.Err? ==> r.error == QuantityNotInteger
    ensures q.Int? && q.i >= 0 ==> r == Ok(q.i)
    ensures q.Int? && q.i < 0 ==> r == Ok(0)
    ensures q.Bool? ==> r == Ok(if q.b then 1 else 0)
  {
    match q
    case Int(n) => if n < 0 then Ok(0) else Ok(n)
    case Bool(b) => Ok(if b then 1 else 0)
    case _ => Err(QuantityNotInteger)
  }

  /** Entry `i` of the recipe would claim the call attribute `key` (`key.startswith(f"{k}__")`). */
  predicate Eligible(attrs: Dict<RecipeAttr>, plainKeys: set<string>, i: nat, key: string)
    requires i < |attrs|
  {
    attrs[i].1.ForeignKey? && attrs[i].0 !in plainKeys && StartsWith(key, attrs[i].0 + "__")
  }

  /** The first of the first `n` recipe entries that claims `key`. */
  function ClaimantBefore(attrs: Dict<RecipeAttr>, plainKeys: set<string>, key: string, n: nat): (r: Option<nat>)
    requires n <= |attrs|
    ensures r.Some? ==> r.value < n && Eligible(attrs, plainKeys, r.value, key) &&
                        forall j :: 0 <= j < r.value ==> !Eligible(attrs, plainKeys, j, key)
    ensures r.None? ==> forall j :: 0 <= j < n ==> !Eligible(attrs, plainKeys, j, key)
  {
    if n == 0 then None
    else
      match ClaimantBefore(attrs, plainKeys, key, n - 1)
      case Some(j) => Some(j)
      case None => if Eligible(attrs, plainKeys, n - 1, key) then Some(n - 1) else None
  }

  function UnclaimedP(attrs: Dict<RecipeAttr>, plainKeys: set<string>, n: nat): string -> bool
    requires n <= |attrs|
  {
    key => ClaimantBefore(attrs, plainKeys, key, n).None?
  }

  function ClaimedP(attrs: Dict<RecipeAttr>, plainKeys: set<string>, i: nat): string -> bool
  {
    key => ClaimantBefore(attrs, plainKeys, key, |attrs|) == Some(i)
  }

  /** The `__` attributes no foreign-key entry claims: they pass through to the baker. */
  function Unclaimed(attrs: Dict<RecipeAttr>, plainKeys: set<string>, rel: Dict<Val>, n: nat): Dict<Val>
    requires n <= |attrs|
  {
    Filter(rel, UnclaimedP(attrs, plainKeys, n))
  }

  /** The `__` attributes that foreign-key entry `i` claims, in call order. */
  function ClaimedBy(attrs: Dict<RecipeAttr>, plainKeys: set<string>, rel: Dict<Val>, i: nat): Dict<Val>
  {
    Filter(rel, ClaimedP(attrs, plainKeys, i))
  }

  /** What `_mapping` makes of one recipe attribute that the call did not supply. */
  function Process(k: string, a: RecipeAttr, claimed: Dict<Val>, saveRelated: bool, quantity: Val): (r: Result<Mapped, RecipeError>)
    ensures r.Err? ==> r.error == QuantityNotInteger && a.ForeignKey? && saveRelated && a.fk.oneToOne == Bool(true)
    ensures a.Container? ==> r == Ok(Copied(a.c))
    ensures r.Ok? && a.ForeignKey? ==>
              r.value.RelatedObjects? && r.value.plan.recipe == a.fk.recipe &&
              r.value.plan.attrs == Baker.FilterRelSpec(k, claimed) &&
              r.value.plan.saved == saveRelated &&
              (r.value.plan.cycled <==> saveRelated && a.fk.oneToOne == Bool(true)) &&
              (r.value.plan.cycled ==> Ok(r.value.plan.count) == RangeLen(quantity)) &&
              (!r.value.plan.cycled ==> r.value.plan.count == 1)
  {
    match a
    case IteratorAttr(items) => Ok(IteratorView(items))
    case ForeignKey(fk) =>
      var recipeAttrs := Baker.FilterRelSpec(k, claimed);
      if saveRelated then
        if fk.oneToOne == Bool(true) then
          match RangeLen(quantity)
          case Ok(n) => Ok(RelatedObjects(RelatedPlan(fk.recipe, recipeAttrs, true, n, true)))
          case Err(e) => Err(e)
        else Ok(RelatedObjects(RelatedPlan(fk.recipe, recipeAttrs, true, 1, false)))
      else Ok(RelatedObjects(RelatedPlan(fk.recipe, recipeAttrs, false, 1, false)))
    case RelatedRecipes(rel) => Ok(RelatedMaker(rel))
    case Container(c) => Ok(Copied(c))
    case Value(v) => Ok(Kept(a))
  }

  /** The mapping entry for recipe attribute `j`: kept when the call supplies that key, processed otherwise. */
  function Entry(attrs: Dict<RecipeAttr>, c: Call, j: nat): Result<Mapped, RecipeError>
    requires j < |attrs|
  {
    if attrs[j].0 in Keys(c.plain) then Ok(Kept(attrs[j].1))
    else Process(attrs[j].0, attrs[j].1, ClaimedBy(attrs, Keys(c.plain), c.rel, j), c.saveRelated, c.quantity)
  }

  function PassAll(d: Dict<Val>): (r: Dict<Mapped>)
    ensures Keys(r) == Keys(d)
    ensures forall k :: Get(r, k) == if k in Keys(d) then Some(Passed(Get(d, k).value)) else None
  {
    if d == [] then [] else [(d[0].0, Passed(d[0].1))] + PassAll(d[1..])
  }

  /** Every recipe attribute gives an entry (none raises). */
  predicate AllEntriesOk(attrs: Dict<RecipeAttr>, c: Call)
  {
    forall j :: 0 <= j < |attrs| ==> Entry(attrs, c, j).Ok?
  }

  /** The recipe's attributes, each replaced by its entry. */
  function Base(attrs: Dict<RecipeAttr>, c: Call): (b: Dict<Mapped>)
    requires AllEntriesOk(attrs, c)
    ensures |b| == |attrs|
    ensures forall j :: 0 <= j < |attrs| ==> b[j] == (attrs[j].0, Entry(attrs, c, j).value)
  {
    seq(|attrs|, j requires 0 <= j < |attrs| => (attrs[j].0, Entry(attrs, c, j).value))
  }

  /**
   * `_mapping`, stated without its loop: every recipe attribute gives its
   * entry, then the call's plain attributes are laid over them, then the
   * `__` attributes that no foreign-key entry claimed.
   */
  function MappingSpec(recipe: Recipe, newAttrs: Dict<Val>): Result<Dict<Mapped>, RecipeError>
  {
    var attrs := recipe.attrs;
    var c := CallOf(newAttrs);
    if !AllEntriesOk(attrs, c) then Err(QuantityNotInteger)
    else Ok(Update(Update(Base(attrs, c), PassAll(c.plain)), PassAll(Unclaimed(attrs, Keys(c.plain), c.rel, |attrs|))))
  }

  function StartsP(k: string): string -> bool { key => StartsWith(key, k + "__") }
  function NotStartsP(k: string): string -> bool { key => !StartsWith(key, k + "__") }

  lemma {:induction false} FilterFilter<V>(d: Dict<V>, p: string -> bool, q: string -> bool, r: string -> bool)
    requires forall x :: (p(x) && q(x)) == r(x)
    ensures Filter(Filter(d, p), q) == Filter(d, r)
    decreases |d|
  {
    if d != [] {
      FilterFilter(d[1..], p, q, r);
    }
  }

  lemma {:induction false} SetAt<V>(d: Dict<V>, i: nat, v: V)
    requires DistinctKeys(d) && i < |d|
    ensures Set(d, d[i].0, v) == d[i := (d[i].0, v)]
    decreases |d|
  {
    if i > 0 {
      DistinctTail(d);
      assert d[1..][i - 1] == d[i];
      SetAt(d[1..], i - 1, v);
      assert d[i := (d[i].0, v)] == [d[0]] + d[1..][i - 1 := (d[i].0, v)];
    }
  }

  /** Claiming, step by step: entry `i` claims what is still unclaimed and starts with its key. */
  lemma ClaimStep(attrs: Dict<RecipeAttr>, plainKeys: set<string>, rel: Dict<Val>, i: nat)
    requires i < |attrs|
    ensures attrs[i].1.ForeignKey? && attrs[i].0 !in plainKeys ==>
              Filter(Unclaimed(attrs, plainKeys, rel, i), StartsP(attrs[i].0)) == ClaimedBy(attrs, plainKeys, rel, i) &&
              Filter(Unclaimed(attrs, plainKeys, rel, i), NotStartsP(attrs[i].0)) == Unclaimed(attrs, plainKeys, rel, i + 1)
    ensures !(attrs[i].1.ForeignKey? && attrs[i].0 !in plainKeys) ==>
              Unclaimed(attrs, plainKeys, rel, i) == Unclaimed(attrs, plainKeys, rel, i + 1)
  {
    var k := attrs[i].0;
    if attrs[i].1.ForeignKey? && attrs[i].0 !in plainKeys {
      forall x ensures (UnclaimedP(attrs, plainKeys, i)(x) && StartsP(k)(x)) == ClaimedP(attrs, plainKeys, i)(x) {
        var before := ClaimantBefore(attrs, plainKeys, x, i);
        var all := ClaimantBefore(attrs, plainKeys, x, |attrs|);
        if before.Some? {
          assert Eligible(attrs, plainKeys, before.value, x);
        }
        if all.Some? {
          assert Eligible(attrs, plainKeys, all.value, x);
        }
        if before.None? && StartsP(k)(x) {
          assert Eligible(attrs, plainKeys, i, x);
        }
      }
      FilterFilter(rel, UnclaimedP(attrs, plainKeys, i), StartsP(k), ClaimedP(attrs, plainKeys, i));
      forall x ensures (UnclaimedP(attrs, plainKeys, i)(x) && NotStartsP(k)(x)) == UnclaimedP(attrs, plainKeys, i + 1)(x) {
        var before := ClaimantBefore(attrs, plainKeys, x, i);
        var next := ClaimantBefore(attrs, plainKeys, x, i + 1);
        if before.Some? {
          assert Eligible(attrs, plainKeys, before.value, x);
        }
        if next.Some? {
          assert Eligible(attrs, plainKeys, next.value, x);
        }
      }
      FilterFilter(rel, UnclaimedP(attrs, plainKeys, i), NotStartsP(k), UnclaimedP(attrs, plainKeys, i + 1));
    } else {
      forall x ensures UnclaimedP(attrs, plainKeys, i)(x) == UnclaimedP(attrs, plainKeys, i + 1)(x) {
        var before := ClaimantBefore(attrs, plainKeys, x, i);
        var next := ClaimantBefore(attrs, plainKeys, x, i + 1);
        if before.Some? {
          assert Eligible(attrs, plainKeys, before.value, x);
        }
        if next.Some? {
          assert Eligible(attrs, plainKeys, next.value, x);
        }
      }
      FilterAll(rel, UnclaimedP(attrs, plainKeys, i), UnclaimedP(attrs, plainKeys, i + 1));
    }
  }

  lemma {:induction false} FilterKeepsAll<V>(d: Dict<V>, p: string -> bool)
    requires forall x :: p(x)
    ensures Filter(d, p) == d
    decreases |d|
  {
    if d != [] {
      FilterKeepsAll(d[1..], p);
    }
  }

  lemma {:induction false} FilterAll<V>(d: Dict<V>, p: string -> bool, q: string -> bool)
    requires forall x :: p(x) == q(x)
    ensures Filter(d, p) == Filter(d, q)
    decreases |d|
  {
    if d != [] {
      FilterAll(d[1..], p, q);
    }
  }

  /**
   * The body of `_mapping`'s loop for a recipe attribute the call does not
   * supply; `rest` is what is left of the `__` attributes.
   */
  method ProcessEntry(k: string, a: RecipeAttr, relFieldsAttrs: Dict<Val>, saveRelated: bool, quantity: Val)
    returns (r: Result<Mapped, RecipeError>, rest: Dict<Val>)
    ensures r == Process(k, a, Filter(relFieldsAttrs, StartsP(k)), saveRelated, quantity)
    ensures rest == if a.ForeignKey? then Filter(relFieldsAttrs, NotStartsP(k)) else relFieldsAttrs
  {
    rest := relFieldsAttrs;
    match a {
      case IteratorAttr(items) =>
        r := Ok(IteratorView(items));
      case ForeignKey(fk) =>
        var claimed := Filter(relFieldsAttrs, StartsP(k));
        rest := Filter(relFieldsAttrs, NotStartsP(k));
        var recipeAttrs := Baker.FilterRelAttrs(k, claimed);
        if saveRelated {
          if fk.oneToOne == Bool(true) {
            var n := RangeLen(quantity);
            if n.Err? {
              return Err(n.error), rest;
            }
            r := Ok(RelatedObjects(RelatedPlan(fk.recipe, recipeAttrs, true, n.value, true)));
          } else {
            r := Ok(RelatedObjects(RelatedPlan(fk.recipe, recipeAttrs, true, 1, false)));
          }
        } else {
          r := Ok(RelatedObjects(RelatedPlan(fk.recipe, recipeAttrs, false, 1, false)));
        }
      case RelatedRecipes(rel) =>
        r := Ok(RelatedMaker(rel));
      case Container(c) =>
        r := Ok(Copied(c));
      case Value(_) =>
        r := Ok(Kept(a));
    }
  }

  /**
   * `Recipe._mapping`: copy the recipe's attributes, then walk them in
   * order, skipping those the call supplies, giving iterators a usable copy,
   * handing each foreign key the `k__x` attributes it claims (removed from
   * the pass-through), binding `related.make` and deep-copying containers;
   * finally lay the call's attributes over the result.
   */
  method Mapping(recipe: Recipe, newAttrs: Dict<Val>) returns (r: Result<Dict<Mapped>, RecipeError>)
    requires DistinctKeys(recipe.attrs) && DistinctKeys(newAttrs)
    ensures r == MappingSpec(recipe, newAttrs)
  {
    var walked := WalkRecipe(recipe.attrs, CallOf(newAttrs));
    if walked.Err? {
      return Err(walked.error);
    }
    var (mapping, relFieldsAttrs) := walked.value;
    mapping := Update(mapping, PassAll(Plain(newAttrs)));
    mapping := Update(mapping, PassAll(relFieldsAttrs));
    return Ok(mapping);
  }

  /** The state of `_mapping`'s loop after the first `i` recipe attributes. */
  predicate Walked(attrs: Dict<RecipeAttr>, c: Call, i: nat, mapping: Dict<Mapped>, relFieldsAttrs: Dict<Val>)
  {
    && i <= |attrs|
    && |mapping| == |attrs|
    && (forall j :: 0 <= j < |attrs| ==> mapping[j].0 == attrs[j].0)
    && (forall j :: 0 <= j < i ==> Entry(attrs, c, j).Ok? && mapping[j].1 == Entry(attrs, c, j).value)
    && (forall j :: i <= j < |attrs| ==> mapping[j].1 == Kept(attrs[j].1))
    && relFieldsAttrs == Unclaimed(attrs, Keys(c.plain), c.rel, i)
  }

  /** The loop of `_mapping`: the processed recipe attributes and the `__` attributes left unclaimed. */
  method WalkRecipe(attrs: Dict<RecipeAttr>, c: Call) returns (r: Result<(Dict<Mapped>, Dict<Val>), RecipeError>)
    requires DistinctKeys(attrs)
    ensures r.Err? <==> !AllEntriesOk(attrs, c)
    ensures r.Err? ==> r.error == QuantityNotInteger
    ensures r.Ok? ==> r.value == (Base(attrs, c), Unclaimed(attrs, Keys(c.plain), c.rel, |attrs|))
  {
    var relFieldsAttrs := c.rel;
    var mapping := KeptAll(attrs);
    WalkStart(attrs, c);
    var i := 0;
    while i < |attrs|
      invariant Walked(attrs, c, i, mapping, relFieldsAttrs)
    {
      var step := WalkStep(attrs, c, i, mapping, relFieldsAttrs);
      if step.Err? {
        return Err(step.error);
      }
      mapping, relFieldsAttrs := step.value.0, step.value.1;
      i := i + 1;
    }
    WalkDone(attrs, c, mapping, relFieldsAttrs);
    return Ok((mapping, relFieldsAttrs));
  }

  /** The copy `_mapping` starts from: every recipe attribute as it is. */
  function KeptAll(attrs: Dict<RecipeAttr>): (m: Dict<Mapped>)
    ensures |m| == |attrs|
    ensures forall j :: 0 <= j < |attrs| ==> m[j] == (attrs[j].0, Kept(attrs[j].1))
  {
    MapValues(attrs, (k: string, a: RecipeAttr) => Kept(a))
  }

  lemma WalkStart(attrs: Dict<RecipeAttr>, c: Call)
    ensures Walked(attrs, c, 0, KeptAll(attrs), c.rel)
  {
    FilterKeepsAll(c.rel, UnclaimedP(attrs, Keys(c.plain), 0));
  }

  lemma WalkDone(attrs: Dict<RecipeAttr>, c: Call, mapping: Dict<Mapped>, relFieldsAttrs: Dict<Val>)
    requires Walked(attrs, c, |attrs|, mapping, relFieldsAttrs)
    ensures AllEntriesOk(attrs, c)
    ensures mapping == Base(attrs, c) && relFieldsAttrs == Unclaimed(attrs, Keys(c.plain), c.rel, |attrs|)
  {
  }

  /** One turn of `_mapping`'s loop, on recipe attribute `i`. */
  method WalkStep(attrs: Dict<RecipeAttr>, c: Call, i: nat, mapping: Dict<Mapped>, relFieldsAttrs: Dict<Val>)
    returns (r: Result<(Dict<Mapped>, Dict<Val>), RecipeError>)
    requires DistinctKeys(attrs) && i < |attrs| && Walked(attrs, c, i, mapping, relFieldsAttrs)
    ensures r.Err? <==> Entry(attrs, c, i).Err?
    ensures r.Err? ==> r.error == QuantityNotInteger && !AllEntriesOk(attrs, c)
    ensures r.Ok? ==> Walked(attrs, c, i + 1, r.value.0, r.value.1)
  {
    var k := attrs[i].0;
    var a := attrs[i].1;
    var plainKeys := Keys(c.plain);
    ClaimStep(attrs, plainKeys, c.rel, i);
    EntryStep(attrs, c, i, relFieldsAttrs);
    if k in plainKeys {
      assert mapping[i := (k, Kept(a))] == mapping;
      WalkedUpdate(attrs, c, i, mapping, relFieldsAttrs, Kept(a), relFieldsAttrs);
      return Ok((mapping, relFieldsAttrs));
    }
    var m, rest := ProcessEntry(k, a, relFieldsAttrs, c.saveRelated, c.quantity);
    assert m == Entry(attrs, c, i);
    if m.Err? {
      assert !AllEntriesOk(attrs, c);
      return Err(m.error);
    }
    if a.Value? {
      assert mapping[i := (k, m.value)] == mapping;
      WalkedUpdate(attrs, c, i, mapping, relFieldsAttrs, m.value, rest);
      return Ok((mapping, rest));
    }
    SameKeysDistinct(mapping, attrs);
    SetAt(mapping, i, m.value);
    WalkedUpdate(attrs, c, i, mapping, relFieldsAttrs, m.value, rest);
    return Ok((Set(mapping, k, m.value), rest));
  }

  /** Recording entry `i`'s result in the mapping keeps the loop invariant. */
  lemma WalkedUpdate(attrs: Dict<RecipeAttr>, c: Call, i: nat, mapping: Dict<Mapped>, relFieldsAttrs: Dict<Val>,
                     e: Mapped, rest: Dict<Val>)
    requires i < |attrs| && Walked(attrs, c, i, mapping, relFieldsAttrs)
    requires Entry(attrs, c, i) == Ok(e) && rest == Unclaimed(attrs, Keys(c.plain), c.rel, i + 1)
    ensures Walked(attrs, c, i + 1, mapping[i := (attrs[i].0, e)], rest)
  {
  }

  /** Entry `i` in terms of the `__` attributes still unclaimed when the loop reaches it. */
  lemma EntryStep(attrs: Dict<RecipeAttr>, c: Call, i: nat, relNow: Dict<Val>)
    requires i < |attrs| && relNow == Unclaimed(attrs, Keys(c.plain), c.rel, i)
    ensures attrs[i].0 in Keys(c.plain) ==> Entry(attrs, c, i) == Ok(Kept(attrs[i].1))
    ensures attrs[i].0 !in Keys(c.plain) ==>
              Entry(attrs, c, i) ==
              Process(attrs[i].0, attrs[i].1, Filter(relNow, StartsP(attrs[i].0)), c.saveRelated, c.quantity)
    ensures attrs[i].1.Value? ==> Entry(attrs, c, i) == Ok(Kept(attrs[i].1))
  {
    var k := attrs[i].0;
    var plainKeys := Keys(c.plain);
    var claimedNow := Filter(relNow, StartsP(k));
    var claimed := ClaimedBy(attrs, plainKeys, c.rel, i);
    if k !in plainKeys {
      assert Entry(attrs, c, i) == Process(k, attrs[i].1, claimed, c.saveRelated, c.quantity);
      if attrs[i].1.ForeignKey? {
        ClaimStep(attrs, plainKeys, c.rel, i);
        assert claimedNow == claimed;
      } else {
        ProcessIgnoresClaimed(k, attrs[i].1, claimedNow, claimed, c.saveRelated, c.quantity);
      }
      assert Process(k, attrs[i].1, claimedNow, c.saveRelated, c.quantity) ==
             Process(k, attrs[i].1, claimed, c.saveRelated, c.quantity);
    }
  }

  /** Only a foreign key looks at the attributes it claims. */
  lemma ProcessIgnoresClaimed(k: string, a: RecipeAttr, c1: Dict<Val>, c2: Dict<Val>, saveRelated: bool, quantity: Val)
    requires !a.ForeignKey?
    ensures Process(k, a, c1, saveRelated, quantity) == Process(k, a, c2, saveRelated, quantity)
  {
  }

  lemma SameKeysDistinct<V, W>(d: Dict<V>, e: Dict<W>)
    requires DistinctKeys(e) && |d| == |e|
    requires forall j :: 0 <= j < |e| ==> d[j].0 == e[j].0
    ensures DistinctKeys(d)
  {
    forall x, y | 0 <= x < y < |d| ensures d[x].0 != d[y].0 {
      assert d[x].0 == e[x].0 && d[y].0 == e[y].0;
    }
  }

  // ---------------------------------------------------------------------
  // what the mapping holds

  lemma PassAllDistinct(d: Dict<Val>)
    requires DistinctKeys(d)
    ensures DistinctKeys(PassAll(d))
  {
    var p := PassAll(d);
    PassAllLen(d);
    forall i, j | 0 <= i < j < |p| ensures p[i].0 != p[j].0 {
      PassAllAt(d, i);
      PassAllAt(d, j);
    }
  }

  lemma {:induction false} PassAllAt(d: Dict<Val>, i: nat)
    requires i < |d|
    ensures |PassAll(d)| == |d| && PassAll(d)[i] == (d[i].0, Passed(d[i].1))
    decreases |d|
  {
    if i > 0 {
      PassAllAt(d[1..], i - 1);
    }
    PassAllLen(d);
  }

  lemma {:induction false} PassAllLen(d: Dict<Val>)
    ensures |PassAll(d)| == |d|
    decreases |d|
  {
    if d != [] {
      PassAllLen(d[1..]);
    }
  }

  /** Looking a key up in the mapping: the `__` pass-through first, then the plain call attributes, then the recipe. */
  lemma MappingGet(recipe: Recipe, newAttrs: Dict<Val>, key: string)
    requires DistinctKeys(newAttrs) && MappingSpec(recipe, newAttrs).Ok?
    ensures var attrs := recipe.attrs;
            var unclaimed := Unclaimed(attrs, Keys(Plain(newAttrs)), Rel(newAttrs), |attrs|);
            var base := Base(attrs, CallOf(newAttrs));
            Get(MappingSpec(recipe, newAttrs).value, key) ==
              if key in Keys(unclaimed) then Some(Passed(Get(unclaimed, key).value))
              else if key in Keys(Plain(newAttrs)) then Some(Passed(Get(Plain(newAttrs), key).value))
              else Get(base, key)
  {
    var attrs := recipe.attrs;
    var unclaimed := Unclaimed(attrs, Keys(Plain(newAttrs)), Rel(newAttrs), |attrs|);
    var base := Base(attrs, CallOf(newAttrs));
    PassAllDistinct(Plain(newAttrs));
    PassAllDistinct(unclaimed);
    UpdateGet(base, PassAll(Plain(newAttrs)), key);
    UpdateGet(Update(base, PassAll(Plain(newAttrs))), PassAll(unclaimed), key);
  }

  /** Call-time attributes beat recipe attributes. */
  lemma CallTimeWins(recipe: Recipe, newAttrs: Dict<Val>, key: string)
    requires DistinctKeys(newAttrs) && MappingSpec(recipe, newAttrs).Ok?
    requires key in Keys(newAttrs) && !Baker.IsRelKey(key)
    ensures Get(MappingSpec(recipe, newAttrs).value, key) == Some(Passed(Get(newAttrs, key).value))
  {
    MappingGet(recipe, newAttrs, key);
  }

  /** A `k__x` attribute claimed by a foreign-key entry does not reach the baker (unless the recipe itself has that key). */
  lemma ClaimedNotPassed(recipe: Recipe, newAttrs: Dict<Val>, key: string)
    requires DistinctKeys(newAttrs) && MappingSpec(recipe, newAttrs).Ok?
    requires key in Keys(newAttrs) && Baker.IsRelKey(key) && key !in Keys(recipe.attrs)
    requires ClaimantBefore(recipe.attrs, Keys(Plain(newAttrs)), key, |recipe.attrs|).Some?
    ensures key !in Keys(MappingSpec(recipe, newAttrs).value)
  {
    MappingGet(recipe, newAttrs, key);
    var attrs := recipe.attrs;
    var base := Base(attrs, CallOf(newAttrs));
    if key in Keys(base) {
      var j := KeyIndex(base, key);
      KeysHas(attrs, j);
    }
  }

  /** A recipe attribute the call does not supply gets its processed entry; a container is always a fresh copy. */
  lemma RecipeEntryUsed(recipe: Recipe, newAttrs: Dict<Val>, j: nat)
    requires DistinctKeys(recipe.attrs) && DistinctKeys(newAttrs) && MappingSpec(recipe, newAttrs).Ok?
    requires j < |recipe.attrs| && recipe.attrs[j].0 !in Keys(newAttrs)
    ensures Get(MappingSpec(recipe, newAttrs).value, recipe.attrs[j].0) == Some(Entry(recipe.attrs, CallOf(newAttrs), j).value)
    ensures recipe.attrs[j].1.Container? ==>
              Get(MappingSpec(recipe, newAttrs).value, recipe.attrs[j].0) == Some(Copied(recipe.attrs[j].1.c))
  {
    var attrs := recipe.attrs;
    var key := attrs[j].0;
    MappingGet(recipe, newAttrs, key);
    var base := Base(attrs, CallOf(newAttrs));
    assert DistinctKeys(base) by {
      forall x, y | 0 <= x < y < |base| ensures base[x].0 != base[y].0 {
        assert base[x].0 == attrs[x].0 && base[y].0 == attrs[y].0;
      }
    }
    GetAt(base, j);
  }
}
