/**
 * The attribute-resolution engine of model_bakery/baker.py: quantity
 * checking, the partition of call attributes, the skip table, the
 * many-to-many rule, the generator precedence chain and the per-field loop
 * of `Baker._make` that rewrites `model_attrs` and `m2m_dict`.
 *
 * A model field is an abstract record (name, attname, kind and flags). A
 * generator is never called: the model records which source would produce
 * the value and how it would be called.
 */
module Baker {
  import opened Values
  import opened Text
  import opened ModelFinder

  // ---------------------------------------------------------------------
  // errors

  datatype BakeError =
    | InvalidQuantityError                      // InvalidQuantityException
    | Finder(cause: FinderError)                // ModelNotFound / AmbiguousModelName / unpacking
    | FillOptionalNotRelated(wrong: set<string>) // AttributeError from `_clean_attrs`
    | FillOptionalNotIterable                   // TypeError from `name in fill_in_optional`
    | UnsupportedField(field: string)           // TypeError from `generate_value`
    | ContentTypeGeneratorMissing               // KeyError from `type_mapping[ContentType]`
    | RecipeIteratorEmpty(field: string)
    | StopIteration                             // `next` on an exhausted iterator, not caught
    | RequiredWrongType                         // ValueError from `get_required_values`
    | MissingFieldAttribute(attr: string)       // AttributeError from `getattr(field, item)`

  // ---------------------------------------------------------------------
  // quantity

  /** The integer a quantity stands for; `bool` is a subclass of `int`. */
  function IntOf(q: Val): int
    requires q.Int? || q.Bool?
  {
    if q.Int? then q.i else if q.b then 1 else 0
  }

  /**
   * `_valid_quantity`: despite its name it holds exactly for the quantities
   * that are refused.
   */
  predicate InvalidQuantity(q: Val)
  {
    q != NoneVal && (!(q.Int? || q.Bool?) || IntOf(q) < 1)
  }

  /** The quantities `make` and `prepare` accept. */
  lemma AcceptedQuantities(q: Val)
    ensures !InvalidQuantity(q) <==> q == NoneVal || (q.Int? && q.i >= 1) || q == Bool(true)
  {
  }

  /** What a `make` or `prepare` call builds once the model is known. */
  datatype Dispatch = One | Several(n: nat) | Bulk(n: nat)

  /**
   * Module-level `make`: the model is looked up first (`Baker.create`), then
   * the quantity is checked; a valid quantity gives a list (bulk-created when
   * asked), no quantity a single instance. `prepare` is this with `bulk`
   * false.
   */
  function MakeDispatch(model: Result<nat, FinderError>, quantity: Val, bulk: bool): (r: Result<Dispatch, BakeError>)
    ensures model.Err? ==> r == Err(Finder(model.error))
    ensures model.Ok? ==> (r.Err? <==> InvalidQuantity(quantity)) && (r.Err? ==> r.error == InvalidQuantityError)
    ensures r.Ok? ==> (r.value == One <==> quantity == NoneVal)
    ensures r.Ok? && !r.value.One? ==> r.value.n >= 1 && r.value.n == IntOf(quantity)
    ensures r.Ok? && !r.value.One? ==> (r.value.Bulk? <==> bulk)
  {
    if model.Err? then Err(Finder(model.error))
    else if InvalidQuantity(quantity) then Err(InvalidQuantityError)
    else if Truthy(quantity) && bulk then Ok(Bulk(IntOf(quantity)))
    else if Truthy(quantity) then Ok(Several(IntOf(quantity)))
    else Ok(One)
  }

  // ---------------------------------------------------------------------
  // fields and call attributes

  /**
   * The field classes the engine tells apart. `OneToOneField` is a subclass
   * of `ForeignKey`; subclasses of the others fall under their base.
   */
  datatype FieldKind =
    | ForeignKeyField | OneToOneField | ManyToManyField | FileField | AutoField
    | BooleanField | GenericRelationField | OrderWrtField | OtherField

  predicate IsForeignKey(k: FieldKind) { k == ForeignKeyField || k == OneToOneField }

  /** A field default: none, a constant, or a callable (modelled by what it returns). */
  datatype Default = NoDefault | Constant(v: Val) | Factory(result: Val)

  /**
   * A model field as the engine sees it. `attname` is `None` when the field
   * has no such attribute, `fieldClass` names its exact class,
   * `isField` says whether that class derives from `Field`, `parentLink`
   * is the remote field's `parent_link`, `hasChoices` the truthiness of
   * `choices`, `contentTypeFK` whether the remote model is `ContentType`,
   * and `attrs` the other attributes `getattr(field, ...)` can reach.
   */
  datatype Field = Field(
    name: string,
    attname: Option<string>,
    kind: FieldKind,
    fieldClass: nat,
    isField: bool,
    default: Default,
    blank: bool,
    nullable: bool,
    parentLink: bool,
    hasChoices: bool,
    contentTypeFK: bool,
    attrs: map<string, Val>)

  /** A keyword argument of a `make` call: a plain value, a callable or an iterator (its remaining items). */
  datatype Attr = Plain(v: Val) | Callable(result: Val) | Iterator(items: seq<Val>)

  /** The generator sources of `generate_value`. */
  datatype Source = FieldDefault | AttrMapping | Choices | ContentTypeFK | UserRegistry | TypeMapping

  /** The order in which `generate_value` consults the sources. */
  const Precedence: seq<Source> := [FieldDefault, AttrMapping, Choices, ContentTypeFK, UserRegistry, TypeMapping]

  function Rank(s: Source): (i: nat)
    ensures i < |Precedence| && Precedence[i] == s
  {
    match s
    case FieldDefault => 0
    case AttrMapping => 1
    case Choices => 2
    case ContentTypeFK => 3
    case UserRegistry => 4
    case TypeMapping => 5
  }

  /**
   * A generated value: the field default (a callable default already
   * called), or a call of the generator from `source`, through its
   * `prepare` when related objects are not committed, with the keyword
   * arguments `kwargs` that `get_required_values` collected, and the field's
   * related keyword arguments when the field is in `rel_fields`.
   */
  datatype Generation =
    | DefaultValue(v: Val)
    | FromGenerator(source: Source, prepare: bool, kwargs: map<string, Val>, relKwargs: bool)

  /** An entry of `model_attrs` or `m2m_dict`. */
  datatype Slot = Supplied(a: Attr) | Produced(v: Val) | Generated(g: Generation)

  /** `_fill_optional`: a bool, a list of field names, a string (tested by substring) or anything else. */
  datatype FillOptional = FillBool(b: bool) | FillNames(names: seq<string>) | FillText(text: string) | FillOther

  /**
   * The class-level settings of a baker: `make_m2m`, `create_files`, the keys
   * of `attr_mapping`, the classes in `type_mapping` and in the user
   * registry of `generators`, the `ContentType` class, and, by source and
   * field name, the `required` list of the generator that source gives for
   * that field (absent when the generator has no `required` attribute).
   */
  datatype Config = Config(
    makeM2M: bool,
    createFiles: bool,
    attrMapping: set<string>,
    typeMapping: set<nat>,
    userRegistry: set<nat>,
    contentTypeClass: nat,
    required: map<(Source, string), seq<RequiredItem>>)

  /** The per-call attributes of a baker (`rel_fields` kept as a set: only membership is used). */
  datatype BakeState = BakeState(
    modelAttrs: map<string, Slot>,
    m2mDict: map<string, Slot>,
    iteratorAttrs: map<string, seq<Val>>,
    relAttrs: map<string, Attr>,
    relFields: set<string>,
    fill: FillOptional)

  /** What an instance is built from: its constructor attributes and its many-to-many values. */
  datatype Instance = Instance(attrs: map<string, Slot>, m2m: map<string, Slot>)

  // ---------------------------------------------------------------------
  // `__` keys

  predicate IsRelKey(k: string) { Contains(k, "__") }

  /** `k.split("__")[0]`. */
  function BeforeDunder(k: string): (r: string)
    ensures IsRelKey(k) ==> |r| <= |k| && k[..|r|] == r && OccursAt(k, "__", |r|) && !Contains(r, "__")
    ensures !IsRelKey(k) ==> r == k
  {
    var i := Find(k, "__");
    if i == -1 then k
    else
      assert forall j :: 0 <= j <= i ==> (OccursAt(k[..i], "__", j) ==> OccursAt(k, "__", j));
      k[..i]
  }

  /** `"__".join(k.split("__")[1:])`: the text after the first `__`. */
  function AfterDunder(k: string): (r: string)
    requires IsRelKey(k)
    ensures k == BeforeDunder(k) + "__" + r
  {
    var i := Find(k, "__");
    assert k == k[..i] + k[i..i + 2] + k[i + 2..];
    k[i + 2..]
  }

  /**
   * `_clean_attrs` on the call attributes: plain keys to `model_attrs`,
   * `__` keys to `rel_attrs`, iterators (under any key) to
   * `iterator_attrs`, and the text before the first `__` of each related key
   * to `rel_fields`. `m2m_dict` is not reset.
   */
  function Partition(attrs: map<string, Attr>, fill: FillOptional, m2m: map<string, Slot>): (st: BakeState)
    ensures st.modelAttrs.Keys !! st.relAttrs.Keys
    ensures st.modelAttrs.Keys + st.relAttrs.Keys == attrs.Keys
    ensures forall k :: k in st.modelAttrs ==> !IsRelKey(k) && st.modelAttrs[k] == Supplied(attrs[k])
    ensures forall k :: k in st.relAttrs ==> IsRelKey(k) && st.relAttrs[k] == attrs[k]
    ensures forall k :: k in st.iteratorAttrs <==> k in attrs && attrs[k].Iterator?
    ensures forall k :: k in st.iteratorAttrs ==> st.iteratorAttrs[k] == attrs[k].items
    ensures forall r :: r in st.relFields <==> exists k :: k in st.relAttrs && BeforeDunder(k) == r
    ensures st.m2mDict == m2m && st.fill == fill
  {
    var rel := map k | k in attrs && IsRelKey(k) :: attrs[k];
    BakeState(
      map k | k in attrs && !IsRelKey(k) :: Supplied(attrs[k]),
      m2m,
      map k | k in attrs && attrs[k].Iterator? :: attrs[k].items,
      rel,
      set k | k in rel :: BeforeDunder(k),
      fill)
  }

  /** The names in a `_fill_optional` list that are not fields of the model. */
  function WrongFillNames(fill: FillOptional, fields: seq<Field>): (wrong: set<string>)
    ensures fill.FillNames? ==> forall n :: n in wrong <==> n in fill.names && forall f :: f in fields ==> f.name != n
    ensures !fill.FillNames? ==> wrong == {}
  {
    if fill.FillNames? then set n | n in fill.names && forall f :: f in fields ==> f.name != n else {}
  }

  // ---------------------------------------------------------------------
  // `_skip_field`

  /** The `fill_optional` attribute `_skip_field` writes on a field. */
  function FillOptionalFor(fill: FillOptional, name: string): (r: Result<bool, BakeError>)
    ensures r.Err? <==> fill.FillOther?
    ensures r.Err? ==> r.error == FillOptionalNotIterable
    ensures fill.FillNames? ==> r == Ok(name in fill.names)
    ensures fill.FillBool? ==> r == Ok(fill.b)
    ensures fill.FillText? ==> r == Ok(Contains(fill.text, name))
  {
    match fill
    case FillBool(b) => Ok(b)
    case FillNames(names) => Ok(name in names)
    case FillText(text) => Ok(Contains(text, name))
    case FillOther => Err(FillOptionalNotIterable)
  }

  /** A foreign key (or one-to-one) whose `attname` holds an iterator. */
  predicate IteratedAttname(st: BakeState, f: Field)
  {
    IsForeignKey(f.kind) && f.attname.Some? && f.attname.value in st.iteratorAttrs
  }

  /** The kind-based skips: files without `create_files`, parent links, auto fields, generic relations and `_order`. */
  predicate StructuralSkip(cfg: Config, st: BakeState, f: Field)
  {
    (f.kind == FileField && !cfg.createFiles) ||
    (!IteratedAttname(st, f) &&
     ((f.kind == OneToOneField && f.parentLink) ||
      f.kind == AutoField || f.kind == GenericRelationField || f.kind == OrderWrtField))
  }

  /** A field the model may leave unset: not a `Field`, with a default, or blank and not Boolean. */
  predicate Optional(f: Field)
  {
    !f.isField || f.default != NoDefault || (f.blank && f.kind != BooleanField)
  }

  /** `_skip_field`: whether the field is left to the model's own defaults. */
  function SkipField(cfg: Config, st: BakeState, f: Field): (r: Result<bool, BakeError>)
    ensures r.Err? <==> st.fill.FillOther?
    ensures r.Ok? ==> (r.value <==>
              StructuralSkip(cfg, st, f) ||
              (!IteratedAttname(st, f) && f.name !in st.modelAttrs && f.name !in st.relFields &&
               !FillOptionalFor(st.fill, f.name).value &&
               ((f.name !in cfg.attrMapping && Optional(f)) || f.nullable)))
  {
    var fo := FillOptionalFor(st.fill, f.name);
    if fo.Err? then Err(fo.error)
    else if f.kind == FileField && !cfg.createFiles then Ok(true)
    else if IteratedAttname(st, f) then Ok(false)
    else if f.kind == OneToOneField && f.parentLink then Ok(true)
    else if f.kind == AutoField || f.kind == GenericRelationField || f.kind == OrderWrtField then Ok(true)
    else if f.name !in st.modelAttrs && f.name !in st.relFields && f.name !in cfg.attrMapping &&
            !fo.value && Optional(f) then Ok(true)
    else if f.name !in st.modelAttrs && f.name !in st.relFields && f.nullable && !fo.value then Ok(true)
    else Ok(false)
  }

  /** A value the caller supplied for a field is never skipped unless the field's kind demands it. */
  lemma SuppliedNotSkipped(cfg: Config, st: BakeState, f: Field)
    requires !st.fill.FillOther? && f.name in st.modelAttrs && !StructuralSkip(cfg, st, f)
    ensures SkipField(cfg, st, f) == Ok(false)
  {
  }

  /** A required field (no default, not blank, not null, a real `Field`) is always filled. */
  lemma RequiredNotSkipped(cfg: Config, st: BakeState, f: Field)
    requires !st.fill.FillOther? && !Optional(f) && !f.nullable && !StructuralSkip(cfg, st, f)
    ensures SkipField(cfg, st, f) == Ok(false)
  {
  }

  /** With `_fill_optional=True` only the kind-based skips remain. */
  lemma FillAllSkipsOnlyStructural(cfg: Config, st: BakeState, f: Field)
    requires st.fill == FillBool(true)
    ensures SkipField(cfg, st, f) == Ok(StructuralSkip(cfg, st, f))
  {
  }

  /** A field named by a `__` attribute is not skipped for being optional or null. */
  lemma RelatedNotSkipped(cfg: Config, st: BakeState, f: Field)
    requires !st.fill.FillOther? && f.name in st.relFields && !StructuralSkip(cfg, st, f)
    ensures SkipField(cfg, st, f) == Ok(false)
  {
  }

  // ---------------------------------------------------------------------
  // `generate_value` and `m2m_value`

  /** Whether a source can produce a value for the field. */
  predicate Available(cfg: Config, st: BakeState, f: Field, s: Source)
  {
    match s
    case FieldDefault => f.default != NoDefault && f.name !in st.relFields
    case AttrMapping => f.name in cfg.attrMapping
    case Choices => f.hasChoices
    case ContentTypeFK => IsForeignKey(f.kind) && f.contentTypeFK
    case UserRegistry => f.fieldClass in cfg.userRegistry
    case TypeMapping => f.fieldClass in cfg.typeMapping
  }

  /** The source a generation came from. */
  function SourceOf(g: Generation): Source
  {
    if g.DefaultValue? then FieldDefault else g.source
  }

  function DefaultResult(d: Default): Val
    requires d != NoDefault
  {
    if d.Constant? then d.v else d.result
  }

  /** The source `generate_value` picks: available, and no source before it is. */
  predicate Chosen(cfg: Config, st: BakeState, f: Field, s: Source)
  {
    Available(cfg, st, f, s) && forall j :: 0 <= j < Rank(s) ==> !Available(cfg, st, f, Precedence[j])
  }

  /** At most one source is picked. */
  lemma ChosenUnique(cfg: Config, st: BakeState, f: Field)
    ensures forall s, t :: Chosen(cfg, st, f, s) && Chosen(cfg, st, f, t) ==> s == t
  {
    forall s, t | Chosen(cfg, st, f, s) && Chosen(cfg, st, f, t) ensures s == t {
      assert Precedence[Rank(s)] == s && Precedence[Rank(t)] == t;
    }
  }

  /** The `required` list of the generator source `s` gives for the field, if it has one. */
  function RequiredOf(cfg: Config, f: Field, s: Source): Option<seq<RequiredItem>>
  {
    if (s, f.name) in cfg.required then Some(cfg.required[(s, f.name)]) else None
  }

  /** Calling the generator from `s`: its required values are collected first, and may raise. */
  function CallGenerator(cfg: Config, st: BakeState, f: Field, s: Source, commit: bool): (r: Result<Generation, BakeError>)
    ensures r.Err? ==> r.error == RequiredWrongType || r.error.MissingFieldAttribute?
  {
    match RequiredValues(RequiredOf(cfg, f, s), f.attrs)
    case Ok(kwargs) => Ok(FromGenerator(s, !commit, kwargs, f.name in st.relFields))
    case Err(e) => Err(e)
  }

  /**
   * `generate_value`: the first available source in `Precedence` wins; a
   * content-type foreign key needs `ContentType` in `type_mapping`; with no
   * source at all the field is unsupported. A generator is called with the
   * values `get_required_values` collects for it, which may raise.
   */
  function GenerateValue(cfg: Config, st: BakeState, f: Field, commit: bool): (r: Result<Generation, BakeError>)
    ensures r.Ok? ==>
              var i := Rank(SourceOf(r.value));
              Available(cfg, st, f, Precedence[i]) &&
              forall j :: 0 <= j < i ==> !Available(cfg, st, f, Precedence[j])
    ensures r == Err(UnsupportedField(f.name)) <==>
              forall j :: 0 <= j < |Precedence| ==> !Available(cfg, st, f, Precedence[j])
    ensures r == Err(ContentTypeGeneratorMissing) <==>
              (forall j :: 0 <= j < Rank(ContentTypeFK) ==> !Available(cfg, st, f, Precedence[j])) &&
              Available(cfg, st, f, ContentTypeFK) && cfg.contentTypeClass !in cfg.typeMapping
    ensures r.Ok? && r.value.DefaultValue? ==> r.value.v == DefaultResult(f.default)
    ensures r.Ok? && r.value.FromGenerator? ==>
              r.value.prepare == !commit && (r.value.relKwargs <==> f.name in st.relFields) &&
              RequiredValues(RequiredOf(cfg, f, r.value.source), f.attrs) == Ok(r.value.kwargs)
  {
    assert Precedence[0] == FieldDefault && Precedence[1] == AttrMapping && Precedence[2] == Choices;
    assert Precedence[3] == ContentTypeFK && Precedence[4] == UserRegistry && Precedence[5] == TypeMapping;
    if Available(cfg, st, f, FieldDefault) then Ok(DefaultValue(DefaultResult(f.default)))
    else if Available(cfg, st, f, AttrMapping) then CallGenerator(cfg, st, f, AttrMapping, commit)
    else if Available(cfg, st, f, Choices) then CallGenerator(cfg, st, f, Choices, commit)
    else if Available(cfg, st, f, ContentTypeFK) then
      (if cfg.contentTypeClass in cfg.typeMapping then CallGenerator(cfg, st, f, ContentTypeFK, commit) else Err(ContentTypeGeneratorMissing))
    else if Available(cfg, st, f, UserRegistry) then CallGenerator(cfg, st, f, UserRegistry, commit)
    else if Available(cfg, st, f, TypeMapping) then CallGenerator(cfg, st, f, TypeMapping, commit)
    else Err(UnsupportedField(f.name))
  }

  /**
   * Once a generator source is picked, `generate_value` collects that
   * generator's required values and either raises their error or calls it
   * with them.
   */
  lemma GenerateValueChosen(cfg: Config, st: BakeState, f: Field, commit: bool, s: Source)
    requires Chosen(cfg, st, f, s) && s != FieldDefault
    requires s == ContentTypeFK ==> cfg.contentTypeClass in cfg.typeMapping
    ensures match RequiredValues(RequiredOf(cfg, f, s), f.attrs)
            case Ok(kwargs) => GenerateValue(cfg, st, f, commit) == Ok(FromGenerator(s, !commit, kwargs, f.name in st.relFields))
            case Err(e) => GenerateValue(cfg, st, f, commit) == Err(e)
  {
    ChosenUnique(cfg, st, f);
    assert Precedence[0] == FieldDefault && Precedence[1] == AttrMapping && Precedence[2] == Choices;
    assert Precedence[3] == ContentTypeFK && Precedence[4] == UserRegistry && Precedence[5] == TypeMapping;
  }

  /** The value of a slot that `m2m_value` leaves empty. */
  const EmptyM2M: Slot := Produced(List([]))

  /**
   * `m2m_value`: a field named by a `__` attribute is always generated;
   * otherwise it stays empty without `make_m2m`, or when it is null and not
   * to be filled. Generation here always commits related objects.
   */
  function M2MValue(cfg: Config, st: BakeState, f: Field, fillOptional: bool): (r: Result<Slot, BakeError>)
    ensures r == Ok(EmptyM2M) <==> f.name !in st.relFields && (!cfg.makeM2M || (f.nullable && !fillOptional))
    ensures r != Ok(EmptyM2M) ==>
              match GenerateValue(cfg, st, f, true)
              case Ok(g) => r == Ok(Generated(g))
              case Err(e) => r == Err(e)
  {
    if f.name !in st.relFields && (!cfg.makeM2M || (f.nullable && !fillOptional)) then Ok(EmptyM2M)
    else
      match GenerateValue(cfg, st, f, true)
      case Ok(g) => Ok(Generated(g))
      case Err(e) => Err(e)
  }

  // ---------------------------------------------------------------------
  // the per-field step of `_make`

  /** Advance the iterator stored under `key`: its next item, or `None` when exhausted. */
  function NextItem(st: BakeState, key: string): (r: Option<(Val, BakeState)>)
    requires key in st.iteratorAttrs
    ensures r.None? <==> st.iteratorAttrs[key] == []
    ensures r.Some? ==> r.value.0 == st.iteratorAttrs[key][0] &&
                        r.value.1 == st.(iteratorAttrs := st.iteratorAttrs[key := st.iteratorAttrs[key][1..]])
  {
    var items := st.iteratorAttrs[key];
    if items == [] then None
    else Some((items[0], st.(iteratorAttrs := st.iteratorAttrs[key := items[1..]])))
  }

  /** The keys one field may touch: its name and its `attname`. */
  predicate OwnKey(f: Field, k: string)
  {
    k == f.name || (f.attname.Some? && k == f.attname.value)
  }

  /**
   * What one field's turn may do to the state: only the field's own keys of
   * `model_attrs` change, a generated value appears only under the field's
   * name where nothing was, only the field's name can leave `model_attrs`,
   * only its name changes in `m2m_dict`, and the rest of the state stays.
   */
  ghost predicate StepFrame(st: BakeState, f: Field, st': BakeState)
  {
    && (forall k :: !OwnKey(f, k) ==>
          (k in st'.modelAttrs <==> k in st.modelAttrs) &&
          (k in st.modelAttrs ==> st'.modelAttrs[k] == st.modelAttrs[k]))
    && (forall k :: k in st'.modelAttrs && st'.modelAttrs[k].Generated? ==>
          (k in st.modelAttrs && st.modelAttrs[k].Generated?) || (k == f.name && f.name !in st.modelAttrs))
    && (forall k :: k in st.modelAttrs && k !in st'.modelAttrs ==> k == f.name)
    && (forall k :: k != f.name ==>
          (k in st'.m2mDict <==> k in st.m2mDict) &&
          (k in st.m2mDict ==> st'.m2mDict[k] == st.m2mDict[k]))
    && st'.relFields == st.relFields && st'.relAttrs == st.relAttrs &&
       st'.fill == st.fill && st'.iteratorAttrs.Keys == st.iteratorAttrs.Keys
  }

  /** The body of the loop in `_make` for a many-to-many field that was not skipped. */
  function M2MBody(cfg: Config, st: BakeState, f: Field, fillOptional: bool): (r: Result<BakeState, BakeError>)
    requires f.kind == ManyToManyField
    ensures r.Ok? ==> StepFrame(st, f, r.value)
  {
    if f.name !in st.modelAttrs then
      match M2MValue(cfg, st, f, fillOptional)
      case Ok(s) => Ok(st.(m2mDict := st.m2mDict[f.name := s]))
      case Err(e) => Err(e)
    else if f.name in st.iteratorAttrs then
      match NextItem(st, f.name)
      case None => Err(StopIteration)
      case Some((v, st')) => Ok(st'.(modelAttrs := st'.modelAttrs[f.name := Produced(List([v]))]))
    else
      Ok(st.(m2mDict := st.m2mDict[f.name := st.modelAttrs[f.name]], modelAttrs := st.modelAttrs - {f.name}))
  }

  /** The body of the loop in `_make` for any other field that was not skipped. */
  function ScalarBody(cfg: Config, st: BakeState, f: Field, commitRelated: bool): (r: Result<BakeState, BakeError>)
    requires f.kind != ManyToManyField
    ensures r.Ok? ==> StepFrame(st, f, r.value)
  {
    if IteratedAttname(st, f) then
      match NextItem(st, f.attname.value)
      case None => Err(StopIteration)
      case Some((v, st')) => Ok(st'.(modelAttrs := st'.modelAttrs[f.attname.value := Produced(v)]))
    else if f.name !in st.modelAttrs then
      if !IsForeignKey(f.kind) || (f.attname.Some? && f.attname.value !in st.modelAttrs) then
        match GenerateValue(cfg, st, f, commitRelated)
        case Ok(g) => Ok(st.(modelAttrs := st.modelAttrs[f.name := Generated(g)]))
        case Err(e) => Err(e)
      else Ok(st)
    else if st.modelAttrs[f.name].Supplied? && st.modelAttrs[f.name].a.Callable? then
      Ok(st.(modelAttrs := st.modelAttrs[f.name := Produced(st.modelAttrs[f.name].a.result)]))
    else if f.name in st.iteratorAttrs then
      match NextItem(st, f.name)
      case None => Err(RecipeIteratorEmpty(f.name))
      case Some((v, st')) => Ok(st'.(modelAttrs := st'.modelAttrs[f.name := Produced(v)]))
    else Ok(st)
  }

  /** A field that was not skipped: the body of the loop in `_make`. */
  function FieldBody(cfg: Config, st: BakeState, f: Field, commitRelated: bool, fillOptional: bool): (r: Result<BakeState, BakeError>)
    ensures r.Ok? ==> StepFrame(st, f, r.value)
  {
    if f.kind == ManyToManyField then M2MBody(cfg, st, f, fillOptional)
    else ScalarBody(cfg, st, f, commitRelated)
  }

  /**
   * One iteration of the loop in `_make`: skip the field, or resolve its
   * value. Only the field's own keys change; a generated value appears only
   * under the field's name and only when nothing was there.
   */
  function Step(cfg: Config, st: BakeState, f: Field, commitRelated: bool): (r: Result<BakeState, BakeError>)
    ensures r.Ok? ==> forall k :: !OwnKey(f, k) ==>
              (k in r.value.modelAttrs <==> k in st.modelAttrs) &&
              (k in st.modelAttrs ==> r.value.modelAttrs[k] == st.modelAttrs[k])
    ensures r.Ok? ==> forall k :: k in r.value.modelAttrs && r.value.modelAttrs[k].Generated? ==>
              (k in st.modelAttrs && st.modelAttrs[k].Generated?) || (k == f.name && f.name !in st.modelAttrs)
    ensures r.Ok? ==> forall k :: k in st.modelAttrs && k !in r.value.modelAttrs ==> k == f.name
    ensures r.Ok? ==> forall k :: k != f.name ==>
              (k in r.value.m2mDict <==> k in st.m2mDict) &&
              (k in st.m2mDict ==> r.value.m2mDict[k] == st.m2mDict[k])
    ensures r.Ok? ==> r.value.relFields == st.relFields && r.value.relAttrs == st.relAttrs &&
                      r.value.fill == st.fill && r.value.iteratorAttrs.Keys == st.iteratorAttrs.Keys
  {
    match SkipField(cfg, st, f)
    case Err(e) => Err(e)
    case Ok(skip) =>
      if skip then Ok(st)
      else FieldBody(cfg, st, f, commitRelated, FillOptionalFor(st.fill, f.name).value)
  }

  /** A callable the caller supplied is replaced by its result. */
  lemma CallableCalled(cfg: Config, st: BakeState, f: Field, commitRelated: bool)
    requires SkipField(cfg, st, f) == Ok(false)
    requires f.kind != ManyToManyField && !IteratedAttname(st, f)
    requires f.name in st.modelAttrs && st.modelAttrs[f.name].Supplied? && st.modelAttrs[f.name].a.Callable?
    ensures Step(cfg, st, f, commitRelated) == Ok(st.(modelAttrs := st.modelAttrs[f.name := Produced(st.modelAttrs[f.name].a.result)]))
  {
  }

  /**
   * A field left to a generator whose `required` values cannot be collected
   * stops the field loop with that error.
   */
  lemma RequiredErrorStopsStep(cfg: Config, st: BakeState, f: Field, commitRelated: bool, s: Source)
    requires SkipField(cfg, st, f) == Ok(false)
    requires f.kind == OtherField && f.name !in st.modelAttrs
    requires Chosen(cfg, st, f, s) && s != FieldDefault && s != ContentTypeFK
    requires RequiredValues(RequiredOf(cfg, f, s), f.attrs).Err?
    ensures Step(cfg, st, f, commitRelated) == Err(RequiredValues(RequiredOf(cfg, f, s), f.attrs).error)
  {
    GenerateValueChosen(cfg, st, f, commitRelated, s);
  }

  /**
   * An iterator the caller supplied gives its next item, and an exhausted
   * one raises RecipeIteratorEmpty.
   */
  lemma IteratorAdvanced(cfg: Config, st: BakeState, f: Field, commitRelated: bool)
    requires SkipField(cfg, st, f) == Ok(false)
    requires f.kind != ManyToManyField && !IteratedAttname(st, f)
    requires f.name in st.iteratorAttrs
    requires f.name in st.modelAttrs && st.modelAttrs[f.name] == Supplied(Iterator(st.iteratorAttrs[f.name]))
    ensures var items := st.iteratorAttrs[f.name];
            var r := Step(cfg, st, f, commitRelated);
            (items == [] <==> r == Err(RecipeIteratorEmpty(f.name))) &&
            (items != [] ==> r.Ok? && r.value.modelAttrs[f.name] == Produced(items[0]) &&
                             r.value.iteratorAttrs[f.name] == items[1..])
  {
  }

  /** A foreign key whose `attname` was supplied is not generated. */
  lemma AttnameSuppliedNotGenerated(cfg: Config, st: BakeState, f: Field, commitRelated: bool)
    requires IsForeignKey(f.kind) && f.attname.Some? && f.attname.value in st.modelAttrs
    requires f.name !in st.modelAttrs && f.attname.value != f.name
    requires Step(cfg, st, f, commitRelated).Ok?
    ensures f.name !in Step(cfg, st, f, commitRelated).value.modelAttrs
  {
  }

  /** The loop of `_make` over the model's fields, in order; the first error stops it. */
  function RunFields(cfg: Config, st: BakeState, fields: seq<Field>, commitRelated: bool): Result<BakeState, BakeError>
    decreases |fields|
  {
    if fields == [] then Ok(st)
    else
      match Step(cfg, st, fields[0], commitRelated)
      case Err(e) => Err(e)
      case Ok(st') => RunFields(cfg, st', fields[1..], commitRelated)
  }

  predicate DistinctNames(fields: seq<Field>)
  {
    forall i, j :: 0 <= i < j < |fields| ==> fields[i].name != fields[j].name
  }

  /** What keeps a key free of generated values for the rest of the loop. */
  predicate NotGeneratedAt(st: BakeState, fields: seq<Field>, k: string)
  {
    (k in st.modelAttrs ==> !st.modelAttrs[k].Generated?) &&
    (k !in st.modelAttrs ==> forall f :: f in fields ==> f.name != k)
  }

  /**
   * A value the caller supplied is never replaced by a generated one,
   * whatever the loop does with the field (skips included).
   */
  lemma {:induction false} SuppliedNeverGenerated(cfg: Config, st: BakeState, fields: seq<Field>, commitRelated: bool, k: string)
    requires DistinctNames(fields)
    requires NotGeneratedAt(st, fields, k)
    requires RunFields(cfg, st, fields, commitRelated).Ok?
    ensures var st' := RunFields(cfg, st, fields, commitRelated).value;
            k in st'.modelAttrs ==> !st'.modelAttrs[k].Generated?
    decreases |fields|
  {
    if fields != [] {
      var f := fields[0];
      var st1 := Step(cfg, st, f, commitRelated).value;
      assert forall g :: g in fields[1..] ==> g.name != f.name by {
        forall g | g in fields[1..] ensures g.name != f.name {
          var j :| 0 <= j < |fields[1..]| && fields[1..][j] == g;
          assert fields[j + 1] == g;
        }
      }
      assert NotGeneratedAt(st1, fields[1..], k);
      SuppliedNeverGenerated(cfg, st1, fields[1..], commitRelated, k);
    }
  }

  // ---------------------------------------------------------------------
  // `filter_rel_attrs` and `get_required_values`

  /** The key `filter_rel_attrs` gives `k` for field `name`. */
  function RelKey(name: string, k: string): (r: string)
    ensures !StartsWith(k, name + "__") ==> r == k
  {
    if StartsWith(k, name + "__") then
      assert OccursAt(k, "__", |name|);
      AfterDunder(k)
    else k
  }

  /**
   * For a field name without `__` that does not end in `_` (the framework's
   * rule for field names), the rewritten key is the key with the prefix
   * `name__` removed.
   */
  lemma RelKeyDropsPrefix(name: string, k: string)
    requires !Contains(name, "__") && (name == [] || name[|name| - 1] != '_')
    requires StartsWith(k, name + "__")
    ensures k == name + "__" + RelKey(name, k)
  {
    var n := |name|;
    assert k[..n] == name by { assert k[..n] == (name + "__")[..n]; }
    assert OccursAt(k, "__", n) by { assert k[n..n + 2] == (name + "__")[n..n + 2]; }
    forall j | 0 <= j < n ensures !OccursAt(k, "__", j) {
      if j + 1 < n {
        assert k[j..j + 2] == k[..n][j..j + 2] == name[j..j + 2];
        assert !OccursAt(name, "__", j);
      } else {
        assert k[j] == name[n - 1];
      }
    }
    assert Find(k, "__") == n;
  }

  /** `filter_rel_attrs` as a fold over the attributes in dictionary order: later keys win. */
  function FilterRelSpec<V>(name: string, attrs: seq<(string, V)>): map<string, V>
  {
    if attrs == [] then map[]
    else
      var last := attrs[|attrs| - 1];
      FilterRelSpec(name, attrs[..|attrs| - 1])[RelKey(name, last.0) := last.1]
  }

  /** `filter_rel_attrs`: strip the `name__` segment from the keys that carry it. */
  method FilterRelAttrs<V>(name: string, attrs: seq<(string, V)>) returns (clean: map<string, V>)
    ensures clean == FilterRelSpec(name, attrs)
    ensures forall k :: k in clean <==> exists i :: 0 <= i < |attrs| && RelKey(name, attrs[i].0) == k
  {
    clean := map[];
    var i := 0;
    while i < |attrs|
      invariant 0 <= i <= |attrs|
      invariant clean == FilterRelSpec(name, attrs[..i])
    {
      assert attrs[..i + 1][..i] == attrs[..i];
      clean := clean[RelKey(name, attrs[i].0) := attrs[i].1];
      i := i + 1;
    }
    assert attrs[..i] == attrs;
    forall k ensures k in clean <==> exists i :: 0 <= i < |attrs| && RelKey(name, attrs[i].0) == k {
      if k in clean {
        FilterRelFrom(name, attrs, k);
      }
      if exists i :: 0 <= i < |attrs| && RelKey(name, attrs[i].0) == k {
        var i :| 0 <= i < |attrs| && RelKey(name, attrs[i].0) == k;
        FilterRelHas(name, attrs, i);
      }
    }
  }

  lemma {:induction false} FilterRelHas<V>(name: string, attrs: seq<(string, V)>, i: nat)
    requires i < |attrs|
    ensures RelKey(name, attrs[i].0) in FilterRelSpec(name, attrs)
    decreases |attrs|
  {
    var init := attrs[..|attrs| - 1];
    var last := attrs[|attrs| - 1];
    var key := RelKey(name, attrs[i].0);
    assert FilterRelSpec(name, attrs) == FilterRelSpec(name, init)[RelKey(name, last.0) := last.1];
    if i < |init| {
      assert init[i] == attrs[i];
      FilterRelHas(name, init, i);
      assert key in FilterRelSpec(name, init);
    }
  }

  lemma {:induction false} FilterRelFrom<V>(name: string, attrs: seq<(string, V)>, k: string)
    requires k in FilterRelSpec(name, attrs)
    ensures exists i :: 0 <= i < |attrs| && RelKey(name, attrs[i].0) == k
    decreases |attrs|
  {
    var init := attrs[..|attrs| - 1];
    if k != RelKey(name, attrs[|attrs| - 1].0) {
      FilterRelFrom(name, init, k);
      var i :| 0 <= i < |init| && RelKey(name, init[i].0) == k;
      assert attrs[i] == init[i];
    }
  }

  /** The value under a rewritten key is the one from the last attribute giving that key. */
  lemma {:induction false} FilterRelLastWins<V>(name: string, attrs: seq<(string, V)>, i: nat)
    requires i < |attrs|
    requires forall j :: i < j < |attrs| ==> RelKey(name, attrs[j].0) != RelKey(name, attrs[i].0)
    ensures RelKey(name, attrs[i].0) in FilterRelSpec(name, attrs)
    ensures FilterRelSpec(name, attrs)[RelKey(name, attrs[i].0)] == attrs[i].1
    decreases |attrs|
  {
    var init := attrs[..|attrs| - 1];
    if i < |attrs| - 1 {
      assert init[i] == attrs[i];
      forall j | i < j < |init| ensures RelKey(name, init[j].0) != RelKey(name, init[i].0) {
        assert init[j] == attrs[j];
      }
      FilterRelLastWins(name, init, i);
    }
  }

  /** An entry of a generator's `required` list. */
  datatype RequiredItem =
    | AttrName(attr: string)              // a string: `getattr(field, item)`
    | Hook(key: string, value: Val)       // a callable: `key, value = item(field)`
    | WrongType                           // anything else

  /** `get_required_values` for a generator with or without a `required` list. */
  function RequiredValues(required: Option<seq<RequiredItem>>, fieldAttrs: map<string, Val>): Result<map<string, Val>, BakeError>
  {
    if required.None? then Ok(map[]) else RequiredSpec(required.value, fieldAttrs)
  }

  /** `get_required_values` over the items in order; the first failing item raises. */
  function RequiredSpec(items: seq<RequiredItem>, fieldAttrs: map<string, Val>): (r: Result<map<string, Val>, BakeError>)
    ensures r.Err? ==> r.error == RequiredWrongType || r.error.MissingFieldAttribute?
  {
    if items == [] then Ok(map[])
    else
      match RequiredSpec(items[..|items| - 1], fieldAttrs)
      case Err(e) => Err(e)
      case Ok(rt) => RequiredStep(rt, items[|items| - 1], fieldAttrs)
  }

  /** One item of `get_required_values` added to the values collected so far. */
  function RequiredStep(rt: map<string, Val>, item: RequiredItem, fieldAttrs: map<string, Val>): (r: Result<map<string, Val>, BakeError>)
    ensures r.Err? ==> r.error == RequiredWrongType || r.error.MissingFieldAttribute?
  {
    match item
    case AttrName(a) => if a in fieldAttrs then Ok(rt[a := fieldAttrs[a]]) else Err(MissingFieldAttribute(a))
    case Hook(key, value) => Ok(rt[key := value])
    case WrongType => Err(RequiredWrongType)
  }

  predicate ItemOk(item: RequiredItem, fieldAttrs: map<string, Val>)
  {
    match item
    case AttrName(a) => a in fieldAttrs
    case Hook(_, _) => true
    case WrongType => false
  }

  /**
   * `get_required_values`: the keyword arguments a generator asks of a field.
   * A generator without `required` gets none.
   */
  method GetRequiredValues(required: Option<seq<RequiredItem>>, fieldAttrs: map<string, Val>)
    returns (r: Result<map<string, Val>, BakeError>)
    ensures required.None? ==> r == Ok(map[])
    ensures required.Some? ==> r == RequiredSpec(required.value, fieldAttrs)
  {
    if required.None? {
      return Ok(map[]);
    }
    var items := required.value;
    var rt: map<string, Val> := map[];
    var i := 0;
    while i < |items|
      invariant 0 <= i <= |items|
      invariant RequiredSpec(items[..i], fieldAttrs) == Ok(rt)
    {
      assert items[..i + 1][..i] == items[..i];
      assert RequiredSpec(items[..i + 1], fieldAttrs) == RequiredStep(rt, items[i], fieldAttrs);
      match items[i] {
        case AttrName(a) =>
          if a !in fieldAttrs {
            RequiredSpecErrSticky(items, i + 1, fieldAttrs);
            return Err(MissingFieldAttribute(a));
          }
          rt := rt[a := fieldAttrs[a]];
        case Hook(key, value) =>
          rt := rt[key := value];
        case WrongType =>
          RequiredSpecErrSticky(items, i + 1, fieldAttrs);
          return Err(RequiredWrongType);
      }
      i := i + 1;
    }
    assert items[..i] == items;
    return Ok(rt);
  }

  /** Once a prefix of the items fails, the whole list fails the same way. */
  lemma {:induction false} RequiredSpecErrSticky(items: seq<RequiredItem>, j: nat, fieldAttrs: map<string, Val>)
    requires j <= |items| && RequiredSpec(items[..j], fieldAttrs).Err?
    ensures RequiredSpec(items, fieldAttrs) == RequiredSpec(items[..j], fieldAttrs)
    decreases |items|
  {
    if j == |items| {
      assert items[..j] == items;
    } else {
      var init := items[..|items| - 1];
      assert init[..j] == items[..j];
      RequiredSpecErrSticky(init, j, fieldAttrs);
    }
  }

  /** The values are collected exactly when every item is usable, and then hold every named attribute. */
  lemma {:induction false} RequiredSpecOk(items: seq<RequiredItem>, fieldAttrs: map<string, Val>)
    ensures RequiredSpec(items, fieldAttrs).Ok? <==> forall i :: 0 <= i < |items| ==> ItemOk(items[i], fieldAttrs)
    ensures RequiredSpec(items, fieldAttrs).Ok? ==>
              forall i :: 0 <= i < |items| && items[i].AttrName? ==>
                items[i].attr in RequiredSpec(items, fieldAttrs).value
    decreases |items|
  {
    if items != [] {
      var init := items[..|items| - 1];
      RequiredSpecOk(init, fieldAttrs);
      assert forall i :: 0 <= i < |init| ==> init[i] == items[i];
    }
  }

  // ---------------------------------------------------------------------
  // the baker object

  /** A model given by name (looked up by the finder) or by class. */
  datatype ModelRef = ByName(name: string) | ByClass(model: nat)

  /** The result of a module-level `make`/`prepare`. */
  datatype Made = Single(instance: Instance) | Many(instances: seq<Instance>) | BulkCreated(count: nat)

  /** The iterators of a call after a baker has consumed some of their items. */
  function AdvanceIterators(attrs: map<string, Attr>, iterators: map<string, seq<Val>>): (r: map<string, Attr>)
    ensures r.Keys == attrs.Keys
    ensures forall k :: k in attrs && !(attrs[k].Iterator? && k in iterators) ==> r[k] == attrs[k]
    ensures forall k :: k in attrs && attrs[k].Iterator? && k in iterators ==> r[k] == Iterator(iterators[k])
  {
    map k | k in attrs :: if attrs[k].Iterator? && k in iterators then Iterator(iterators[k]) else attrs[k]
  }

  class Baker {
    const model: nat
    const fields: seq<Field>
    const cfg: Config
    var modelAttrs: map<string, Slot>
    var m2mDict: map<string, Slot>
    var iteratorAttrs: map<string, seq<Val>>
    var relAttrs: map<string, Attr>
    var relFields: set<string>
    var fillInOptional: FillOptional

    function State(): BakeState
      reads this
    {
      BakeState(modelAttrs, m2mDict, iteratorAttrs, relAttrs, relFields, fillInOptional)
    }

    method SetState(st: BakeState)
      modifies this
      ensures State() == st
    {
      modelAttrs, m2mDict, iteratorAttrs := st.modelAttrs, st.m2mDict, st.iteratorAttrs;
      relAttrs, relFields, fillInOptional := st.relAttrs, st.relFields, st.fill;
    }

    /** `Baker.__init__` for a model already resolved; `fields` is what `get_fields` returns. */
    constructor (model: nat, fields: seq<Field>, cfg: Config)
      ensures this.model == model && this.fields == fields && this.cfg == cfg
      ensures State() == BakeState(map[], map[], map[], map[], {}, FillBool(false))
    {
      this.model := model;
      this.fields := fields;
      this.cfg := cfg;
      modelAttrs, m2mDict, iteratorAttrs := map[], map[], map[];
      relAttrs, relFields, fillInOptional := map[], {}, FillBool(false);
    }

    /**
     * `_clean_attrs`: record `_fill_optional`, refuse names in it that are not
     * fields, then partition the call attributes.
     */
    method CleanAttrs(attrs: map<string, Attr>, fill: FillOptional) returns (err: Option<BakeError>)
      modifies this
      ensures fillInOptional == fill
      ensures err.Some? <==> WrongFillNames(fill, fields) != {}
      ensures err.Some? ==> err.value == FillOptionalNotRelated(WrongFillNames(fill, fields)) &&
                            State() == old(State()).(fill := fill)
      ensures err.None? ==> State() == Partition(attrs, fill, old(m2mDict))
    {
      fillInOptional := fill;
      var wrong := WrongFillNames(fill, fields);
      if wrong != {} {
        return Some(FillOptionalNotRelated(wrong));
      }
      var st := Partition(attrs, fill, m2mDict);
      iteratorAttrs := st.iteratorAttrs;
      modelAttrs := st.modelAttrs;
      relAttrs := st.relAttrs;
      relFields := st.relFields;
      return None;
    }

    /** One iteration of the field loop in `_make`, updating the baker in place. */
    method ProcessField(f: Field, commitRelated: bool) returns (err: Option<BakeError>)
      modifies this
      ensures err.None? ==> Step(cfg, old(State()), f, commitRelated) == Ok(State())
      ensures err.Some? ==> Step(cfg, old(State()), f, commitRelated) == Err(err.value)
    {
      var skip := SkipField(cfg, State(), f);
      if skip.Err? {
        return Some(skip.error);
      }
      if skip.value {
        return None;
      }
      if f.kind == ManyToManyField {
        err := ProcessM2M(f, FillOptionalFor(fillInOptional, f.name).value);
      } else {
        err := ProcessScalar(f, commitRelated);
      }
    }

    /** The loop body of `_make` for a many-to-many field that is not skipped. */
    method ProcessM2M(f: Field, fillOptional: bool) returns (err: Option<BakeError>)
      requires f.kind == ManyToManyField
      modifies this
      ensures err.None? ==> M2MBody(cfg, old(State()), f, fillOptional) == Ok(State())
      ensures err.Some? ==> M2MBody(cfg, old(State()), f, fillOptional) == Err(err.value)
    {
      if f.name !in modelAttrs {
        var v := M2MValue(cfg, State(), f, fillOptional);
        if v.Err? {
          return Some(v.error);
        }
        m2mDict := m2mDict[f.name := v.value];
      } else if f.name in iteratorAttrs {
        var items := iteratorAttrs[f.name];
        if items == [] {
          return Some(StopIteration);
        }
        iteratorAttrs := iteratorAttrs[f.name := items[1..]];
        modelAttrs := modelAttrs[f.name := Produced(List([items[0]]))];
      } else {
        m2mDict := m2mDict[f.name := modelAttrs[f.name]];
        modelAttrs := modelAttrs - {f.name};
      }
      return None;
    }

    /** The loop body of `_make` for any other field that is not skipped. */
    method ProcessScalar(f: Field, commitRelated: bool) returns (err: Option<BakeError>)
      requires f.kind != ManyToManyField
      modifies this
      ensures err.None? ==> ScalarBody(cfg, old(State()), f, commitRelated) == Ok(State())
      ensures err.Some? ==> ScalarBody(cfg, old(State()), f, commitRelated) == Err(err.value)
    {
      if IteratedAttname(State(), f) {
        var key := f.attname.value;
        var items := iteratorAttrs[key];
        if items == [] {
          return Some(StopIteration);
        }
        iteratorAttrs := iteratorAttrs[key := items[1..]];
        modelAttrs := modelAttrs[key := Produced(items[0])];
      } else if f.name !in modelAttrs {
        if !IsForeignKey(f.kind) || (f.attname.Some? && f.attname.value !in modelAttrs) {
          var g := GenerateValue(cfg, State(), f, commitRelated);
          if g.Err? {
            return Some(g.error);
          }
          modelAttrs := modelAttrs[f.name := Generated(g.value)];
        }
      } else if modelAttrs[f.name].Supplied? && modelAttrs[f.name].a.Callable? {
        modelAttrs := modelAttrs[f.name := Produced(modelAttrs[f.name].a.result)];
      } else if f.name in iteratorAttrs {
        var items := iteratorAttrs[f.name];
        if items == [] {
          return Some(RecipeIteratorEmpty(f.name));
        }
        iteratorAttrs := iteratorAttrs[f.name := items[1..]];
        modelAttrs := modelAttrs[f.name := Produced(items[0])];
      }
      return None;
    }

    /**
     * `_make` up to building the instance: clean the attributes, then run
     * every field through the loop; the instance is built from the final
     * `model_attrs` and `m2m_dict`.
     */
    method MakeInstance(commitRelated: bool, attrs: map<string, Attr>, fill: FillOptional)
      returns (r: Result<Instance, BakeError>)
      modifies this
      ensures WrongFillNames(fill, fields) != {} ==> r == Err(FillOptionalNotRelated(WrongFillNames(fill, fields)))
      ensures WrongFillNames(fill, fields) == {} ==>
                match RunFields(cfg, Partition(attrs, fill, old(m2mDict)), fields, commitRelated)
                case Ok(st) => r == Ok(Instance(st.modelAttrs, st.m2mDict)) && State() == st
                case Err(e) => r == Err(e)
    {
      var err := CleanAttrs(attrs, fill);
      if err.Some? {
        return Err(err.value);
      }
      err := ProcessFields(commitRelated);
      if err.Some? {
        return Err(err.value);
      }
      return Ok(Instance(modelAttrs, m2mDict));
    }

    /** The loop of `_make` over `get_fields()`. */
    method ProcessFields(commitRelated: bool) returns (err: Option<BakeError>)
      modifies this
      ensures err.None? ==> RunFields(cfg, old(State()), fields, commitRelated) == Ok(State())
      ensures err.Some? ==> RunFields(cfg, old(State()), fields, commitRelated) == Err(err.value)
    {
      var i := 0;
      while i < |fields|
        invariant 0 <= i <= |fields|
        invariant RunFields(cfg, old(State()), fields, commitRelated) == RunFields(cfg, State(), fields[i..], commitRelated)
      {
        assert fields[i..][1..] == fields[i + 1..];
        err := ProcessField(fields[i], commitRelated);
        if err.Some? {
          return;
        }
        i := i + 1;
      }
      return None;
    }
  }

  /**
   * Module-level `make` (`commitRelated` true) and `prepare`
   * (`commitRelated` is `_save_related`, `bulk` false): resolve the model,
   * check the quantity, then build one instance or `quantity` of them with
   * the same baker. Iterators are shared between the builds, so each build
   * continues where the previous one stopped.
   */
  method Make(finder: Finder, modelRef: ModelRef, fieldsOf: nat -> seq<Field>, cfg: Config,
              quantity: Val, bulk: bool, commitRelated: bool, attrs: map<string, Attr>, fill: FillOptional)
    returns (r: Result<Made, BakeError>)
    requires finder.Valid()
    modifies finder
    ensures finder.Valid()
    ensures modelRef.ByClass? && InvalidQuantity(quantity) ==> r == Err(InvalidQuantityError)
    ensures r.Ok? ==> !InvalidQuantity(quantity)
    ensures r.Ok? ==> (r.value.Single? <==> quantity == NoneVal)
    ensures r.Ok? && r.value.Many? ==> |r.value.instances| == IntOf(quantity) && !bulk
    ensures r.Ok? && r.value.BulkCreated? ==> r.value.count == IntOf(quantity) && bulk
  {
    var lookup: Result<nat, FinderError>;
    if modelRef.ByName? {
      lookup := finder.GetModel(modelRef.name);
    } else {
      lookup := Ok(modelRef.model);
    }
    var dispatch := MakeDispatch(lookup, quantity, bulk);
    if dispatch.Err? {
      return Err(dispatch.error);
    }
    var baker := new Baker(lookup.value, fieldsOf(lookup.value), cfg);
    match dispatch.value
    case Bulk(n) =>
      r := Ok(BulkCreated(n));
    case One =>
      var one := baker.MakeInstance(commitRelated, attrs, fill);
      if one.Err? {
        return Err(one.error);
      }
      r := Ok(Single(one.value));
    case Several(n) =>
      var made: seq<Instance> := [];
      var current := attrs;
      while |made| < n
        invariant |made| <= n
        invariant finder.Valid()
        decreases n - |made|
      {
        var one := baker.MakeInstance(commitRelated, current, fill);
        if one.Err? {
          return Err(one.error);
        }
        made := made + [one.value];
        current := AdvanceIterators(current, baker.iteratorAttrs);
      }
      r := Ok(Many(made));
  }
}
