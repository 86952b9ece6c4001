# model_bakery in Dafny

model_bakery builds Django model instances for tests. It fills every field
the caller did not supply with a generated value, follows relations through
recipes, and ships a script that migrates projects from its predecessor,
model_mommy. This project models the decision and data logic of that library
and proves what it promises. Nothing touches a database: a model field is an
abstract record (name, attname, kind, class, default, blank, null,
parent link, choices, content-type foreign key), and a generator is never
called.

Modules:

- `Values` (values.dfy): Python values as the library sees them (`None`,
  bool, int, str, list, date/time, timedelta, opaque objects), with Python
  truthiness, `Option` and `Result`.
- `Text` (text.dfy): the string operations the code relies on.
  - Searches: `find`, `rfind`, `startswith`, `endswith`, `in`.
  - Splitting: `split`/`join` on one character, with their round trip.
  - Case: ASCII `lower`.
  - Numerals: `str(n)` and `format(n, "x")` as digit strings, with
    `int(str(n)) == n` and the injectivity of `str`.
- `Dicts` (dicts.dfy): Python dictionaries as insertion-ordered key/value
  sequences, with `d[k] = v`, `d.update(e)`, `get`, and comprehension filters.
- `ModelFinder` (finder.dfy): `ModelFinder` and `get_model`, the index of
  model names that are unique or ambiguous across apps.
- `Baker` (baker.py model, baker.dfy):
  - quantity checking and the `make`/`prepare` dispatch;
  - `_clean_attrs`;
  - the `_skip_field` table;
  - `m2m_value`;
  - the `generate_value` precedence chain;
  - the per-field loop of `_make`, as a `Baker` class whose map fields the
    loop rewrites;
  - `filter_rel_attrs` and `get_required_values`.
- `Recipes` (recipe.dfy): `Recipe.extend`, the `make`/`prepare` option
  forwarding, `RecipeForeignKey`, `related`, and `Recipe._mapping`, which
  merges recipe attributes with call attributes.
- `Utils` (utils.dfy): `import_from_str`, `_validate_sequence_parameters`, and
  the `seq` generator for int and str values, as a class whose `Next`
  advances a running count.
- `RandomGen` (randomgen.dfy): the value generators whose output has a shape.
  Each generator receives the draws `random.choice`/`random.randint` would
  make; its precondition states the range those functions guarantee.
- `MommyToBakery` (mommy.dfy): the migration script's text and path rules:
  - whole-word replacement in a fixed order;
  - the write/print decision;
  - `.gitignore` sanitising;
  - the rename target;
  - the walk filter.

## Model

| member | source | states |
|---|---|---|
| ModelFinder.BuildIndex | model_bakery/baker.py:261-276 | a lower-case name ends up in the unique table iff exactly one app defines it, and then maps to that app's model; it is in the ambiguous list iff two or more apps define it |
| ModelFinder.AddApp | model_bakery/baker.py:268-274 | one app's names: a name not yet seen is recorded with its model; a name already seen is added to the ambiguous list; earlier entries keep their model |
| ModelFinder.LookupQualified | model_bakery/baker.py:228-230 | `app.model` lookup: finds a model iff an app with that label defines the lower-cased model name, and returns that app's model |
| ModelFinder.Finder.Populate | model_bakery/baker.py:261-279 | stores the index, which then satisfies the unique/ambiguous characterisation |
| ModelFinder.Finder.GetModelByName | model_bakery/baker.py:242-259 | the name is lower-cased; builds the index on first use and keeps it afterwards; AmbiguousModelName iff two or more apps define the name, None iff none does, else the one app's model |
| ModelFinder.Finder.GetModel | model_bakery/baker.py:218-240 | a dotted name with other than two parts fails to unpack; `app.model` is looked up in that app; a bare name is ambiguous iff 2+ apps define it, not found iff none, found iff exactly one, and then the model returned is that app's model |
| Baker.AcceptedQuantities | model_bakery/baker.py:61-62 | `_valid_quantity` is false (the quantity is accepted) exactly for None, ints >= 1 and True |
| Baker.MakeDispatch | model_bakery/baker.py:110-135 | a model lookup error comes first; otherwise an error iff the quantity is invalid; no quantity gives one instance; a valid n gives n, bulk-created iff asked |
| Baker.BeforeDunder | model_bakery/baker.py:549-551 | `k.split("__")[0]`: the prefix of `k` before its first `__`, which itself holds no `__`; the whole key when there is none |
| Baker.AfterDunder | model_bakery/baker.py:740-741 | the text after the first `__`: the key is the prefix, `__`, then the result |
| Baker.Partition | model_bakery/baker.py:546-551 | keys without `__` go to model_attrs (as supplied) and keys with `__` to rel_attrs, disjointly and covering all keys; iterator values go to iterator_attrs; rel_fields are exactly the prefixes before `__` |
| Baker.WrongFillNames | model_bakery/baker.py:536-545 | for a `_fill_optional` list, the names that are no field of the model; none otherwise |
| Baker.FillOptionalFor | model_bakery/baker.py:557-560 | a bool (True or False) is used as is, a list by membership, a string by substring; a value that supports no `in` raises |
| Baker.SkipField | model_bakery/baker.py:553-602 | skipped iff the kind-based rule applies (file without create_files; parent link, auto, generic relation or `_order` unless its attname is iterated), or the field is not given, not related, not filled optionally and is either optional outside attr_mapping or null |
| Baker.SuppliedNotSkipped | model_bakery/baker.py:580-602 | a field the caller supplied is skipped only by the kind-based rule |
| Baker.RequiredNotSkipped | model_bakery/baker.py:580-602 | a required field (a real Field with no default, not blank, not null) is never skipped unless by kind |
| Baker.FillAllSkipsOnlyStructural | model_bakery/baker.py:557-602 | with `_fill_optional=True` only the kind-based skips remain |
| Baker.RelatedNotSkipped | model_bakery/baker.py:580-600 | a field named by a `__` attribute is not skipped as optional or null |
| Baker.GenerateValue | model_bakery/baker.py:653-701 | the source used is the first available one in the order default (unless related), attr_mapping, choices, content-type FK, user registry, type_mapping; TypeError iff none is available; a missing ContentType generator raises; a callable default is called; `prepare` is used iff not committing; related kwargs are passed iff the field is in rel_fields; a generator is called with the values `get_required_values` collects for it |
| Baker.GenerateValueChosen | model_bakery/baker.py:671-701 | once a generator source is picked, its required values are collected and either their ValueError or AttributeError is raised or the generator is called with them |
| Baker.CallGenerator | model_bakery/baker.py:693-701 | a generator call fails only with the ValueError or AttributeError of `get_required_values` |
| Baker.ChosenUnique | model_bakery/baker.py:671-688 | the elif chain picks at most one generator source |
| Baker.M2MValue | model_bakery/baker.py:485-490 | the empty list iff the field is not related and make_m2m is off or the field is null and not filled optionally; otherwise the committed generated value or its error |
| Baker.NextItem | model_bakery/baker.py:436-450 | `next` on a stored iterator: its first item, with the rest left in the iterator; exhausted iff it has no items |
| Baker.M2MBody | model_bakery/baker.py:432-441 | a many-to-many field touches only its own name, in model_attrs and m2m_dict, and adds no generated value to model_attrs; the iterators keep their keys, and rel_fields, rel_attrs and `_fill_optional` are unchanged |
| Baker.ScalarBody | model_bakery/baker.py:443-468 | any other field touches only its name and attname in model_attrs, and a generated value appears only under its name where nothing was |
| Baker.Step | model_bakery/baker.py:428-468 | one field: only the field's name and attname change in model_attrs, only its name in m2m_dict; a generated value appears only under the field's name where nothing was before |
| Baker.RequiredErrorStopsStep | model_bakery/baker.py:693 | a field left to a generator whose required values cannot be collected ends the field loop with that ValueError or AttributeError |
| Baker.CallableCalled | model_bakery/baker.py:460-461 | a supplied callable is replaced by its result and nothing else changes |
| Baker.IteratorAdvanced | model_bakery/baker.py:462-468 | a supplied iterator gives its next item and advances; an exhausted one raises RecipeIteratorEmpty |
| Baker.AttnameSuppliedNotGenerated | model_bakery/baker.py:451-459 | a foreign key whose attname was supplied gets no generated value |
| Baker.SuppliedNeverGenerated | model_bakery/baker.py:428-468 | over the whole field loop, a key holding a supplied (non-generated) value never ends up generated, skipped fields included |
| Baker.RelKey | model_bakery/baker.py:739-744 | keys that do not start with `name__` pass through unchanged |
| Baker.RelKeyDropsPrefix | model_bakery/baker.py:739-742 | for a field name without `__` that does not end in `_`, a key `name__x` becomes `x` |
| Baker.FilterRelAttrs | model_bakery/baker.py:735-746 | equals the in-order fold of the rewrites; its keys are exactly the rewritten keys of the input |
| Baker.FilterRelLastWins | model_bakery/baker.py:738-744 | when two keys rewrite to the same key, the later one's value is kept |
| Baker.RequiredSpec | model_bakery/baker.py:715-730 | the only errors are the ValueError for an item of wrong type and the AttributeError for a missing field attribute |
| Baker.GetRequiredValues | model_bakery/baker.py:704-732 | no `required` gives no kwargs; otherwise the in-order fold of the items, where a missing attribute or an item of wrong type raises |
| Baker.RequiredSpecOk | model_bakery/baker.py:715-730 | the kwargs are collected iff every item is usable, and then every named attribute is present |
| Baker.Baker.constructor | model_bakery/baker.py:340-354 | a fresh baker has empty model_attrs, m2m_dict, iterator_attrs, rel_attrs and rel_fields |
| Baker.Baker.CleanAttrs | model_bakery/baker.py:530-551 | records `_fill_optional`; raises (listing the wrong names) iff a list names non-fields, leaving the other fields unchanged; otherwise the state is the partition of the attributes, m2m_dict kept |
| Baker.Baker.ProcessField | model_bakery/baker.py:429-468 | updates the fields in place to exactly the state (or error) of the per-field step |
| Baker.Baker.ProcessM2M | model_bakery/baker.py:432-441 | updates the baker in place to exactly the state (or error) of the many-to-many branch |
| Baker.Baker.ProcessScalar | model_bakery/baker.py:443-468 | updates the baker in place to exactly the state (or error) of the branch for any other field |
| Baker.Baker.ProcessFields | model_bakery/baker.py:428-468 | the loop over the fields ends in exactly the state, or the first error, of the fold of the steps |
| Baker.Baker.MakeInstance | model_bakery/baker.py:423-471 | wrong `_fill_optional` names raise; otherwise the instance is built from the model_attrs and m2m_dict the loop leaves, or the loop's error |
| Baker.Make | model_bakery/baker.py:110-135 | module `make`/`prepare`: success implies a valid quantity; one instance iff no quantity; otherwise exactly n instances, or a bulk creation of n iff bulk |
| Recipes.Extend | model_bakery/recipe.py:175-178 | same model; each key holds the new attribute if given, the old one otherwise; keys are the union |
| Recipes.ExtendTwice | model_bakery/recipe.py:175-178 | extending by a then b equals extending once by a updated with b |
| Recipes.NewRecipeForeignKey | model_bakery/recipe.py:201-206 | accepted iff the argument is a Recipe, which it keeps with one_to_one; otherwise "Not a recipe" |
| Recipes.Resolve | model_bakery/recipe.py:191-195 | a recipe is kept; a name missing from the calling module raises AttributeError; a name bound to a falsy value raises RecipeNotFound, and otherwise its binding is returned; anything else is not a recipe |
| Recipes.NewRelated | model_bakery/recipe.py:233-245 | the list of resolved arguments in order, or the first argument's error |
| Recipes.RelatedSpecOk | model_bakery/recipe.py:233-245 | `related` accepts its arguments iff each resolves, and keeps them one for one, in order |
| Recipes.RelatedMake | model_bakery/recipe.py:247-249 | one result per related recipe, in order |
| Recipes.OptionsGiven | model_bakery/recipe.py:122-134 | each option appears in the defaults iff it was given, with its value, and no other key appears |
| Recipes.MakeDefaults | model_bakery/recipe.py:122-137 | option keys hold the given options, every other key the call's attribute |
| Recipes.PrepareDefaults | model_bakery/recipe.py:164-170 | `_save_related` always present, `_quantity` iff given, other keys from the call |
| Recipes.RangeLen | model_bakery/recipe.py:66-69 | `range(_quantity)` accepts ints and bools only; an int n gives max(0, n) items, True one and False none |
| Recipes.ClaimantBefore | model_bakery/recipe.py:56-61 | the first foreign-key recipe attribute (not supplied by the call) whose `k__` prefixes the key |
| Recipes.Process | model_bakery/recipe.py:46-79 | a foreign key gets a plan with its claimed attributes prefix-stripped, made iff `_save_related`, cycled over `_quantity` distinct objects iff also one_to_one is True, else one object; a container is deep-copied; errors only from `range` |
| Recipes.Base | model_bakery/recipe.py:41-79 | each recipe key holds its entry: kept if the call supplies it, processed otherwise |
| Recipes.ProcessEntry | model_bakery/recipe.py:56-79 | a foreign key takes the `k__` attributes out of the pass-through and hands them to its plan |
| Recipes.WalkStep | model_bakery/recipe.py:42-79 | one turn of the loop preserves the loop invariant; it fails iff that entry fails |
| Recipes.WalkRecipe | model_bakery/recipe.py:42-79 | the loop yields the processed recipe mapping and the unclaimed `__` attributes, or fails iff some entry fails |
| Recipes.Mapping | model_bakery/recipe.py:34-83 | equals the mapping specification: processed recipe entries, updated by the plain call attributes, then by the unclaimed `__` attributes |
| Recipes.MappingGet | model_bakery/recipe.py:81-83 | lookup precedence: unclaimed `__` attribute, then plain call attribute, then recipe entry |
| Recipes.CallTimeWins | model_bakery/recipe.py:40-45 | a plain call attribute always beats the recipe's |
| Recipes.ClaimedNotPassed | model_bakery/recipe.py:59-61 | a `k__x` attribute claimed by a foreign key does not reach the baker |
| Recipes.RecipeEntryUsed | model_bakery/recipe.py:42-79 | a recipe attribute not supplied by the call holds its processed entry; a container is a fresh copy |
| Utils.ImportFromStr | model_bakery/utils.py:16-33 | a non-string is returned as is; a string without `.` fails to unpack; otherwise it is split at its last `.` and a model found in the registry wins over the module attribute; a string is never returned as is |
| Utils.ImportRegistryHit | model_bakery/utils.py:22-28 | a dotted string whose part before the last `.` is an app label defining the lower-cased part after it gives that registry model |
| Utils.ValidateSequenceParameters | model_bakery/utils.py:103-121 | a truthy non-string suffix, or a suffix with a non-string value, raises; a date/time value needs a timedelta increment; the warning is issued iff the value is date/time and start is truthy |
| Utils.Element | model_bakery/utils.py:95-100 | an int element is value plus the counter; a str element is the value, then `str(counter)`, then the suffix if any |
| Utils.NthIntStep | model_bakery/utils.py:96-100 | the first int element is value + (start or increment), and successive elements differ by the increment |
| Utils.ElementInjective | model_bakery/utils.py:96-100 | two different counter values always give two different yielded values, for int and for str (with or without suffix) |
| Utils.NthDistinct | model_bakery/utils.py:96-100 | with a non-zero increment, no two elements are equal |
| Utils.Sequence.constructor | model_bakery/utils.py:52-74 | creating the generator runs nothing |
| Utils.Sequence.Next | model_bakery/utils.py:74-100 | the first `next` validates (an error finishes the generator); the k-th call yields the k-th element; a finished generator raises StopIteration |
| RandomGen.GenFromList | model_bakery/random_gen.py:49-60 | fails iff the list is empty; otherwise the value is a member of the list |
| RandomGen.FlattenedOffered | model_bakery/random_gen.py:66-73 | a value is a candidate iff some plain entry or some group option offers it |
| RandomGen.FlattenChoices | model_bakery/random_gen.py:66-73 | the loop builds exactly the flattened candidate list |
| RandomGen.GenFromChoices | model_bakery/random_gen.py:66-74 | fails iff there is no candidate; a value is always one the choices offer |
| RandomGen.StringMaxLength | model_bakery/random_gen.py:116-120 | `("max_length", n)`, with n the field's max_length or 300 when it is None |
| RandomGen.GenString | model_bakery/random_gen.py:112-113 | exactly max(0, max_length) ASCII letters |
| RandomGen.GenSlug | model_bakery/random_gen.py:126-128 | exactly max(0, max_length) characters from letters, digits, `_` and `-` |
| RandomGen.GenByteString | model_bakery/random_gen.py:199-201 | exactly max(0, max_length) bytes, each the drawn 0..255 value |
| RandomGen.GenUrl | model_bakery/random_gen.py:146-147 | `http://www.` + 30 letters + `.com/` |
| RandomGen.GenEmail | model_bakery/random_gen.py:150-151 | splits at `@` into exactly the 10-letter name and `example.com` |
| RandomGen.DecimalText | model_bakery/random_gen.py:86-94 | with decimal places: integer digits, `.`, then exactly decimal_places digits; without: max_digits digits |
| RandomGen.GenDecimal | model_bakery/random_gen.py:85-94 | an invalid Decimal iff no digit is drawn at all, otherwise the decimal text |
| RandomGen.DecimalFits | model_bakery/random_gen.py:89-92 | with 0 < places < max_digits the point follows max_digits - places - 1 digits, exactly decimal_places digits come after it, and fewer than max_digits digits are drawn in all |
| RandomGen.Ipv4Valid | model_bakery/random_gen.py:158-159 | four `.`-separated decimal numerals without leading zero, each parsing back to its octet in 1..255 |
| RandomGen.Ipv6Valid | model_bakery/random_gen.py:154-155 | eight `:`-separated lower-case hex groups of 1 to 4 digits, no leading zero, each parsing back to its value in 1..ffff |
| RandomGen.IpGeneratorFor | model_bakery/random_gen.py:167-191 | a protocol lower-casing to "ipv4"/"ipv6" picks that generator, another non-empty one picks either; an empty one asks the first validator; no validator raises |
| RandomGen.RunIpGenerator | model_bakery/random_gen.py:162-164 | the address is an IPv4 or an IPv6 one, fixed when the generator is |
| RandomGen.GenPgNumbersRange | model_bakery/random_gen.py:327-337 | lower = -upper, with lower < 0 < upper <= 100000 |
| MommyToBakery.SubnCounts | utils/from_mommy_to_bakery.py:37-39 | the scan substitutes at least once iff the word occurs whole somewhere |
| MommyToBakery.SubnNoneKeeps | utils/from_mommy_to_bakery.py:37-39 | with no substitution the text is returned as it was |
| MommyToBakery.FindChanges | utils/from_mommy_to_bakery.py:37-39 | changed iff the pattern occurs as a whole word; unchanged content when not |
| MommyToBakery.RewriteUnchanged | utils/from_mommy_to_bakery.py:58-64 | if no pattern changed anything, the content after all three passes is the original |
| MommyToBakery.ReplaceLegacyTerms | utils/from_mommy_to_bakery.py:53-68 | an undecodable file is left alone; the patterns apply in order; the file is written (or its path printed in a dry run) iff some pattern changed it |
| MommyToBakery.StripBounds | utils/from_mommy_to_bakery.py:72 | only whitespace is cut at either end and none remains there |
| MommyToBakery.Sanitize | utils/from_mommy_to_bakery.py:71-76 | the stripped text, less one trailing `/` if it has one |
| MommyToBakery.SanitizeOneSlash | utils/from_mommy_to_bakery.py:73-75 | only one trailing slash goes: `.tox//` becomes `.tox/` |
| MommyToBakery.RenameTarget | utils/from_mommy_to_bakery.py:46-48 | the path up to its last `/`, then `/baker_recipes.py`; with no `/` the last character is dropped (rfind gives -1) |
| MommyToBakery.RenameInPlace | utils/from_mommy_to_bakery.py:45-48 | a recipe file found by the walk is renamed inside its own directory |
| MommyToBakery.ExcludeList | utils/from_mommy_to_bakery.py:80-86 | the fixed exclusions followed by each `.gitignore` line sanitised |
| MommyToBakery.PruneDirs | utils/from_mommy_to_bakery.py:90 | the directories kept are exactly those not excluded |
| MommyToBakery.PruneDirsOrder | utils/from_mommy_to_bakery.py:90 | pruning keeps the walk's order |
| MommyToBakery.ScanFiles | utils/from_mommy_to_bakery.py:92-99 | a path is processed iff its file is not excluded and ends in `.py`; exactly `root/mommy_recipes.py` is collected for renaming when that file is there |

## Left out

- Persistence: saving instances, `Baker.instance`, `_handle_one_to_many`, `_handle_m2m`, `create_by_related_name`, `bulk_create`, `refresh_from_db`, `_from_manager` and `_using` all call Django's ORM; a bulk creation is recorded only by its count.
- Django reflection: `get_fields`, `get_related`, `isinstance` on field classes, `has_default` and `remote_field` are replaced by the field record. `get_fields` returns a set, so its order is unspecified; the model walks fields in a given order.
- `rel_fields` is a list in the source and a set here; only membership is ever used.
- Baker.GenerateValue: returns which source wins and how it would be called (its keyword arguments included), not the value; generators are random or call into the database. Which generator a source gives for a field is an input: its `required` list is looked up by source and field name.
- Baker.Make: a callable attribute and a callable field default are modelled by one fixed result, so with `_quantity` above 1 every instance gets the same result where the source calls the callable afresh for each instance.
- Baker.Make: states the quantity error outright only for a model given by class; for a name the finder runs first and its outcome is stated by `GetModel`. It does not restate the instances' contents, which `MakeInstance` states.
- `generators.py`, `content_types.py` and `gis.py` are static tables from Django classes to generators; the user registry and `type_mapping` are sets of field classes here.
- `_custom_baker_class`, `init_type_mapping`, the module import in `import_from_str` and `get_calling_module` are interpreter machinery; the calling module is a name-to-binding map, and an imported module attribute is returned as a description.
- Recipe iterator backups (`itertools.tee` and the `objects.exists()` query): an iterator attribute's usable copy is its remaining items.
- The model lookup `_mapping` makes for an iterator attribute only feeds the backups and is not modelled.
- `itertools.cycle` over one-to-one related objects is recorded as a flag on the related plan.
- `copy.deepcopy`: object identity is not modelled, so a copy is marked as fresh rather than compared by identity.
- `Recipe.make`/`prepare` then call `baker.make`/`prepare`; that call is `Baker.Make` and is not chained here.
- Random numbers: each generator takes the draws as inputs; seeding is not modelled.
- Floating point and dates: `gen_float`, GIS, float and Decimal values (the Decimal is kept as its text), and the date/time branch of `seq`.
- Clock and I/O generators (`now`, `gen_interval`, date ranges, `gen_content_type`, file and image fields) and the recursive generators `gen_related`/`gen_m2m`.
- `gen_pg_numbers_range` is modelled for integer ranges; `number_cast` is the identity.
- `gen_ip`'s field validator is given as its two answers (accepts the IPv4 probe, accepts the IPv6 probe).
- `seq` is modelled for int and str values only.
- `lower` is ASCII only.
- The migration script's regular expressions use ASCII word characters for `\b`, where Python also counts Unicode letters and digits.
- The migration script's `open`, `os.walk`, `os.rename`, `print` and argument parsing are I/O; the walk's in-place `dirs[:]` assignment is a returned list here.
