/**
 * model_bakery/utils.py: `import_from_str`, the `seq` generator and the
 * checks it makes on its parameters.
 */
module Utils {
  import opened Values
  import opened Text

  // ---------------------------------------------------------------------
  // import_from_str

  /** The argument of `import_from_str`: a dotted string, or any other object. */
  datatype Importable = Dotted(s: string) | Object(v: Val)

  /**
   * What `import_from_str` returns: a model found in the app registry, the
   * attribute `name` of module `path` (imported by the interpreter), or the
   * argument itself.
   */
  datatype Imported = RegistryModel(model: nat) | ModuleAttribute(path: string, name: string) | Unchanged(v: Val)

  /** `rsplit(".", 1)` unpacked into two names raises ValueError when there is no dot. */
  datatype ImportError = NotEnoughValuesToUnpack(s: string)

  /**
   * `import_from_str`, with `apps.all_models` given as a map from app label
   * to the app's models by lower-case name.
   */
  function ImportFromStr(x: Importable, allModels: map<string, map<string, nat>>): (r: Result<Imported, ImportError>)
    ensures x.Object? ==> r == Ok(Unchanged(x.v))
    ensures x.Dotted? ==> (r.Err? <==> '.' !in x.s)
    ensures x.Dotted? && r.Ok? ==> !r.value.Unchanged?
    ensures r.Ok? && r.value.ModuleAttribute? ==>
              x.Dotted? && x.s == r.value.path + "." + r.value.name && '.' !in r.value.name &&
              !(r.value.path in allModels && Lower(r.value.name) in allModels[r.value.path])
    ensures r.Ok? && r.value.RegistryModel? ==>
              x.Dotted? &&
              (exists i :: 0 <= i < |x.s| && x.s[i] == '.' && '.' !in x.s[i + 1..] &&
                 x.s[..i] in allModels && Lower(x.s[i + 1..]) in allModels[x.s[..i]] &&
                 allModels[x.s[..i]][Lower(x.s[i + 1..])] == r.value.model)
  {
    match x
    case Object(v) => Ok(Unchanged(v))
    case Dotted(s) =>
      var i := RFind(s, '.');
      if i == -1 then Err(NotEnoughValuesToUnpack(s))
      else
        var path, name := s[..i], s[i + 1..];
        assert s == path + "." + name;
        if path in allModels && Lower(name) in allModels[path] then Ok(RegistryModel(allModels[path][Lower(name)]))
        else Ok(ModuleAttribute(path, name))
  }

  /** The last occurrence of a character is the one `RFind` returns. */
  lemma LastOccurrence(s: string, c: char, i: nat)
    requires i < |s| && s[i] == c && c !in s[i + 1..]
    ensures RFind(s, c) == i
  {
  }

  /**
   * A dotted string whose part before the last dot is an app label defining
   * the lower-cased part after it gives that registry model.
   */
  lemma ImportRegistryHit(s: string, allModels: map<string, map<string, nat>>, i: nat)
    requires i < |s| && s[i] == '.' && '.' !in s[i + 1..]
    requires s[..i] in allModels && Lower(s[i + 1..]) in allModels[s[..i]]
    ensures ImportFromStr(Dotted(s), allModels) == Ok(RegistryModel(allModels[s[..i]][Lower(s[i + 1..])]))
  {
    LastOccurrence(s, '.', i);
  }

  // ---------------------------------------------------------------------
  // _validate_sequence_parameters

  datatype SeqError =
    | SuffixNotString       // "Sequences suffix can only be a string"
    | SuffixNeedsText       // "Sequences with suffix can only be used with text values"
    | IncrementNotTimedelta // date/time values need a timedelta increment
    | StopIteration         // `next()` on a generator that has already raised

  /**
   * `_validate_sequence_parameters`: `Ok(warned)`, where `warned` says that
   * the "start parameter is ignored" warning was issued.
   */
  function ValidateSequenceParameters(value: Val, incrementBy: Val, start: Val, suffix: Val): (r: Result<bool, SeqError>)
    ensures r.Ok? <==> (Truthy(suffix) ==> suffix.Str? && value.Str?) && (value.Temporal? ==> incrementBy.Timedelta?)
    ensures r == Err(SuffixNotString) <==> Truthy(suffix) && !suffix.Str?
    ensures r == Err(SuffixNeedsText) <==> Truthy(suffix) && suffix.Str? && !value.Str?
    ensures r.Ok? ==> (r.value <==> value.Temporal? && Truthy(start))
  {
    if Truthy(suffix) && !suffix.Str? then Err(SuffixNotString)
    else if Truthy(suffix) && !value.Str? then Err(SuffixNeedsText)
    else if value.Temporal? && !incrementBy.Timedelta? then Err(IncrementNotTimedelta)
    else Ok(value.Temporal? && Truthy(start))
  }

  // ---------------------------------------------------------------------
  // seq for int and str values

  /** The parameters `seq` accepts for an int or str value once validated. */
  predicate SeqParams(value: Val, suffix: Val)
  {
    (value.Int? || value.Str?) && (Truthy(suffix) ==> suffix.Str? && value.Str?)
  }

  /** The first counter value: `start or increment_by`. */
  function FirstCount(incrementBy: int, start: Option<int>): int
  {
    if start.Some? && start.value != 0 then start.value else incrementBy
  }

  /** The element `seq` yields for counter value `n`. */
  function Element(value: Val, n: int, suffix: Val): (r: Val)
    requires SeqParams(value, suffix)
    ensures value.Int? ==> r.Int? && r.i - value.i == n
    ensures value.Str? ==> r.Str? && StartsWith(r.s, value.s)
    ensures value.Str? && Truthy(suffix) ==> EndsWith(r.s, suffix.s)
    ensures value.Str? ==>
              var tail := if Truthy(suffix) then suffix.s else "";
              |value.s| + |tail| <= |r.s| && r.s[|value.s|..|r.s| - |tail|] == IntToStr(n)
  {
    if Truthy(suffix) then
      var r := value.s + IntToStr(n) + suffix.s;
      assert r[..|value.s|] == value.s && r[|r| - |suffix.s|..] == suffix.s;
      assert r[|value.s|..|r| - |suffix.s|] == IntToStr(n);
      Str(r)
    else if value.Int? then Int(value.i + n)
    else
      var r := value.s + IntToStr(n);
      assert r[..|value.s|] == value.s && r[|value.s|..|r| - 0] == IntToStr(n);
      Str(r)
  }

  /** The `k`-th value (from 0) of `seq(value, increment_by, start, suffix)`. */
  function Nth(value: Val, incrementBy: int, start: Option<int>, suffix: Val, k: nat): Val
    requires SeqParams(value, suffix)
  {
    Element(value, FirstCount(incrementBy, start) + k * incrementBy, suffix)
  }

  /** Successive int values differ by the increment. */
  lemma NthIntStep(value: Val, incrementBy: int, start: Option<int>, k: nat)
    requires value.Int? && SeqParams(value, NoneVal)
    ensures Nth(value, incrementBy, start, NoneVal, 0).i == value.i + FirstCount(incrementBy, start)
    ensures Nth(value, incrementBy, start, NoneVal, k + 1).i - Nth(value, incrementBy, start, NoneVal, k).i == incrementBy
  {
  }

  /** Distinct counter values give distinct elements. */
  lemma ElementInjective(value: Val, n: int, m: int, suffix: Val)
    requires SeqParams(value, suffix) && n != m
    ensures Element(value, n, suffix) != Element(value, m, suffix)
  {
    if value.Str? && Element(value, n, suffix) == Element(value, m, suffix) {
      var tail := if Truthy(suffix) then suffix.s else "";
      var r := Element(value, n, suffix).s;
      assert IntToStr(n) == r[|value.s|..|r| - |tail|] == IntToStr(m);
      IntToStrInjective(n, m);
    }
  }

  /** With a non-zero increment `seq` never repeats a value. */
  lemma NthDistinct(value: Val, incrementBy: int, start: Option<int>, suffix: Val, j: nat, k: nat)
    requires SeqParams(value, suffix) && incrementBy != 0 && j != k
    ensures Nth(value, incrementBy, start, suffix, j) != Nth(value, incrementBy, start, suffix, k)
  {
    var first := FirstCount(incrementBy, start);
    var a, b := first + j * incrementBy, first + k * incrementBy;
    MulNonZero(j - k, incrementBy);
    assert a - b == (j - k) * incrementBy;
    ElementInjective(value, a, b, suffix);
  }

  lemma MulNonZero(x: int, y: int)
    requires x != 0 && y != 0
    ensures x * y != 0
  {
  }

  /** The state of the generator object `seq(...)` returns. */
  datatype GenState = NotStarted | Running(produced: nat) | Finished

  /**
   * The generator `seq(value, increment_by, start, suffix)` for an int or
   * str value: nothing runs until the first `next()`, which validates the
   * parameters; a generator that raised is finished.
   */
  class Sequence {
    const value: Val
    const incrementBy: int
    const start: Option<int>
    const suffix: Val
    var state: GenState

    /** A running generator has passed validation. */
    predicate Valid()
      reads this
    {
      (value.Int? || value.Str?) && (state.Running? ==> Validation().Ok?)
    }

    constructor (value: Val, incrementBy: int, start: Option<int>, suffix: Val)
      requires value.Int? || value.Str?
      ensures this.value == value && this.incrementBy == incrementBy
      ensures this.start == start && this.suffix == suffix
      ensures state == NotStarted && Valid()
    {
      this.value := value;
      this.incrementBy := incrementBy;
      this.start := start;
      this.suffix := suffix;
      state := NotStarted;
    }

    function Validation(): Result<bool, SeqError>
      reads this
    {
      ValidateSequenceParameters(value, Int(incrementBy), if start.Some? then Int(start.value) else NoneVal, suffix)
    }

    /** `next()`: the next value of the running count, or the error raised. */
    method Next() returns (r: Result<Val, SeqError>)
      requires Valid()
      modifies this
      ensures Valid()
      ensures old(state).Finished? ==> r == Err(StopIteration) && state == Finished
      ensures old(state).NotStarted? && Validation().Err? ==> r == Err(Validation().error) && state == Finished
      ensures (old(state).Running? || (old(state).NotStarted? && Validation().Ok?)) ==>
                var k := if old(state).Running? then old(state).produced else 0;
                SeqParams(value, suffix) && r == Ok(Nth(value, incrementBy, start, suffix, k)) && state == Running(k + 1)
    {
      var k := 0;
      match state {
        case Finished =>
          return Err(StopIteration);
        case NotStarted =>
          var v := Validation();
          if v.Err? {
            state := Finished;
            return Err(v.error);
          }
        case Running(produced) =>
          k := produced;
      }
      assert SeqParams(value, suffix) by {
        assert Validation().Ok?;
      }
      var n := FirstCount(incrementBy, start) + k * incrementBy;
      if Truthy(suffix) {
        r := Ok(Str(value.s + IntToStr(n) + suffix.s));
      } else if value.Int? {
        r := Ok(Int(value.i + n));
      } else {
        r := Ok(Str(value.s + IntToStr(n)));
      }
      state := Running(k + 1);
    }
  }
}
