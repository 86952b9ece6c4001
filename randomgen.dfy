/**
 * The value generators of model_bakery/random_gen.py whose output has a
 * shape to keep. The random module is not modelled: each generator receives
 * the draws `choice` and `randint` would make, and its precondition states
 * the range those functions guarantee.
 */
module RandomGen {
  import opened Values
  import opened Text

  /** Python's `IndexError` from `choice` on an empty sequence, and the other failures below. */
  datatype GenError =
    | EmptyChoice
    | NoValidators          // `default_validators[0]` on an empty list
    | ProtocolNotText       // `.lower()` on a protocol that is not a string
    | InvalidDecimal(text: string)

  const MaxLength: int := 300

  /** `string.ascii_letters`: `a` to `z`, then `A` to `Z`. */
  const AsciiLetters: string := CharRun('a', 26) + CharRun('A', 26)

  /** The `n` consecutive characters from `first`. */
  function CharRun(first: char, n: nat): (r: string)
    requires first as int + n < 0xD800
    ensures |r| == n && forall i :: 0 <= i < n ==> r[i] == (first as int + i) as char
  {
    seq(n, i requires 0 <= i < n => (first as int + i) as char)
  }

  /** `string.ascii_letters` holds letters only. */
  lemma LettersAreLetters()
    ensures |AsciiLetters| == 52
    ensures forall i :: 0 <= i < |AsciiLetters| ==> IsAsciiLetter(AsciiLetters[i])
  {
    forall i | 0 <= i < |AsciiLetters| ensures IsAsciiLetter(AsciiLetters[i]) {
      if i < 26 {
        assert AsciiLetters[i] == CharRun('a', 26)[i];
      } else {
        assert AsciiLetters[i] == CharRun('A', 26)[i - 26];
      }
    }
  }

  /** `string.ascii_letters + string.digits + "_-"`. */
  const SlugChars: string := AsciiLetters + DecimalDigits + "_-"

  /** The number of iterations of `range(n)`. */
  function RangeCount(n: int): nat
  {
    if n < 0 then 0 else n
  }

  /** `"".join(choice(alphabet) for _ in picks)`, with the positions `choice` drew. */
  function Draw(alphabet: string, picks: seq<nat>): (r: string)
    requires forall i :: 0 <= i < |picks| ==> picks[i] < |alphabet|
    ensures |r| == |picks|
    ensures forall i :: 0 <= i < |r| ==> r[i] in alphabet
  {
    seq(|picks|, i requires 0 <= i < |picks| => alphabet[picks[i]])
  }

  // ---------------------------------------------------------------------
  // gen_from_list and gen_from_choices

  /** Calling the generator `gen_from_list(a_list)` returns: `choice(list(a_list))`. */
  function GenFromList(list: seq<Val>, pick: nat): (r: Result<Val, GenError>)
    requires list != [] ==> pick < |list|
    ensures r.Err? <==> list == []
    ensures r.Ok? ==> r.value in list
  {
    if list == [] then Err(EmptyChoice) else Ok(list[pick])
  }

  /** The label of a choice: text, or a group of `(value, label)` pairs (a list or tuple). */
  datatype Label = Plain(text: Val) | Grouped(options: seq<(Val, Val)>)

  datatype Choice = Choice(value: Val, display: Label)

  /** The candidate values of a choices list: a group gives its inner values, a plain entry its value. */
  function Flattened(choices: seq<Choice>): seq<Val>
  {
    if choices == [] then []
    else
      var last := choices[|choices| - 1];
      Flattened(choices[..|choices| - 1]) +
        match last.display
        case Plain(_) => [last.value]
        case Grouped(options) => OptionValues(options)
  }

  function OptionValues(options: seq<(Val, Val)>): (r: seq<Val>)
    ensures |r| == |options| && forall j :: 0 <= j < |options| ==> r[j] == options[j].0
  {
    seq(|options|, j requires 0 <= j < |options| => options[j].0)
  }

  /** A value some choice offers: the value of a plain entry or of an option inside a group. */
  predicate Offered(choices: seq<Choice>, v: Val)
  {
    exists i :: 0 <= i < |choices| &&
      match choices[i].display
      case Plain(_) => choices[i].value == v
      case Grouped(options) => exists j :: 0 <= j < |options| && options[j].0 == v
  }

  /** The candidate list holds exactly the values the choices offer (labels and group names are dropped). */
  lemma {:induction false} FlattenedOffered(choices: seq<Choice>, v: Val)
    ensures v in Flattened(choices) <==> Offered(choices, v)
    decreases |choices|
  {
    if choices != [] {
      var init := choices[..|choices| - 1];
      var last := choices[|choices| - 1];
      FlattenedOffered(init, v);
      assert forall i :: 0 <= i < |init| ==> init[i] == choices[i];
      if Offered(choices, v) && !Offered(init, v) {
        var i :| 0 <= i < |choices| &&
          match choices[i].display
          case Plain(_) => choices[i].value == v
          case Grouped(options) => exists j :: 0 <= j < |options| && options[j].0 == v;
        assert i == |choices| - 1;
      }
      if v in Flattened(choices) && v !in Flattened(init) {
        assert Offered(choices, v) by {
          match last.display {
            case Plain(_) =>
            case Grouped(options) =>
              var j :| 0 <= j < |options| && OptionValues(options)[j] == v;
          }
        }
      }
    }
  }

  /** The loops of `gen_from_choices` that build `choice_list`. */
  method FlattenChoices(choices: seq<Choice>) returns (choiceList: seq<Val>)
    ensures choiceList == Flattened(choices)
  {
    choiceList := [];
    var i := 0;
    while i < |choices|
      invariant 0 <= i <= |choices|
      invariant choiceList == Flattened(choices[..i])
    {
      assert choices[..i + 1][..i] == choices[..i];
      match choices[i].display {
        case Plain(_) =>
          choiceList := choiceList + [choices[i].value];
        case Grouped(options) =>
          var j := 0;
          var inner := choiceList;
          while j < |options|
            invariant 0 <= j <= |options|
            invariant choiceList == inner + OptionValues(options[..j])
          {
            assert OptionValues(options[..j + 1]) == OptionValues(options[..j]) + [options[j].0];
            choiceList := choiceList + [options[j].0];
            j := j + 1;
          }
          assert options[..j] == options;
      }
      i := i + 1;
    }
    assert choices[..i] == choices;
  }

  /** `gen_from_choices(choices)()`: a value one of the choices offers. */
  method GenFromChoices(choices: seq<Choice>, pick: nat) returns (r: Result<Val, GenError>)
    requires Flattened(choices) != [] ==> pick < |Flattened(choices)|
    ensures r.Err? <==> Flattened(choices) == []
    ensures r.Ok? ==> Offered(choices, r.value)
  {
    var choiceList := FlattenChoices(choices);
    r := GenFromList(choiceList, pick);
    if r.Ok? {
      FlattenedOffered(choices, r.value);
    }
  }

  // ---------------------------------------------------------------------
  // strings, slugs, bytes

  /** `_gen_string_get_max_length`: the field's `max_length`, or `MAX_LENGTH` when it is None or missing. */
  function StringMaxLength(fieldMaxLength: Val): (r: (string, Val))
    ensures r.0 == "max_length"
    ensures fieldMaxLength.NoneVal? ==> r.1 == Int(MaxLength)
    ensures !fieldMaxLength.NoneVal? ==> r.1 == fieldMaxLength
  {
    ("max_length", if fieldMaxLength.NoneVal? then Int(MaxLength) else fieldMaxLength)
  }

  /** `gen_string(max_length)`: `max_length` ASCII letters. */
  function GenString(maxLength: int, picks: seq<nat>): (r: string)
    requires |picks| == RangeCount(maxLength)
    requires forall i :: 0 <= i < |picks| ==> picks[i] < |AsciiLetters|
    ensures |r| == RangeCount(maxLength)
    ensures forall i :: 0 <= i < |r| ==> r[i] in AsciiLetters
  {
    Draw(AsciiLetters, picks)
  }

  /** `gen_slug(max_length)`: `max_length` letters, digits, `_` or `-`. */
  function GenSlug(maxLength: int, picks: seq<nat>): (r: string)
    requires |picks| == RangeCount(maxLength)
    requires forall i :: 0 <= i < |picks| ==> picks[i] < |SlugChars|
    ensures |r| == RangeCount(maxLength)
    ensures forall i :: 0 <= i < |r| ==> r[i] in SlugChars
  {
    Draw(SlugChars, picks)
  }

  newtype byte = x: int | 0 <= x < 256

  /** `gen_byte_string(max_length=16)`: `max_length` bytes drawn by `randint(0, 255)`. */
  function GenByteString(maxLength: int, draws: seq<int>): (r: seq<byte>)
    requires |draws| == RangeCount(maxLength)
    requires forall i :: 0 <= i < |draws| ==> 0 <= draws[i] <= 255
    ensures |r| == RangeCount(maxLength)
    ensures forall i :: 0 <= i < |r| ==> r[i] as int == draws[i]
  {
    seq(|draws|, i requires 0 <= i < |draws| => draws[i] as byte)
  }

  /** `gen_url()`: `http://www.` + 30 letters + `.com/`. */
  function GenUrl(picks: seq<nat>): (r: string)
    requires |picks| == 30 && forall i :: 0 <= i < 30 ==> picks[i] < |AsciiLetters|
    ensures StartsWith(r, "http://www.") && EndsWith(r, ".com/") && |r| == 11 + 30 + 5
    ensures forall i :: 11 <= i < 41 ==> r[i] in AsciiLetters
  {
    var host := GenString(30, picks);
    var r := "http://www." + host + ".com/";
    assert r[..11] == "http://www." && r[41..] == ".com/";
    assert forall i :: 11 <= i < 41 ==> r[i] == host[i - 11];
    r
  }

  /** `gen_email()`: 10 letters + `@example.com`. */
  function GenEmail(picks: seq<nat>): (r: string)
    requires |picks| == 10 && forall i :: 0 <= i < 10 ==> picks[i] < |AsciiLetters|
    ensures Split(r, '@') == [GenString(10, picks), "example.com"]
    ensures |GenString(10, picks)| == 10
  {
    var local := GenString(10, picks);
    var parts := [local, "example.com"];
    LettersAreLetters();
    assert '@' !in local;
    assert Join(parts, '@') == local + "@example.com" by {
      assert parts[1..] == ["example.com"];
    }
    SplitJoin(parts, '@');
    local + "@example.com"
  }

  // ---------------------------------------------------------------------
  // decimals

  /**
   * `gen_decimal(max_digits, decimal_places)`: the text given to `Decimal`,
   * `max(0, max_digits - decimal_places - 1)` digits, a point and
   * `decimal_places` digits; without decimal places, `max_digits` digits.
   */
  function DecimalText(maxDigits: int, decimalPlaces: int, digits: seq<nat>): (r: string)
    requires |digits| == DecimalDigitCount(maxDigits, decimalPlaces)
    requires forall i :: 0 <= i < |digits| ==> digits[i] < 10
    ensures decimalPlaces != 0 ==>
              var left := RangeCount(maxDigits - decimalPlaces - 1);
              |r| == left + 1 + RangeCount(decimalPlaces) && r[left] == '.' &&
              forall i :: 0 <= i < |r| && i != left ==> r[i] in DecimalDigits
    ensures decimalPlaces == 0 ==> |r| == RangeCount(maxDigits) && forall i :: 0 <= i < |r| ==> r[i] in DecimalDigits
  {
    if decimalPlaces != 0 then
      var left := RangeCount(maxDigits - decimalPlaces - 1);
      var r := Draw(DecimalDigits, digits[..left]) + "." + Draw(DecimalDigits, digits[left..]);
      assert forall i :: 0 <= i < left ==> r[i] == Draw(DecimalDigits, digits[..left])[i];
      assert forall i :: left < i < |r| ==> r[i] == Draw(DecimalDigits, digits[left..])[i - left - 1];
      r
    else Draw(DecimalDigits, digits)
  }

  /** How many `randint(0, 9)` draws `gen_decimal` makes. */
  function DecimalDigitCount(maxDigits: int, decimalPlaces: int): nat
  {
    if decimalPlaces != 0 then RangeCount(maxDigits - decimalPlaces - 1) + RangeCount(decimalPlaces)
    else RangeCount(maxDigits)
  }

  /** `Decimal(text)` accepts the text exactly when it holds at least one digit. */
  function GenDecimal(maxDigits: int, decimalPlaces: int, digits: seq<nat>): (r: Result<string, GenError>)
    requires |digits| == DecimalDigitCount(maxDigits, decimalPlaces)
    requires forall i :: 0 <= i < |digits| ==> digits[i] < 10
    ensures r.Err? <==> DecimalDigitCount(maxDigits, decimalPlaces) == 0
    ensures r.Ok? ==> r.value == DecimalText(maxDigits, decimalPlaces, digits)
  {
    var text := DecimalText(maxDigits, decimalPlaces, digits);
    if DecimalDigitCount(maxDigits, decimalPlaces) == 0 then Err(InvalidDecimal(text)) else Ok(text)
  }

  /**
   * For a field with `0 < decimal_places < max_digits` the generated number
   * fits: `decimal_places` digits after the point and fewer than `max_digits`
   * digits in all.
   */
  lemma DecimalFits(maxDigits: int, decimalPlaces: int, digits: seq<nat>)
    requires 0 < decimalPlaces < maxDigits
    requires |digits| == DecimalDigitCount(maxDigits, decimalPlaces)
    requires forall i :: 0 <= i < |digits| ==> digits[i] < 10
    ensures var r := DecimalText(maxDigits, decimalPlaces, digits);
            var point := maxDigits - decimalPlaces - 1;
            0 <= point < |r| && r[point] == '.' && |r| - point - 1 == decimalPlaces && |r| - 1 < maxDigits
  {
  }

  // ---------------------------------------------------------------------
  // IP addresses

  /** `".".join(str(randint(1, 255)) for _ in range(4))`. */
  function GenIpv4(octets: seq<nat>): (r: string)
    requires |octets| == 4 && forall i :: 0 <= i < 4 ==> 1 <= octets[i] <= 255
  {
    Join(Numerals(octets, DecimalDigits), '.')
  }

  /** `":".join(format(randint(1, 65535), "x") for _ in range(8))`. */
  function GenIpv6(groups: seq<nat>): (r: string)
    requires |groups| == 8 && forall i :: 0 <= i < 8 ==> 1 <= groups[i] <= 65535
  {
    Join(Numerals(groups, HexDigits), ':')
  }

  function Numerals(ns: seq<nat>, a: string): (r: seq<string>)
    requires |a| >= 2
    ensures |r| == |ns| && forall i :: 0 <= i < |ns| ==> r[i] == NatToDigits(ns[i], a)
  {
    seq(|ns|, i requires 0 <= i < |ns| => NatToDigits(ns[i], a))
  }

  /**
   * A generated IPv4 address is four dot-separated decimal numerals of one
   * to three digits, without leading zeros, reading back as the drawn octets.
   */
  lemma Ipv4Valid(octets: seq<nat>)
    requires |octets| == 4 && forall i :: 0 <= i < 4 ==> 1 <= octets[i] <= 255
    ensures var parts := Split(GenIpv4(octets), '.');
            |parts| == 4 &&
            forall i :: 0 <= i < 4 ==>
              1 <= |parts[i]| <= 3 && parts[i][0] != '0' &&
              (forall k :: 0 <= k < |parts[i]| ==> parts[i][k] in DecimalDigits) &&
              DigitsToNat(parts[i], DecimalDigits) == octets[i]
  {
    DecimalAlphabet();
    assert Pow(10, 3) == 1000 by {
      assert Pow(10, 1) == 10;
      assert Pow(10, 2) == 100;
    }
    NumeralsParse(octets, DecimalDigits, '.', 3);
  }

  /**
   * A generated IPv6 address is the full form of section 2.2 of RFC 4291:
   * eight colon-separated groups of one to four lowercase hex digits, here
   * without leading zeros, reading back as the drawn numbers.
   */
  lemma Ipv6Valid(groups: seq<nat>)
    requires |groups| == 8 && forall i :: 0 <= i < 8 ==> 1 <= groups[i] <= 65535
    ensures var parts := Split(GenIpv6(groups), ':');
            |parts| == 8 &&
            forall i :: 0 <= i < 8 ==>
              1 <= |parts[i]| <= 4 && parts[i][0] != '0' &&
              (forall k :: 0 <= k < |parts[i]| ==> parts[i][k] in HexDigits) &&
              DigitsToNat(parts[i], HexDigits) == groups[i]
  {
    HexAlphabet();
    assert Pow(16, 4) == 65536 by {
      assert Pow(16, 1) == 16;
      assert Pow(16, 2) == 256;
      assert Pow(16, 3) == 4096;
    }
    NumeralsParse(groups, HexDigits, ':', 4);
  }

  /** Numerals joined by a separator outside the alphabet split back into numerals of the numbers. */
  lemma NumeralsParse(ns: seq<nat>, a: string, sep: char, width: nat)
    requires IsAlphabet(a) && sep !in a && |ns| >= 1 && width >= 1
    requires forall i :: 0 <= i < |ns| ==> 1 <= ns[i] < Pow(|a|, width)
    ensures var parts := Split(Join(Numerals(ns, a), sep), sep);
            |parts| == |ns| &&
            forall i :: 0 <= i < |ns| ==>
              1 <= |parts[i]| <= width && parts[i][0] != a[0] &&
              (forall k :: 0 <= k < |parts[i]| ==> parts[i][k] in a) &&
              DigitsToNat(parts[i], a) == ns[i]
  {
    var parts := Numerals(ns, a);
    assert forall i :: 0 <= i < |parts| ==> sep !in parts[i];
    SplitJoin(parts, sep);
    forall i | 0 <= i < |ns|
      ensures 1 <= |parts[i]| <= width && parts[i][0] != a[0] && DigitsToNat(parts[i], a) == ns[i]
    {
      DigitsLength(ns[i], a, width);
      NoLeadingZero(ns[i], a);
      DigitsRoundTrip(ns[i], a);
    }
  }

  /** The generator `gen_ip` settles on. */
  datatype IpGenerator = Ipv4Gen | Ipv6Gen | Ipv46Gen

  /**
   * The choice `gen_ip(protocol, default_validators)` makes. With no
   * protocol, the field's first validator is tried on an IPv4 and an IPv6
   * sample; `acceptsV4`/`acceptsV6` say whether it accepts them, `None`
   * stands for an empty validator list.
   */
  function IpGeneratorFor(protocol: Val, validator: Option<(bool, bool)>): (r: Result<IpGenerator, GenError>)
    ensures protocol.Str? && Lower(protocol.s) == "ipv4" ==> r == Ok(Ipv4Gen)
    ensures protocol.Str? && Lower(protocol.s) == "ipv6" ==> r == Ok(Ipv6Gen)
    ensures protocol.Str? && protocol.s != "" && Lower(protocol.s) != "ipv4" && Lower(protocol.s) != "ipv6" ==> r == Ok(Ipv46Gen)
    ensures Truthy(protocol) && !protocol.Str? ==> r == Err(ProtocolNotText)
    ensures !Truthy(protocol) && validator.None? ==> r == Err(NoValidators)
    ensures !Truthy(protocol) && validator.Some? ==>
              r == Ok(if validator.value.0 && validator.value.1 then Ipv46Gen
                      else if validator.value.0 then Ipv4Gen
                      else Ipv6Gen)
  {
    if Truthy(protocol) && !protocol.Str? then Err(ProtocolNotText)
    else
      var p := if Truthy(protocol) then Lower(protocol.s) else "";
      if p == "" then
        match validator
        case None => Err(NoValidators)
        case Some((v4, v6)) => Ok(if v4 && v6 then Ipv46Gen else if v4 then Ipv4Gen else Ipv6Gen)
      else if p == "ipv4" then Ok(Ipv4Gen)
      else if p == "ipv6" then Ok(Ipv6Gen)
      else Ok(Ipv46Gen)
  }

  /** Running the chosen generator; `pickV6` is the draw `gen_ipv46` makes between the two. */
  function RunIpGenerator(g: IpGenerator, pickV6: bool, octets: seq<nat>, groups: seq<nat>): (r: string)
    requires |octets| == 4 && forall i :: 0 <= i < 4 ==> 1 <= octets[i] <= 255
    requires |groups| == 8 && forall i :: 0 <= i < 8 ==> 1 <= groups[i] <= 65535
    ensures r == GenIpv4(octets) || r == GenIpv6(groups)
    ensures g.Ipv4Gen? ==> r == GenIpv4(octets)
    ensures g.Ipv6Gen? ==> r == GenIpv6(groups)
  {
    match g
    case Ipv4Gen => GenIpv4(octets)
    case Ipv6Gen => GenIpv6(groups)
    case Ipv46Gen => if pickV6 then GenIpv6(groups) else GenIpv4(octets)
  }

  // ---------------------------------------------------------------------
  // numeric ranges

  /** The range `gen_pg_numbers_range(number_cast)()` builds from `base_num = randint(1, 100000)`. */
  function GenPgNumbersRange(baseNum: int): (r: (int, int))
    requires 1 <= baseNum <= 100000
    ensures r.0 < 0 < r.1 && r.0 == -r.1 && r.1 <= 100000
  {
    (-1 * baseNum, baseNum)
  }
}
