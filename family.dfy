/**
  The family-library entities: family metadata, its parameters, parameter default
  values as far as their `ToString()` is observed, the search criteria and the
  errors the repositories raise.
 */
module Family {
  import opened Wrappers

  /** A `DateTime`; only compared for equality, so kept opaque as a tick count. */
  datatype Timestamp = Timestamp(ticks: int)

  /** A parameter's `object? DefaultValue`, by the runtime kinds the tests store in it. */
  datatype Value =
    | IntValue(i: int)
    | StringValue(s: string)
    | BoolValue(b: bool)
    | OtherValue(text: string)  // any other object, by the text its ToString() yields

  function Digit(d: nat): char
    requires d < 10
  {
    "0123456789"[d]
  }

  /** Decimal text of a natural number, without sign or leading zeros. */
  function NatToString(n: nat): (r: string)
    ensures |r| >= 1
    ensures n < 10 <==> |r| == 1
    ensures forall i :: 0 <= i < |r| ==> '0' <= r[i] <= '9'
    ensures r[0] == '0' <==> n == 0
  {
    if n < 10 then [Digit(n)] else NatToString(n / 10) + [Digit(n % 10)]
  }

  /** The value of a decimal digit character. */
  function DigitValue(c: char): nat
    requires '0' <= c <= '9'
  {
    (c as int - '0' as int) as nat
  }

  /** The number a string of decimal digits denotes. */
  function ParseNat(s: string): nat
    requires forall i :: 0 <= i < |s| ==> '0' <= s[i] <= '9'
  {
    if s == [] then 0 else ParseNat(s[..|s| - 1]) * 10 + DigitValue(s[|s| - 1])
  }

  /** Reading the decimal text back gives the number it was made from. */
  lemma {:induction false} NatToStringParses(n: nat)
    ensures ParseNat(NatToString(n)) == n
  {
    if n < 10 {
      DigitValueOfDigit(n);
    } else {
      var r := NatToString(n);
      assert r[..|r| - 1] == NatToString(n / 10);
      DigitValueOfDigit(n % 10);
      NatToStringParses(n / 10);
      assert n == (n / 10) * 10 + n % 10;
    }
  }

  lemma DigitValueOfDigit(d: nat)
    requires d < 10
    ensures DigitValue(Digit(d)) == d
  {
  }

  /** `DefaultValue.ToString()` (invariant culture). */
  function Render(v: Value): string {
    match v
    case IntValue(i) => if i < 0 then "-" + NatToString(-i) else NatToString(i)
    case StringValue(s) => s
    case BoolValue(b) => if b then "True" else "False"
    case OtherValue(text) => text
  }

  /** A family parameter (name, type, unit, required flag, description, default value). */
  datatype Parameter = Parameter(
    name: string,
    paramType: string,
    unit: Option<string>,
    required: bool,
    description: Option<string>,
    defaultValue: Option<Value>)

  /**
    The parameter dictionary, as its entries in enumeration order. The dictionary is
    built once and never edited, so its enumeration order is its insertion order,
    which `FamilyMetadataMapper.ToDTO` carries into the DTO's parameter list.
   */
  type Parameters = seq<(string, Parameter)>

  /** The dictionary's keys are distinct. */
  predicate UniqueKeys(ps: Parameters) {
    forall i, j :: 0 <= i < j < |ps| ==> ps[i].0 != ps[j].0
  }

  /** `ContainsKey(key)` with the default (ordinal) string comparer. */
  predicate HasKey(ps: Parameters, key: string) {
    exists i :: 0 <= i < |ps| && ps[i].0 == key
  }

  /** The dictionary's `Values`, in enumeration order. */
  function Values(ps: Parameters): (r: seq<Parameter>)
    ensures |r| == |ps|
    ensures forall i :: 0 <= i < |ps| ==> r[i] == ps[i].1
  {
    seq(|ps|, i requires 0 <= i < |ps| => ps[i].1)
  }

  /** Family metadata; `tags` and `parameters` are references that may be null. */
  datatype FamilyMetadata = FamilyMetadata(
    id: string,
    name: string,
    category: string,
    tags: Option<seq<string>>,
    parameters: Option<Parameters>,
    description: Option<string>,
    previewImagePath: Option<string>,
    createdBy: Option<string>,
    lastModified: Timestamp)

  /** The multi-field search criteria; every field may be null. */
  datatype FamilySearchCriteria = FamilySearchCriteria(
    nameKeyword: Option<string>,
    category: Option<string>,
    tags: Option<seq<string>>,
    parameterName: Option<string>,
    parameterValue: Option<string>)

  /** The exceptions the repositories and search services throw. */
  datatype RepositoryError =
    | ArgumentNull
    | NullReference
    | InvalidOperation(message: string)
    | Unauthorized(message: string)

  /** The caller roles of the role-checking repository. */
  datatype UserRole = Admin | User | ReadOnly
}
