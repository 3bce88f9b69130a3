/** The decoded JSON values a record or a report arrives as. A number with
    a fraction is kept as the decimal it was written as. */
module Json {
  import opened Wrappers
  import opened Text

  /** `units / 10^scale`. */
  datatype Decimal = Decimal(units: int, scale: nat)

  datatype Value =
    | Null
    | Bool(b: bool)
    | Int(i: int)
    | Num(d: Decimal)
    | Str(s: string)
    | Arr(elems: seq<Value>)
    | Obj(members: seq<Member>)

  datatype Member = Member(key: string, value: Value)

  /** The value stored under `key` in a decoded object, whose keys are distinct. */
  function Lookup(members: seq<Member>, key: string): (r: Option<Value>)
    ensures r.Some? ==> Member(key, r.value) in members
    ensures r.None? ==> forall m :: m in members ==> m.key != key
  {
    if members == [] then None
    else if members[0].key == key then Some(members[0].value)
    else Lookup(members[1..], key)
  }

  /** `str(type(v))` for the Python object the JSON value decodes to. */
  function TypeName(v: Value): string
  {
    match v
    case Null => "<class 'NoneType'>"
    case Bool(_) => "<class 'bool'>"
    case Int(_) => "<class 'int'>"
    case Num(_) => "<class 'float'>"
    case Str(_) => "<class 'str'>"
    case Arr(_) => "<class 'list'>"
    case Obj(_) => "<class 'dict'>"
  }

  /** Whether a decimal is zero, which is when a Python number is falsy. */
  predicate IsZero(d: Decimal) { d.units == 0 }

  /** The decimal in fixed-point notation with at least one fractional digit,
      which is how `str(float)` writes numbers of moderate size. */
  function RenderDecimal(d: Decimal): string
  {
    var magnitude: nat := if d.units < 0 then -d.units else d.units;
    (if d.units < 0 then "-" else "") + NatToString(WholePart(magnitude, d.scale)) + "."
      + FractionDigits(FractionPart(magnitude, d.scale), d.scale)
  }

  /** `magnitude / 10^scale`, one decimal digit at a time. */
  function WholePart(magnitude: nat, scale: nat): nat
  {
    if scale == 0 then magnitude else WholePart(magnitude / 10, scale - 1)
  }

  function FractionPart(magnitude: nat, scale: nat): nat
  {
    magnitude % Pow10(scale)
  }

  function FractionDigits(fraction: nat, scale: nat): string
  {
    if scale == 0 || fraction == 0 then "0" else TrimZeros(PadNat(fraction, scale))
  }

  function TrimZeros(s: string): string
  {
    if |s| > 1 && s[|s| - 1] == '0' then TrimZeros(s[..|s| - 1]) else s
  }

  /** `str(v)` for the Python object the JSON value decodes to; containers
      are abbreviated. */
  function Render(v: Value): string
  {
    match v
    case Null => "None"
    case Bool(b) => if b then "True" else "False"
    case Int(i) => IntToString(i)
    case Num(d) => RenderDecimal(d)
    case Str(s) => s
    case Arr(_) => "[...]"
    case Obj(_) => "{...}"
  }
}
