/**
 * The JavaScript values that the SDK passes around as plain objects: settings,
 * user parameters, error records, styles. Numbers are integers (NaN and
 * fractions are not modelled); objects are finite maps from property names to
 * values.
 */
module Json {

  datatype Option<+T> = None | Some(value: T) {
    function GetOr(default: T): T {
      match this
      case Some(v) => v
      case None => default
    }
  }

  datatype Value =
    | Undefined
    | Null
    | Bool(b: bool)
    | Num(n: int)
    | Str(s: string)
    | Arr(items: seq<Value>)
    | Obj(props: map<string, Value>)
    | Fn(id: nat)

  /** JavaScript truthiness: undefined, null, false, 0 and '' are falsy. */
  predicate Truthy(v: Value) {
    match v
    case Undefined => false
    case Null => false
    case Bool(b) => b
    case Num(n) => n != 0
    case Str(s) => s != ""
    case _ => true
  }

  /** `a || b` */
  function Or(a: Value, b: Value): Value {
    if Truthy(a) then a else b
  }

  /** `obj[key]` on a plain object: undefined when the key is absent. */
  function Lookup(m: map<string, Value>, key: string): Value {
    if key in m then m[key] else Undefined
  }

  /**
   * Property read `v.key`. Reading a property of undefined or null throws a
   * TypeError (None); a primitive has none of the properties read here.
   */
  function Prop(v: Value, key: string): Option<Value> {
    match v
    case Undefined => None
    case Null => None
    case Obj(p) => Some(Lookup(p, key))
    case _ => Some(Undefined)
  }

  /** Optional chaining `v?.key`: undefined when v is undefined or null. */
  function OptionalProp(v: Value, key: string): Value {
    Prop(v, key).GetOr(Undefined)
  }

  function DigitChar(d: nat): (c: char)
    requires d < 10
    ensures c as int == '0' as int + d
  {
    "0123456789"[d]
  }

  /** `String(n)` for an integer. */
  function DecimalString(n: int): (r: string)
    decreases if n < 0 then -n + 1 else n
  {
    if n < 0 then "-" + DecimalString(-n)
    else if n < 10 then [DigitChar(n)]
    else DecimalString(n / 10) + [DigitChar(n % 10)]
  }

  lemma {:induction false} DecimalStringOfNatHasDigitsOnly(n: nat)
    ensures |DecimalString(n)| >= 1
    ensures forall i :: 0 <= i < |DecimalString(n)| ==> '0' <= DecimalString(n)[i] <= '9'
    ensures n < 10 <==> |DecimalString(n)| == 1
  {
    if n >= 10 {
      DecimalStringOfNatHasDigitsOnly(n / 10);
    }
  }

  /** Distinct naturals print differently, so index keys never collide. */
  lemma {:induction false} DecimalStringInjective(a: nat, b: nat)
    requires DecimalString(a) == DecimalString(b)
    ensures a == b
  {
    DecimalStringOfNatHasDigitsOnly(a);
    DecimalStringOfNatHasDigitsOnly(b);
    if a >= 10 && b >= 10 {
      var sa, sb := DecimalString(a), DecimalString(b);
      assert sa[|sa| - 1] == sb[|sb| - 1];
      assert DigitChar(a % 10) == DigitChar(b % 10);
      assert sa[..|sa| - 1] == sb[..|sb| - 1];
      assert DecimalString(a / 10) == DecimalString(b / 10);
      DecimalStringInjective(a / 10, b / 10);
    } else if a < 10 && b < 10 {
      assert DigitChar(a) == DecimalString(a)[0];
    }
  }
}
