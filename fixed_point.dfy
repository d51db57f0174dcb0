/** The six-decimal fixed-point conversion the service applies at the chain
    boundary: `parseUnits(x, 6)` turns a human-readable amount into the
    contract's integer micro-units and `formatUnits(n, 6)` turns micro-units
    back into a human-readable amount.

    A human-readable amount is modelled by the value its decimal text
    denotes: a sign, a whole part and at most six fractional digits, held as
    a count of micro-units below one.  Its rendering as text is not modelled.
 */
module FixedPoint {

  /** 10^6: micro-units per whole unit, for the six fractional digits the
      fund contract uses. */
  const Scale: nat := 1_000_000

  /** The fractional digits of an amount, as micro-units below one. */
  type Micros = m: nat | m < Scale

  /** The value of a decimal text such as "-12.5" or "1000.000001". */
  datatype Decimal = Decimal(negative: bool, whole: nat, micros: Micros) {
    /** The one spelling of each value: zero carries no minus sign. */
    predicate Canonical() {
      negative ==> whole > 0 || micros > 0
    }
  }

  function Abs(n: int): nat {
    if n < 0 then -n else n
  }

  /** `parseUnits(d, 6)`: the integer count of micro-units `d` denotes. */
  function ParseUnits(d: Decimal): (n: int)
    ensures Abs(n) == d.whole * Scale + d.micros
    ensures n < 0 ==> d.negative
    ensures d.Canonical() && d.negative ==> n < 0
  {
    var magnitude := d.whole * Scale + d.micros;
    if d.negative then -magnitude else magnitude
  }

  /** `formatUnits(n, 6)`: the decimal denoted by `n` micro-units.  No
      precision is lost: parsing the result gives `n` back. */
  function FormatUnits(n: int): (d: Decimal)
    ensures d.Canonical()
    ensures d.negative <==> n < 0
    ensures ParseUnits(d) == n
  {
    var a := Abs(n);
    Decimal(n < 0, a / Scale, a % Scale)
  }

  /** The other direction of the round trip: formatting the micro-units of
      a canonical decimal gives the same decimal back. */
  lemma FormatParse(d: Decimal)
    requires d.Canonical()
    ensures FormatUnits(ParseUnits(d)) == d
  {
  }

  /** Parsing is injective on canonical decimals: two different canonical
      amounts never reach the chain as the same integer. */
  lemma ParseInjective(d1: Decimal, d2: Decimal)
    requires d1.Canonical() && d2.Canonical()
    requires ParseUnits(d1) == ParseUnits(d2)
    ensures d1 == d2
  {
    FormatParse(d1);
    FormatParse(d2);
  }
}
