/**
 The values that encoding/json decodes into an `interface{}` when UseNumber is on.
 A string is the sequence of its bytes, one `char` a byte, so that `|s|` is Go's `len(s)`.
 */
module JsonValues {
  import opened Basics

  /** `Int` is a number literal without fraction or exponent (or a Go `int`);
      `Dec` is any other number literal (or a Go `float64`), as the number it denotes. */
  datatype Json =
    | Null
    | Bool(b: bool)
    | Int(i: int)
    | Dec(d: real)
    | Str(s: string)
    | List(items: seq<Json>)
    | Obj(fields: map<string, Json>)

  /** json.Number.Float64 on a literal, in exact arithmetic. */
  function ToReal(n: Json): real
    requires n.Int? || n.Dec?
  {
    if n.Int? then n.i as real else n.d
  }

  /** How json.Marshal writes a float64: without fraction or exponent exactly when
      the number is whole and below 1e21. */
  function FloatLiteral(r: real): (n: Json)
    ensures n.Int? || n.Dec?
    ensures ToReal(n) == r
  {
    if r == r.Floor as real && -1000000000000000000000.0 < r < 1000000000000000000000.0
    then Int(r.Floor)
    else Dec(r)
  }

  /** fmt.Sprintf("%d", n) */
  function Decimal(n: nat): (s: string)
    ensures |s| > 0
  {
    var digit := ["0123456789"[n % 10]];
    if n < 10 then digit else Decimal(n / 10) + digit
  }

  /** A nonempty string of digits. */
  predicate IsNumeral(s: string) {
    |s| > 0 && forall i | 0 <= i < |s| :: '0' <= s[i] <= '9'
  }

  /** The number a string of digits denotes, read from the left. */
  function ReadNumeral(s: string): nat
    requires forall i | 0 <= i < |s| :: '0' <= s[i] <= '9'
  {
    if s == "" then 0 else 10 * ReadNumeral(s[..|s| - 1]) + (s[|s| - 1] as int - '0' as int)
  }

  lemma {:induction false} DecimalReadsBack(n: nat)
    ensures IsNumeral(Decimal(n)) && ReadNumeral(Decimal(n)) == n
  {
    var s := Decimal(n);
    DigitReadsBack(n % 10);
    if n < 10 {
      assert s[..|s| - 1] == "";
    } else {
      DecimalReadsBack(n / 10);
      assert s[..|s| - 1] == Decimal(n / 10);
    }
  }

  lemma DigitReadsBack(n: nat)
    requires n < 10
    ensures "0123456789"[n] as int == '0' as int + n
  {
  }

  lemma DecimalInjective(a: nat, b: nat)
    requires Decimal(a) == Decimal(b)
    ensures a == b
  {
    DecimalReadsBack(a);
    DecimalReadsBack(b);
  }
}
