/**
 * Record values, field-or-function expressions, and the two PHP casts the
 * report writer applies to them: `(string)` for group keys and `(float)` for
 * aggregates.
 */
module Values {

  /** A field value of a record.  Objects are known only by their identity. */
  datatype Value = Null | Bool(b: bool) | Int(i: int) | Str(s: string) | Obj(id: nat)

  /** A record is an associative array from field name to value. */
  type Record = map<string, Value>

  /**
   * A key or aggregate expression: a field name, or a callable, which is
   * modelled as a total pure function of the record.
   */
  datatype Expr = Field(name: string) | Extractor(f: Record -> Value)

  /** `$record[$name] ?? null`: a missing field reads as null. */
  function Lookup(rec: Record, name: string): Value {
    if name in rec then rec[name] else Null
  }

  /** Applies an expression to a record: call the callable, or read the field. */
  function Eval(e: Expr, rec: Record): Value {
    match e
    case Field(name) => Lookup(rec, name)
    case Extractor(f) => f(rec)
  }

  /** A value of a group context, of a band, or of a calculation. */
  datatype Datum =
    | DNull
    | DRecord(rec: Record)
    | DRecords(recs: seq<Record>)
    | DNumber(x: real)
    | DInt(n: int)
    | DValue(v: Value)
    | DInternal   // an engine-internal entry (aggregate objects, closures)

  // ---------------------------------------------------------------------------
  // (string) cast and object identity

  function DigitChar(d: nat): char
    requires d < 10
  {
    "0123456789"[d]
  }

  predicate IsDigit(c: char) {
    '0' <= c <= '9'
  }

  /** Decimal representation of a natural number, without leading zeros. */
  function NatToString(n: nat): (s: string)
    ensures |s| > 0
    ensures forall i :: 0 <= i < |s| ==> IsDigit(s[i])
    decreases n
  {
    if n < 10 then [DigitChar(n)] else NatToString(n / 10) + [DigitChar(n % 10)]
  }

  /** `(string)$i` for an integer. */
  function IntToString(i: int): string {
    if i < 0 then "-" + NatToString(-i) else NatToString(i)
  }

  function HexDigits(n: nat, width: nat): (s: string)
    ensures |s| == width
  {
    if width == 0 then "" else HexDigits(n / 16, width - 1) + ["0123456789abcdef"[n % 16]]
  }

  /**
   * `spl_object_hash`: a 32-character hexadecimal identity token.  The
   * per-process mask PHP mixes into it is not modelled.
   */
  function IdentityToken(id: nat): (t: string)
    ensures |t| == 32
  {
    HexDigits(id, 32)
  }

  /** The group key of a value: an object's identity token, otherwise `(string)$value`. */
  function KeyString(v: Value): string {
    match v
    case Null => ""
    case Bool(b) => if b then "1" else ""
    case Int(i) => IntToString(i)
    case Str(s) => s
    case Obj(id) => IdentityToken(id)
  }

  // ---------------------------------------------------------------------------
  // (float) cast

  predicate IsSpace(c: char) {
    c == ' ' || c == '\t' || c == '\n' || c == '\r' || c == '\U{000B}' || c == '\U{000C}'
  }

  function SkipSpace(s: string): string {
    if |s| > 0 && IsSpace(s[0]) then SkipSpace(s[1..]) else s
  }

  /** The length of the run of decimal digits that starts `s`. */
  function DigitRun(s: string): (n: nat)
    ensures n <= |s|
    ensures forall i :: 0 <= i < n ==> IsDigit(s[i])
    ensures n < |s| ==> !IsDigit(s[n])
  {
    if |s| > 0 && IsDigit(s[0]) then 1 + DigitRun(s[1..]) else 0
  }

  function DigitValue(c: char): nat
    requires IsDigit(c)
  {
    c as int - '0' as int
  }

  /** The integer a string of digits denotes. */
  function DigitsValue(ds: string): nat
    requires forall i :: 0 <= i < |ds| ==> IsDigit(ds[i])
  {
    if ds == [] then 0 else DigitsValue(ds[..|ds| - 1]) * 10 + DigitValue(ds[|ds| - 1])
  }

  /** The value of the digits after a decimal point. */
  function FractionValue(ds: string): real
    requires forall i :: 0 <= i < |ds| ==> IsDigit(ds[i])
  {
    if ds == [] then 0.0 else (DigitValue(ds[0]) as real + FractionValue(ds[1..])) / 10.0
  }

  /** Digits, optionally followed by a point and more digits. */
  function UnsignedPrefix(t: string): real {
    var n := DigitRun(t);
    var whole := DigitsValue(t[..n]) as real;
    if n < |t| && t[n] == '.' then
      var rest := t[n + 1..];
      whole + FractionValue(rest[..DigitRun(rest)])
    else
      whole
  }

  /** `(float)$s`: the leading numeric part of a string, 0 when there is none. */
  function NumericPrefix(s: string): real {
    var t := SkipSpace(s);
    if |t| > 0 && t[0] == '-' then -UnsignedPrefix(t[1..])
    else if |t| > 0 && t[0] == '+' then UnsignedPrefix(t[1..])
    else UnsignedPrefix(t)
  }

  /** `(float)$value`.  Converting an object yields 1.0 (with a PHP warning). */
  function ToReal(v: Value): real {
    match v
    case Null => 0.0
    case Bool(b) => if b then 1.0 else 0.0
    case Int(i) => i as real
    case Str(s) => NumericPrefix(s)
    case Obj(_) => 1.0
  }

  // ---------------------------------------------------------------------------
  // Agreement of the two casts

  lemma {:induction false} DigitsValueOfNatToString(n: nat)
    ensures DigitsValue(NatToString(n)) == n
    decreases n
  {
    var s := NatToString(n);
    if n >= 10 {
      DigitsValueOfNatToString(n / 10);
      assert s[..|s| - 1] == NatToString(n / 10);
    }
  }

  lemma NatStringParses(n: nat)
    ensures NumericPrefix(NatToString(n)) == n as real
  {
    var s := NatToString(n);
    assert SkipSpace(s) == s;
    DigitsValueOfNatToString(n);
    assert s[..|s|] == s;
  }

  /** The group key of an integer, cast back to a number, is that integer. */
  lemma IntKeyParses(i: int)
    ensures ToReal(Str(KeyString(Int(i)))) == i as real
  {
    if i < 0 {
      var s := NatToString(-i);
      var t := "-" + s;
      assert SkipSpace(t) == t;
      assert t[1..] == s;
      NatStringParses(-i);
      assert UnsignedPrefix(s) == (-i) as real;
    } else {
      NatStringParses(i);
    }
  }
}
