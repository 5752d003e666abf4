/** JSON values as they sit in a resource's data file, and Python's `str()`
    of them: the handler finds a record by comparing `str(record.get('id'))`
    with the id taken from the URL path. */
module Json {

  datatype Value =
    | Null
    | Bool(b: bool)
    | Int(i: int)
    | Str(s: string)
      /** A float, array or object, carried with its Python `str()` text. */
    | Other(text: string)

  /** A JSON object: field name to value. */
  type Record = map<string, Value>

  /** A parsed request body: a JSON object, or any other JSON document. */
  datatype Document = Object(fields: Record) | NonObject

  function DigitChar(d: nat): (c: char)
    requires d < 10
    ensures '0' <= c <= '9'
    ensures c as int - '0' as int == d
  {
    ('0' as int + d) as char
  }

  predicate IsDigits(s: string) {
    forall k :: 0 <= k < |s| ==> '0' <= s[k] <= '9'
  }

  /** The decimal text of `n`, most significant digit first. */
  function NatText(n: nat): (s: string)
    ensures IsDigits(s)
    ensures |s| >= 1
    ensures |s| == 1 <==> n < 10
    ensures s[0] == '0' ==> n == 0
    decreases n
  {
    if n < 10 then [DigitChar(n)] else NatText(n / 10) + [DigitChar(n % 10)]
  }

  /** Python's `str()` of an int: a minus sign for negatives, then the digits. */
  function IntText(n: int): (s: string)
    ensures |s| >= 1
    ensures s[0] == '-' <==> n < 0
    ensures n >= 0 ==> IsDigits(s)
  {
    if n < 0 then "-" + NatText(-n) else NatText(n)
  }

  /** Python's `str()` of a JSON value once loaded: `None`, `True`/`False`,
      decimal integers, strings as themselves. */
  function Render(v: Value): (s: string)
    ensures v.Int? ==> s == IntText(v.i)
    ensures v.Str? ==> s == v.s
    ensures v.Int? ==> s != "None" && s != "True" && s != "False"
    ensures s == "None" ==> v.Null? || v.Str? || v.Other?
  {
    match v
    case Null => "None"
    case Bool(b) => if b then "True" else "False"
    case Int(i) => IntText(i)
    case Str(s) => s
    case Other(t) => t
  }

  /** `str(record.get('id'))`: a record without an `id` field reads as `None`. */
  function IdText(r: Record): (s: string)
    ensures "id" !in r ==> s == "None"
    ensures "id" in r && r["id"].Int? ==> s == IntText(r["id"].i)
  {
    if "id" in r then Render(r["id"]) else "None"
  }

  /** Two naturals with the same decimal text are equal. */
  lemma {:induction false} NatTextInjective(a: nat, b: nat)
    requires NatText(a) == NatText(b)
    ensures a == b
    decreases a
  {
    if a >= 10 && b >= 10 {
      var sa, sb := NatText(a / 10), NatText(b / 10);
      assert NatText(a) == sa + [DigitChar(a % 10)];
      assert NatText(b) == sb + [DigitChar(b % 10)];
      assert |sa| == |sb|;
      assert sa == NatText(a)[..|sa|] == NatText(b)[..|sb|] == sb;
      assert DigitChar(a % 10) == NatText(a)[|sa|] == NatText(b)[|sb|] == DigitChar(b % 10);
      NatTextInjective(a / 10, b / 10);
    } else if a < 10 && b < 10 {
      assert DigitChar(a) == NatText(a)[0] == NatText(b)[0] == DigitChar(b);
    }
  }

  /** `str()` of integers is injective: a path id names at most one integer id. */
  lemma {:induction false} IntTextInjective(a: int, b: int)
    requires IntText(a) == IntText(b)
    ensures a == b
  {
    if a < 0 {
      assert b < 0;
      assert NatText(-a) == IntText(a)[1..] == IntText(b)[1..] == NatText(-b);
      NatTextInjective(-a, -b);
    } else {
      assert b >= 0;
      NatTextInjective(a, b);
    }
  }
}
