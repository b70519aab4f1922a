/** JSON values as the handlers see them after `request.json()`, documents as
    key/value maps, the decimal rendering of numbers used in generated keys,
    and JavaScript's object spread `{...v}`. */
module Json {
  import opened Options

  /** A JSON value. Numbers are exact reals: the double-precision rounding of
      JavaScript numbers is not modelled. */
  datatype Json =
    | JNull
    | JBool(b: bool)
    | JNum(n: real)
    | JStr(s: string)
    | JArr(items: seq<Json>)
    | JObj(fields: map<string, Json>)

  /** A stored document: a flat JSON object. Property order is not modelled. */
  type Doc = map<string, Json>

  predicate IsDigit(c: char) {
    '0' <= c <= '9'
  }

  function DigitChar(d: nat): (c: char)
    requires d < 10
    ensures IsDigit(c)
    ensures c as int - '0' as int == d
  {
    "0123456789"[d]
  }

  /** A canonical decimal numeral: non-empty, digits only, no leading zero
      unless it is the numeral `0` itself. */
  predicate IsCanonicalDecimal(s: string) {
    && |s| >= 1
    && (forall i :: 0 <= i < |s| ==> IsDigit(s[i]))
    && (|s| == 1 || s[0] != '0')
  }

  /** The base-10 rendering JavaScript produces for a non-negative integer
      (as in the template literal `${Date.now()}`). */
  function Decimal(n: nat): (s: string)
    ensures IsCanonicalDecimal(s)
    ensures n < 10 <==> |s| == 1
  {
    if n < 10 then [DigitChar(n)] else Decimal(n / 10) + [DigitChar(n % 10)]
  }

  /** Reads a string of digits back as a number; `None` when the string is
      empty or contains anything but digits. */
  function ParseDecimal(s: string): (r: Option<nat>)
    ensures r.Some? <==> |s| >= 1 && forall i :: 0 <= i < |s| ==> IsDigit(s[i])
  {
    if |s| == 0 then None
    else
      var last := s[|s| - 1];
      if !IsDigit(last) then None
      else
        var d := last as int - '0' as int;
        if |s| == 1 then Some(d)
        else
          match ParseDecimal(s[..|s| - 1])
          case None => None
          case Some(p) => Some(10 * p + d)
  }

  /** Parsing undoes rendering. */
  lemma {:induction false} ParseDecimalOfDecimal(n: nat)
    ensures ParseDecimal(Decimal(n)) == Some(n)
  {
    var s := Decimal(n);
    if n >= 10 {
      ParseDecimalOfDecimal(n / 10);
      assert s[..|s| - 1] == Decimal(n / 10);
    }
  }

  /** Rendering is injective: two readings with the same numeral are equal. */
  lemma DecimalInjective(m: nat, n: nat)
    ensures Decimal(m) == Decimal(n) ==> m == n
  {
    ParseDecimalOfDecimal(m);
    ParseDecimalOfDecimal(n);
  }

  /** A numeral with a non-zero leading digit denotes a positive number. */
  lemma {:induction false} LeadingDigitPositive(s: string)
    requires |s| >= 1 && s[0] != '0'
    requires ParseDecimal(s).Some?
    ensures ParseDecimal(s).value > 0
  {
    if |s| > 1 {
      LeadingDigitPositive(s[..|s| - 1]);
    }
  }

  /** Rendering undoes parsing on canonical numerals, so `Decimal` is a
      bijection between naturals and canonical numerals. */
  lemma {:induction false} DecimalOfParseDecimal(s: string)
    requires IsCanonicalDecimal(s)
    ensures ParseDecimal(s).Some? && Decimal(ParseDecimal(s).value) == s
  {
    if |s| > 1 {
      var init := s[..|s| - 1];
      assert IsCanonicalDecimal(init);
      DecimalOfParseDecimal(init);
      LeadingDigitPositive(init);
      var p := ParseDecimal(init).value;
      var d := s[|s| - 1] as int - '0' as int;
      var n := 10 * p + d;
      assert 0 <= d < 10;
      assert n / 10 == p && n % 10 == d;
      assert Decimal(n) == Decimal(p) + [DigitChar(d)];
      assert DigitChar(d) == s[|s| - 1];
      assert s == init + [s[|s| - 1]];
    }
  }

  /** The own enumerable keys of a spread value with `len` elements:
      the numerals of 0 .. len-1. */
  function IndexKeys(len: nat): set<string> {
    set i | 0 <= i < len :: Decimal(i)
  }

  /** The object `{...vals}` for an array `vals`: element `i` under the key
      that is the numeral of `i`. */
  function IndexMap(vals: seq<Json>): Doc {
    if |vals| == 0 then map[]
    else IndexMap(vals[..|vals| - 1])[Decimal(|vals| - 1) := vals[|vals| - 1]]
  }

  /** The indexed object has exactly the index keys. */
  lemma {:induction false} IndexMapKeys(vals: seq<Json>)
    ensures IndexMap(vals).Keys == IndexKeys(|vals|)
  {
    if |vals| > 0 {
      var n := |vals| - 1;
      IndexMapKeys(vals[..n]);
      assert IndexKeys(|vals|) == IndexKeys(n) + {Decimal(n)} by {
        forall k | k in IndexKeys(|vals|)
          ensures k in IndexKeys(n) + {Decimal(n)}
        {
          var i :| 0 <= i < |vals| && k == Decimal(i);
          if i < n {
            assert k in IndexKeys(n);
          }
        }
      }
    }
  }

  /** Each index key of the indexed object holds its element. */
  lemma {:induction false} IndexMapLookup(vals: seq<Json>)
    ensures forall i :: 0 <= i < |vals| ==> Decimal(i) in IndexMap(vals) && IndexMap(vals)[Decimal(i)] == vals[i]
  {
    if |vals| > 0 {
      var n := |vals| - 1;
      var init := vals[..n];
      IndexMapLookup(init);
      forall i | 0 <= i < |vals|
        ensures Decimal(i) in IndexMap(vals) && IndexMap(vals)[Decimal(i)] == vals[i]
      {
        if i < n {
          DecimalInjective(i, n);
          assert IndexMap(init)[Decimal(i)] == init[i];
        }
      }
    }
  }

  /** The characters of a string as one-character JSON strings. */
  function Chars(s: string): (r: seq<Json>)
    ensures |r| == |s| && forall i :: 0 <= i < |s| ==> r[i] == JStr([s[i]])
  {
    seq(|s|, i requires 0 <= i < |s| => JStr([s[i]]))
  }

  /** JavaScript's `{...v}` for a parsed request body: an object contributes
      its own fields, an array its elements under their indices, a string
      its characters under their indices, and `null`, booleans and numbers
      contribute nothing. */
  function Spread(v: Json): Doc {
    match v
    case JObj(m) => m
    case JArr(a) => IndexMap(a)
    case JStr(s) => IndexMap(Chars(s))
    case _ => map[]
  }

  /** An array spreads to its indices, each holding its element; a string
      to its indices, each holding a one-character string. */
  lemma SpreadIndexed(v: Json)
    ensures v.JArr? ==> Spread(v).Keys == IndexKeys(|v.items|)
    ensures v.JArr? ==> forall i :: 0 <= i < |v.items| ==> Spread(v)[Decimal(i)] == v.items[i]
    ensures v.JStr? ==> Spread(v).Keys == IndexKeys(|v.s|)
    ensures v.JStr? ==> forall i :: 0 <= i < |v.s| ==> Spread(v)[Decimal(i)] == JStr([v.s[i]])
  {
    match v
    case JArr(a) => IndexMapKeys(a); IndexMapLookup(a);
    case JStr(s) => IndexMapKeys(Chars(s)); IndexMapLookup(Chars(s));
    case _ =>
  }
}
