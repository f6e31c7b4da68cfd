/** The untyped value that `JSON.parse` returns and the trip service walks, with the JavaScript
    conversions the service applies to it: truthiness, string conversion in a template literal,
    and `Number(v) || 0` coercion. Numbers are integers here. */
module Json {
  import opened Wrappers

  datatype Json =
    | JNull
    | JBool(b: bool)
    | JNum(n: int)
    | JStr(s: string)
    | JArr(items: seq<Json>)
    | JObj(fields: map<string, Json>)

  /** JavaScript truthiness: null, false, 0 and "" are falsy; arrays and objects are truthy. */
  predicate Truthy(v: Json)
    ensures Truthy(v) <==> v != JNull && v != JBool(false) && v != JNum(0) && v != JStr("")
  {
    match v
    case JNull => false
    case JBool(b) => b
    case JNum(n) => n != 0
    case JStr(s) => s != ""
    case JArr(_) => true
    case JObj(_) => true
  }

  /** Reading `v.key`: only objects have named properties; anything else reads `undefined` (None). */
  function Get(v: Json, key: string): (r: Option<Json>)
    ensures r.Some? <==> v.JObj? && key in v.fields
    ensures r.Some? ==> r.value == v.fields[key]
  {
    if v.JObj? && key in v.fields then Some(v.fields[key]) else None
  }

  /** Assigning `v.key = x` on a value that accepts it (an object or an array). On an array the
      named property is not part of the JSON value, so the array is unchanged. */
  function SetField(v: Json, key: string, x: Json): (r: Json)
    requires v.JObj? || v.JArr?
    ensures v.JArr? ==> r == v
    ensures v.JObj? ==> r.JObj? && r.fields.Keys == v.fields.Keys + {key} && r.fields[key] == x
    ensures v.JObj? ==> forall k :: k in v.fields && k != key ==> r.fields[k] == v.fields[k]
  {
    if v.JObj? then JObj(v.fields[key := x]) else v
  }

  /** Assigning a property does not throw in strict-mode code only on objects and arrays. */
  predicate Writable(v: Json)
  {
    v.JObj? || v.JArr?
  }

  // ---------------------------------------------------------------------------------------
  // Integers as decimal text
  // ---------------------------------------------------------------------------------------

  predicate IsDigit(c: char)
  {
    '0' <= c <= '9'
  }

  predicate AllDigits(s: string)
  {
    forall i :: 0 <= i < |s| ==> IsDigit(s[i])
  }

  function DigitChar(d: nat): char
    requires d < 10
  {
    ('0' as int + d) as char
  }

  /** The decimal digits of `n`, most significant first, without leading zeros. */
  function NatToString(n: nat): (r: string)
    ensures |r| > 0 && AllDigits(r)
    ensures r[0] == '0' ==> n == 0
  {
    if n < 10 then [DigitChar(n)] else NatToString(n / 10) + [DigitChar(n % 10)]
  }

  /** `String(n)` / `${n}` for an integer: an optional minus sign followed by the digits of |n|. */
  function IntToString(n: int): (r: string)
    ensures |r| > 0
    ensures n < 0 <==> r[0] == '-'
    ensures n >= 0 ==> AllDigits(r)
    ensures n < 0 ==> |r| > 1 && AllDigits(r[1..])
  {
    if n < 0 then "-" + NatToString(-n) else NatToString(n)
  }

  /** The value of a string of decimal digits. */
  function DigitsValue(s: string): (r: nat)
    requires AllDigits(s)
  {
    if |s| == 0 then 0 else 10 * DigitsValue(s[..|s| - 1]) + (s[|s| - 1] as int - '0' as int)
  }

  lemma {:induction false} DigitsValueOfNatToString(n: nat)
    ensures DigitsValue(NatToString(n)) == n
  {
    if n >= 10 {
      var s := NatToString(n);
      assert s[..|s| - 1] == NatToString(n / 10);
      DigitsValueOfNatToString(n / 10);
    }
  }

  // ---------------------------------------------------------------------------------------
  // Number(s) on strings
  // ---------------------------------------------------------------------------------------

  predicate IsSpace(c: char)
  {
    c == ' ' || c == '\t' || c == '\n' || c == '\r' || c == '\U{B}' || c == '\U{C}'
  }

  /** The number of white-space characters `s` starts with. */
  function LeadingSpaces(s: string): (n: nat)
    ensures n <= |s|
    ensures forall k :: 0 <= k < n ==> IsSpace(s[k])
    ensures n < |s| ==> !IsSpace(s[n])
  {
    if |s| > 0 && IsSpace(s[0]) then 1 + LeadingSpaces(s[1..]) else 0
  }

  /** The length of `s` without the white space it ends with. */
  function TrailingStart(s: string): (n: nat)
    ensures n <= |s|
    ensures forall k :: n <= k < |s| ==> IsSpace(s[k])
    ensures n > 0 ==> !IsSpace(s[n - 1])
  {
    if |s| > 0 && IsSpace(s[|s| - 1]) then TrailingStart(s[..|s| - 1]) else |s|
  }

  /** `s.trim()` restricted to ASCII white space: `s` without the white space at either end. */
  function Trim(s: string): (r: string)
    ensures |r| <= |s|
    ensures r != [] ==> !IsSpace(r[0]) && !IsSpace(r[|r| - 1])
  {
    var i := LeadingSpaces(s);
    var j := TrailingStart(s);
    if i < j then s[i..j] else s[i..i]
  }

  /** The trimmed text is a slice of `s` with nothing but white space before and after it. */
  lemma TrimIsSlice(s: string)
    ensures exists i, j ::
              && 0 <= i <= j <= |s| && Trim(s) == s[i..j]
              && (forall k :: 0 <= k < i ==> IsSpace(s[k]))
              && (forall k :: j <= k < |s| ==> IsSpace(s[k]))
  {
    var i := LeadingSpaces(s);
    var j := TrailingStart(s);
    if i < j {
      assert Trim(s) == s[i..j];
    } else {
      assert Trim(s) == s[i..i];
    }
  }

  /** Text with no white space at either end is its own trim. */
  lemma TrimUntouched(s: string)
    requires |s| > 0 && !IsSpace(s[0]) && !IsSpace(s[|s| - 1])
    ensures Trim(s) == s
  {
    assert LeadingSpaces(s) == 0;
    assert TrailingStart(s) == |s|;
    assert s[0..|s|] == s;
  }

  /** `Number(s) || 0` for a string: blank text is 0, an optionally signed run of decimal digits
      is its value, anything else (NaN) becomes 0. */
  function StringToNumber(s: string): (r: int)
    ensures Trim(s) == "" ==> r == 0
    ensures r < 0 ==> |Trim(s)| > 1 && Trim(s)[0] == '-'
  {
    var t := Trim(s);
    if |t| > 1 && t[0] == '-' && AllDigits(t[1..]) then 0 - DigitsValue(t[1..])
    else if |t| > 1 && t[0] == '+' && AllDigits(t[1..]) then DigitsValue(t[1..])
    else if AllDigits(t) then DigitsValue(t)
    else 0
  }

  /** Text with a non-digit after its first character is not a number, so `|| 0` makes it 0. */
  lemma StringToNumberNaN(s: string)
    ensures (exists k :: 1 <= k < |Trim(s)| && !IsDigit(Trim(s)[k])) ==> StringToNumber(s) == 0
  {
  }

  /** A number written by `${n}` reads back as `n`. */
  lemma StringToNumberOfIntToString(n: int)
    ensures StringToNumber(IntToString(n)) == n
  {
    var s := IntToString(n);
    TrimUntouched(s);
    if n < 0 {
      assert s[1..] == NatToString(-n);
      DigitsValueOfNatToString(-n);
    } else {
      DigitsValueOfNatToString(n);
    }
  }

  // ---------------------------------------------------------------------------------------
  // String conversion and numeric coercion of JSON values
  // ---------------------------------------------------------------------------------------

  /** Joins `parts` with `sep` between consecutive parts, like `Array.prototype.join`. */
  function Join(parts: seq<string>, sep: string): string
  {
    if |parts| == 0 then ""
    else if |parts| == 1 then parts[0]
    else parts[0] + sep + Join(parts[1..], sep)
  }

  /** `String(v)`, as a template literal `${v}` converts a value: an array joins its elements
      with "," (null elements become ""), an object becomes "[object Object]". */
  function Display(v: Json): (r: string)
    ensures v.JStr? ==> r == v.s
    ensures v.JArr? && v.items == [] ==> r == ""
  {
    match v
    case JNull => "null"
    case JBool(b) => if b then "true" else "false"
    case JNum(n) => IntToString(n)
    case JStr(s) => s
    case JArr(a) => Join(seq(|a|, i requires 0 <= i < |a| => if a[i].JNull? then "" else Display(a[i])), ",")
    case JObj(_) => "[object Object]"
  }

  /** The text of a number reads back as that number, and a one-element array of a non-null
      value reads as that value. */
  lemma DisplayReadsBack(v: Json)
    ensures v.JNum? ==> StringToNumber(Display(v)) == v.n
    ensures v.JArr? && |v.items| == 1 && !v.items[0].JNull? ==> Display(v) == Display(v.items[0])
  {
    if v.JNum? {
      StringToNumberOfIntToString(v.n);
    }
  }

  /** `typeof v === "number" ? v : Number(v) || 0`: a number is kept, true is 1, null and false are 0,
      anything else goes through its string form. */
  function Coerce(v: Json): (r: int)
    ensures v.JNum? ==> r == v.n
    ensures v == JBool(true) ==> r == 1
    ensures v.JNull? || v == JBool(false) || v.JObj? ==> r == 0
    ensures v.JStr? ==> r == StringToNumber(v.s)
  {
    match v
    case JNum(n) => n
    case JBool(b) => if b then 1 else 0
    case JNull => 0
    case JObj(_) =>
      var text := Display(v);
      TrimUntouched(text);
      assert !IsDigit(text[0]) && text[0] != '-' && text[0] != '+';
      StringToNumber(text)
    case _ => StringToNumber(Display(v))
  }

  /** Numbers, and strings written from numbers, coerce to the number itself. */
  lemma CoerceNumeric(n: int)
    ensures Coerce(JNum(n)) == n
    ensures Coerce(JStr(IntToString(n))) == n
    ensures Coerce(JArr([JNum(n)])) == n
  {
    StringToNumberOfIntToString(n);
    DisplayReadsBack(JArr([JNum(n)]));
  }

  /** Values with no numeric reading coerce to 0. */
  lemma CoerceNonNumeric()
    ensures Coerce(JArr([])) == 0
    ensures Coerce(JStr("")) == 0 && Coerce(JStr("abc")) == 0
  {
    TrimUntouched("abc");
    assert !IsDigit('b');
  }

  /** The coerced cost `v.key`: a missing property (undefined) is NaN, which `|| 0` turns into 0. */
  function CostAt(v: Json, key: string): (r: int)
    ensures !(v.JObj? && key in v.fields) ==> r == 0
  {
    match Get(v, key)
    case None => 0
    case Some(x) => Coerce(x)
  }
}
