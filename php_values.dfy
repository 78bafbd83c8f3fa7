/** Values as the client sees them once a JSON text is decoded into PHP
    (`json_decode($text, true)`), and the PHP rules the client relies on to read them:
    reading an element `$a[$k]`, testing it with `isset`, turning a key or a value into text. */
module PhpValues {

  datatype Option<+T> = None | Some(value: T)

  /** A JSON value. PHP's single array type is split into lists (`Arr`) and string-keyed
      maps (`Obj`); an empty PHP array `array()` is written `Obj(map[])`. */
  datatype Json =
    | Null
    | Bool(b: bool)
    | Num(n: int)
    | Str(s: string)
    | Arr(items: seq<Json>)
    | Obj(fields: map<string, Json>)

  predicate IsDigit(c: char) {
    '0' <= c <= '9'
  }

  predicate AllDigits(s: string) {
    forall i :: 0 <= i < |s| ==> IsDigit(s[i])
  }

  function DigitChar(d: nat): (c: char)
    requires d < 10
    ensures IsDigit(c)
  {
    (d + '0' as int) as char
  }

  function DigitValue(c: char): (d: nat)
    requires IsDigit(c)
    ensures d < 10 && DigitChar(d) == c
  {
    c as int - '0' as int
  }

  /** The decimal text of a natural number, without leading zeros. */
  function NatText(n: nat): (s: string)
    ensures |s| >= 1 && AllDigits(s)
    ensures (s[0] == '0') == (n == 0)
    ensures n == 0 ==> s == "0"
    decreases n
  {
    if n < 10 then [DigitChar(n)] else NatText(n / 10) + [DigitChar(n % 10)]
  }

  /** The number a string of decimal digits denotes. */
  function DecimalValue(s: string): nat
    requires AllDigits(s)
  {
    if s == [] then 0 else DecimalValue(s[..|s| - 1]) * 10 + DigitValue(s[|s| - 1])
  }

  /** The list position a PHP array key names: a key that is the canonical decimal text of
      a natural number (no sign, no leading zero) is that integer; any other key is a string. */
  function ParseIndex(key: string): (r: Option<nat>)
    ensures r.Some? ==> |key| >= 1 && AllDigits(key)
    ensures r.Some? && |key| >= 2 ==> key[0] != '0'
    ensures |key| >= 1 && !IsDigit(key[0]) ==> r.None?
  {
    if |key| >= 1 && AllDigits(key) && (key[0] == '0' ==> key == "0")
    then Some(DecimalValue(key))
    else None
  }

  lemma {:induction false} NatTextRoundTrip(n: nat)
    ensures ParseIndex(NatText(n)) == Some(n)
    decreases n
  {
    var s := NatText(n);
    if n < 10 {
      assert s[..0] == [];
    } else {
      NatTextRoundTrip(n / 10);
      assert s[..|s| - 1] == NatText(n / 10);
      assert DecimalValue(s) == DecimalValue(NatText(n / 10)) * 10 + n % 10;
    }
  }

  /** The converse of NatTextRoundTrip: a key names position `i` only when it is exactly
      the text of `i`, so every list element has one key and one key only. */
  lemma {:induction false} ParseIndexCanonical(key: string)
    requires ParseIndex(key).Some?
    ensures NatText(ParseIndex(key).value) == key
    decreases |key|
  {
    var v := ParseIndex(key).value;
    var last := key[|key| - 1];
    if |key| == 1 {
      assert key == [last];
      assert key[..|key| - 1] == [];
      assert v == DecimalValue([]) * 10 + DigitValue(last);
    } else {
      var prefix := key[..|key| - 1];
      assert key[0] != '0';
      assert prefix[0] == key[0];
      assert AllDigits(prefix);
      ParseIndexCanonical(prefix);
      var w := DecimalValue(prefix);
      assert NatText(w) == prefix;
      assert w != 0;
      assert v == w * 10 + DigitValue(last);
      assert v / 10 == w && v % 10 == DigitValue(last);
      assert key == prefix + [last];
    }
  }

  /** PHP's conversion of an integer to text (`(string)$n`, or `$n` in a concatenation). */
  function IntText(n: int): (s: string)
    ensures |s| >= 1
    ensures (s[0] == '-') == (n < 0)
    ensures n >= 0 ==> ParseIndex(s) == Some(n)
  {
    if n < 0 then "-" + NatText(-n) else NatTextRoundTrip(n); NatText(n)
  }

  /** `$v[$key]`: the element stored under `key`, or Null when there is none (PHP reports
      a notice and yields null), including when `v` is not an array at all. */
  function Index(v: Json, key: string): (r: Json)
    ensures r != Null ==> v.Obj? || v.Arr?
    ensures v.Obj? && key in v.fields ==> r == v.fields[key]
    ensures v.Obj? && key !in v.fields ==> r == Null
    ensures v.Arr? && r != Null ==> r in v.items
  {
    match v
    case Obj(fields) => if key in fields then fields[key] else Null
    case Arr(items) =>
      (match ParseIndex(key)
       case Some(i) => if i < |items| then items[i] else Null
       case None => Null)
    case _ => Null
  }

  /** `isset($v[$key])`: the element exists and is not null. */
  predicate IsSet(v: Json, key: string): (b: bool)
    ensures b ==> v.Obj? || v.Arr?
    ensures v.Obj? && b ==> key in v.fields
  {
    Index(v, key) != Null
  }

  /** `unset($v[$key])` for a key that is not a list position (the only kind this client
      removes): the key leaves a map; anything else is left as it is. */
  function Unset(v: Json, key: string): (r: Json)
    ensures r.Obj? == v.Obj?
    ensures v.Obj? || ParseIndex(key).None? ==> !IsSet(r, key)
    ensures forall k :: k != key ==> Index(r, k) == Index(v, k)
  {
    if v.Obj? then Obj(v.fields - {key}) else v
  }

  /** The array key PHP uses when a value indexes an array: strings as they are, integers
      as their text, booleans as 1 or 0, null as the empty string; arrays are not keys. */
  function ArrayKey(k: Json): (r: Option<string>)
    ensures r.None? <==> k.Arr? || k.Obj?
    ensures k.Str? ==> r == Some(k.s)
    ensures k.Num? && k.n >= 0 ==> ParseIndex(r.value) == Some(k.n)
    ensures k.Num? && k.n < 0 ==> ParseIndex(r.value).None?
  {
    match k
    case Null => Some("")
    case Bool(b) => Some(if b then "1" else "0")
    case Num(n) => Some(IntText(n))
    case Str(s) => Some(s)
    case Arr(_) => None
    case Obj(_) => None
  }

  /** PHP's conversion of a value to text in a concatenation. */
  function StringOf(v: Json): (s: string)
    ensures s == "" <==> v == Null || v == Bool(false) || v == Str("")
    ensures v.Num? && v.n >= 0 ==> ParseIndex(s) == Some(v.n)
  {
    match v
    case Null => ""
    case Bool(b) => if b then "1" else ""
    case Num(n) => IntText(n)
    case Str(s) => s
    case Arr(_) => "Array"
    case Obj(_) => "Array"
  }

  /** The characters PHP skips before the number in a numeric string. */
  predicate IsBlank(c: char) {
    c == ' ' || c == '\t' || c == '\n' || c == '\r' || c == '\U{0B}' || c == '\U{0C}'
  }

  /** `s` without its leading blanks. */
  function SkipBlanks(s: string): (t: string)
    ensures |t| <= |s| && t == s[|s| - |t|..]
    ensures t != [] ==> !IsBlank(t[0])
    ensures forall i :: 0 <= i < |s| - |t| ==> IsBlank(s[i])
  {
    if s != [] && IsBlank(s[0]) then SkipBlanks(s[1..]) else s
  }

  /** PHP's test for a string that begins with a number: after the blanks, an optional sign,
      then a digit, or a point and a digit. Only such a string becomes an integer argument. */
  predicate LeadingNumeric(s: string): (b: bool)
    ensures b ==> exists i :: 0 <= i < |s| && IsDigit(s[i])
    ensures |s| >= 1 && IsDigit(s[0]) ==> b
    ensures s == [] ==> !b
  {
    var t := SkipBlanks(s);
    var u := if t != [] && (t[0] == '+' || t[0] == '-') then t[1..] else t;
    (|u| >= 1 && IsDigit(u[0])) || (|u| >= 2 && u[0] == '.' && IsDigit(u[1]))
  }

  /** Whether PHP accepts `v` where a built-in function declares a string parameter:
      everything except an array. */
  predicate ConvertsToString(v: Json) {
    !v.Arr? && !v.Obj?
  }

  /** Whether PHP accepts `v` where a built-in function declares an integer parameter:
      null, booleans, numbers, and strings that begin with a number. */
  predicate ConvertsToInteger(v: Json): (b: bool)
    ensures v.Arr? || v.Obj? || v == Str("") ==> !b
    ensures v.Null? || v.Bool? || v.Num? ==> b
    ensures v.Str? && b ==> exists i :: 0 <= i < |v.s| && IsDigit(v.s[i])
  {
    match v
    case Null => true
    case Bool(_) => true
    case Num(_) => true
    case Str(s) => LeadingNumeric(s)
    case Arr(_) => false
    case Obj(_) => false
  }

  /** A key that reaches a list element is the text of that element's position. */
  lemma ListKey(items: seq<Json>, key: string)
    requires Index(Arr(items), key) != Null
    ensures ParseIndex(key).Some? && ParseIndex(key).value < |items|
    ensures key == IntText(ParseIndex(key).value)
    ensures Index(Arr(items), key) == items[ParseIndex(key).value]
  {
    ParseIndexCanonical(key);
  }
}
