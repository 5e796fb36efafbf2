/**
 * JavaScript values as the client sees them after `JSON.parse`, and the
 * handful of language rules the client code leans on: truthiness, property
 * reads on possibly-missing values, `||` and `??`, `String(x)`, `Number(x)`,
 * `parseInt(x)`, loose equality `==`, and the `filter` / `find` array methods.
 *
 * `None` (from Wrappers) is `undefined`; an object key that is absent reads as
 * `undefined`. Numbers are integers.
 */
module Js {
  import opened Wrappers
  import Strings

  datatype Json =
    | JNull
    | JBool(b: bool)
    | JNum(n: int)
    | JStr(s: string)
    | JArr(items: seq<Json>)
    | JObj(fields: map<string, Json>)

  /** A thrown value: an `Error` built by the code, or a `TypeError` raised by the engine. */
  datatype Error =
    | Thrown(message: string)
    | TypeFault(message: string)

  /** A value, or the exception that was thrown instead. */
  datatype Result<+T> = Ok(value: T) | Err(error: Error)

  /** JavaScript truthiness (there is no NaN among integers). */
  predicate Truthy(j: Json)
  {
    match j
    case JNull => false
    case JBool(b) => b
    case JNum(n) => n != 0
    case JStr(s) => s != ""
    case JArr(_) => true
    case JObj(_) => true
  }

  /** A possibly-undefined value is truthy. */
  predicate Present(v: Option<Json>)
  {
    v.Some? && Truthy(v.value)
  }

  /** `v === undefined || v === null` */
  predicate Nullish(v: Option<Json>)
  {
    v.None? || v.value.JNull?
  }

  /** `j.key` on a value that is neither null nor undefined. */
  function Get(j: Json, key: string): (r: Option<Json>)
    ensures r.Some? <==> j.JObj? && key in j.fields
  {
    if j.JObj? && key in j.fields then Some(j.fields[key]) else None
  }

  /** `v?.key` */
  function Member(v: Option<Json>, key: string): (r: Option<Json>)
    ensures Nullish(v) ==> r.None?
  {
    if Nullish(v) then None else Get(v.value, key)
  }

  /** The TypeError message of reading `key` from null or undefined. */
  function ReadFault(v: Option<Json>, key: string): Error
  {
    TypeFault("Cannot read properties of " + (if v.None? then "undefined" else "null") + " (reading '" + key + "')")
  }

  /** `v.key`: reading a property of null or undefined throws a TypeError. */
  function Prop(v: Option<Json>, key: string): (r: Result<Option<Json>>)
    ensures r.Err? <==> Nullish(v)
    ensures r.Ok? ==> r.value == Member(v, key)
  {
    if Nullish(v) then Err(ReadFault(v, key)) else Ok(Get(v.value, key))
  }

  /** `a || b` */
  function Or(a: Option<Json>, b: Json): (r: Json)
    ensures Truthy(b) ==> Truthy(r)
    ensures Present(a) ==> Some(r) == a
  {
    if Present(a) then a.value else b
  }

  /** `a ?? b`: unlike `||`, keeps `0`, `false` and `''`. */
  function Coalesce(a: Option<Json>, b: Json): (r: Json)
    ensures !Nullish(a) ==> Some(r) == a
  {
    if Nullish(a) then b else a.value
  }

  /** The own enumerable properties that `{...j}` copies (strings and arrays are not modelled: see README). */
  function Spread(j: Json): map<string, Json>
  {
    if j.JObj? then j.fields else map[]
  }

  /** `parts.join(',')` */
  function Join(parts: seq<string>): string
  {
    if parts == [] then ""
    else if |parts| == 1 then parts[0]
    else parts[0] + "," + Join(parts[1..])
  }

  /** `String(j)` for a defined value: arrays join their elements, null and undefined elements print as ''. */
  function JsonText(j: Json): string
  {
    match j
    case JNull => "null"
    case JBool(b) => if b then "true" else "false"
    case JNum(n) => Strings.IntText(n)
    case JStr(s) => s
    case JArr(items) =>
      Join(seq(|items|, i requires 0 <= i < |items| => if items[i].JNull? then "" else JsonText(items[i])))
    case JObj(_) => "[object Object]"
  }

  /** `String(v)` */
  function ToText(v: Option<Json>): string
  {
    if v.None? then "undefined" else JsonText(v.value)
  }

  /** `new Error(v)`: the message is `String(v)`, or '' when `v` is undefined. */
  function ErrorOf(v: Option<Json>): (e: Error)
    ensures e.Thrown?
    ensures v.Some? && v.value.JStr? ==> e.message == v.value.s
  {
    Thrown(if v.None? then "" else JsonText(v.value))
  }

  predicate IsSpace(c: char)
  {
    c == ' ' || c == '\t' || c == '\n' || c == '\r'
  }

  function TrimStart(s: string): (r: string)
    ensures |r| <= |s| && r == s[|s| - |r|..]
    ensures r != [] ==> !IsSpace(r[0])
  {
    if s != [] && IsSpace(s[0]) then TrimStart(s[1..]) else s
  }

  function TrimEnd(s: string): (r: string)
    ensures |r| <= |s| && r == s[..|r|]
  {
    if s != [] && IsSpace(s[|s| - 1]) then TrimEnd(s[..|s| - 1]) else s
  }

  /** The longest prefix of `s` made of decimal digits. */
  function DigitPrefix(s: string): (r: string)
    ensures Strings.AllDigits(r) && |r| <= |s| && r == s[..|r|]
    ensures |r| < |s| ==> !Strings.IsDigit(s[|r|])
  {
    if s != [] && Strings.IsDigit(s[0]) then [s[0]] + DigitPrefix(s[1..]) else []
  }

  /** A sign followed by at least one digit and nothing else. */
  function SignedDigits(t: string): Option<int>
  {
    if t != [] && (t[0] == '-' || t[0] == '+') && |t| > 1 && Strings.AllDigits(t[1..]) then
      var v: int := Strings.DigitsValue(t[1..]);
      Some(if t[0] == '-' then -v else v)
    else if t != [] && Strings.AllDigits(t) then Some(Strings.DigitsValue(t))
    else None
  }

  /** `Number(s)` for a string, `None` standing for NaN (decimal integers only). */
  function StringToNumber(s: string): Option<int>
  {
    var t := TrimEnd(TrimStart(s));
    if t == "" then Some(0) else SignedDigits(t)
  }

  /** `Number(v)`; objects and arrays convert through their `String` form. */
  function ToNumber(v: Option<Json>): Option<int>
  {
    match v
    case None => None
    case Some(JNull) => Some(0)
    case Some(JBool(b)) => Some(if b then 1 else 0)
    case Some(JNum(n)) => Some(n)
    case Some(JStr(s)) => StringToNumber(s)
    case Some(j) => StringToNumber(JsonText(j))
  }

  /** `parseInt` of a string in base 10: leading blanks, a sign, then the longest run of digits. */
  function ParseIntText(text: string): Option<int>
  {
    var s := TrimStart(text);
    if s != [] && (s[0] == '-' || s[0] == '+') then
      var d := DigitPrefix(s[1..]);
      if d == "" then None
      else
        var v: int := Strings.DigitsValue(d);
        Some(if s[0] == '-' then -v else v)
    else
      var d := DigitPrefix(s);
      if d == "" then None else Some(Strings.DigitsValue(d))
  }

  /** `parseInt(v)`: the value is first converted with `String`. */
  function ParseInt(v: Option<Json>): Option<int>
  {
    ParseIntText(ToText(v))
  }

  /** A string of digits is its own longest digit prefix. */
  lemma DigitPrefixOfDigits(s: string)
    requires Strings.AllDigits(s)
    ensures DigitPrefix(s) == s
  {
  }

  /** `parseInt` of a number gives the number back. */
  lemma ParseIntOfNumber(n: int)
    ensures ParseInt(Some(JNum(n))) == Some(n)
  {
    var s := Strings.IntText(n);
    assert ToText(Some(JNum(n))) == s;
    ParseIntTextOfNumber(n);
  }

  /** `parseInt` reads the digits of a natural number back. */
  lemma ParseIntTextOfNat(n: int)
    requires n >= 0
    ensures ParseIntText(Strings.IntText(n)) == Some(n)
  {
    var s := Strings.NatText(n);
    assert Strings.IntText(n) == s;
    assert TrimStart(s) == s by { assert !IsSpace(s[0]); }
    assert Strings.IsDigit(s[0]);
    DigitPrefixOfDigits(s);
    Strings.NatTextRoundTrip(n);
  }

  /** `parseInt` reads a minus sign and the digits of a natural number back. */
  lemma ParseIntTextOfNegative(n: int)
    requires n < 0
    ensures ParseIntText(Strings.IntText(n)) == Some(n)
  {
    var d := Strings.NatText(-n);
    var s := "-" + d;
    assert Strings.IntText(n) == s;
    assert TrimStart(s) == s by { assert !IsSpace(s[0]); }
    assert s[0] == '-' && s[1..] == d;
    DigitPrefixOfDigits(d);
    Strings.NatTextRoundTrip(-n);
    assert Strings.DigitsValue(d) == -n;
  }

  lemma ParseIntTextOfNumber(n: int)
    ensures ParseIntText(Strings.IntText(n)) == Some(n)
  {
    if n < 0 {
      ParseIntTextOfNegative(n);
    } else {
      ParseIntTextOfNat(n);
    }
  }

  /** The text of a number has no surrounding whitespace. */
  lemma IntTextUntrimmed(n: int)
    ensures TrimEnd(TrimStart(Strings.IntText(n))) == Strings.IntText(n)
  {
    var s := Strings.IntText(n);
    assert TrimStart(s) == s by { assert !IsSpace(s[0]); }
    assert TrimEnd(s) == s by { assert !IsSpace(s[|s| - 1]); }
  }

  /** `Number` reads the digits of a natural number back. */
  lemma StringToNumberOfNat(n: int)
    requires n >= 0
    ensures SignedDigits(Strings.IntText(n)) == Some(n)
  {
    var s := Strings.NatText(n);
    assert Strings.IntText(n) == s;
    Strings.NatTextRoundTrip(n);
    assert s[0] != '-' && s[0] != '+';
  }

  /** `Number` reads a minus sign and the digits of a natural number back. */
  lemma StringToNumberOfNegative(n: int)
    requires n < 0
    ensures SignedDigits(Strings.IntText(n)) == Some(n)
  {
    var d := Strings.NatText(-n);
    var s := "-" + d;
    assert Strings.IntText(n) == s;
    assert s[0] == '-' && s[1..] == d;
    Strings.NatTextRoundTrip(-n);
    assert Strings.DigitsValue(d) == -n;
  }

  /** `Number(String(n)) == n`: the text of a number converts back to it. */
  lemma StringToNumberOfText(n: int)
    ensures StringToNumber(Strings.IntText(n)) == Some(n)
  {
    var s := Strings.IntText(n);
    IntTextUntrimmed(n);
    assert s != "";
    assert StringToNumber(s) == SignedDigits(s);
    if n < 0 {
      StringToNumberOfNegative(n);
    } else {
      StringToNumberOfNat(n);
    }
  }

  /** How many coercion steps `==` may still take on a value. */
  function Weight(j: Json): nat
  {
    match j
    case JBool(_) => 2
    case JArr(_) => 2
    case JObj(_) => 2
    case _ => 0
  }

  /**
   * `x == y` for two values that are not null: booleans become numbers,
   * objects become their string form, strings compare with numbers through
   * `Number`. Two objects are equal when they are the same object, which the
   * model cannot observe; it compares their contents instead.
   */
  predicate LooseJson(x: Json, y: Json)
    decreases Weight(x) + Weight(y)
  {
    match (x, y)
      case (JNull, _) => y.JNull?
      case (_, JNull) => false
      case (JNum(m), JNum(n)) => m == n
      case (JStr(s), JStr(t)) => s == t
      case (JBool(p), JBool(q)) => p == q
      case (JBool(p), _) => LooseJson(JNum(if p then 1 else 0), y)
      case (_, JBool(q)) => LooseJson(x, JNum(if q then 1 else 0))
      case (JNum(n), JStr(t)) => StringToNumber(t) == Some(n)
      case (JStr(s), JNum(n)) => StringToNumber(s) == Some(n)
      case (JNum(_), _) => LooseJson(x, JStr(JsonText(y)))
      case (JStr(_), _) => LooseJson(x, JStr(JsonText(y)))
      case (_, JNum(_)) => LooseJson(JStr(JsonText(x)), y)
      case (_, JStr(_)) => LooseJson(JStr(JsonText(x)), y)
      case _ => x == y
  }

  /** `a == b`: null and undefined equal each other and nothing else. */
  predicate LooseEquals(a: Option<Json>, b: Option<Json>)
  {
    if Nullish(a) || Nullish(b) then Nullish(a) && Nullish(b) else LooseJson(a.value, b.value)
  }

  /** `==` does not depend on the order of its operands. */
  lemma {:induction false} LooseJsonSymmetric(x: Json, y: Json)
    ensures LooseJson(x, y) == LooseJson(y, x)
    decreases Weight(x) + Weight(y)
  {
    {
      match (x, y)
      case (JNull, _) =>
      case (_, JNull) =>
      case (JNum(m), JNum(n)) =>
      case (JStr(s), JStr(t)) =>
      case (JBool(p), JBool(q)) =>
      case (JBool(p), _) => LooseJsonSymmetric(JNum(if p then 1 else 0), y);
      case (_, JBool(q)) => LooseJsonSymmetric(x, JNum(if q then 1 else 0));
      case (JNum(n), JStr(t)) =>
      case (JStr(s), JNum(n)) =>
      case (JNum(_), _) => LooseJsonSymmetric(x, JStr(JsonText(y)));
      case (JStr(_), _) => LooseJsonSymmetric(x, JStr(JsonText(y)));
      case (_, JNum(_)) => LooseJsonSymmetric(JStr(JsonText(x)), y);
      case (_, JStr(_)) => LooseJsonSymmetric(JStr(JsonText(x)), y);
      case _ =>
    }
  }

  /** A numeric id and its decimal text are loosely equal, in either order: `42 == '42'`. */
  lemma LooseNumberText(n: int)
    ensures LooseEquals(Some(JNum(n)), Some(JStr(Strings.IntText(n))))
    ensures LooseEquals(Some(JStr(Strings.IntText(n))), Some(JNum(n)))
  {
    StringToNumberOfText(n);
  }

  /** `items.filter(x => keep(x[key]))`: reading a property of a null element throws. */
  function Select(items: seq<Json>, key: string, keep: Option<Json> -> bool): (r: Result<seq<Json>>)
    ensures r.Err? <==> JNull in items
    ensures r.Ok? ==> |r.value| <= |items|
    ensures r.Ok? ==> forall x :: x in r.value ==> x in items && keep(Get(x, key))
    ensures r.Ok? ==> forall i :: 0 <= i < |items| && keep(Get(items[i], key)) ==> items[i] in r.value
  {
    if items == [] then Ok([])
    else if items[0] == JNull then Err(ReadFault(Some(JNull), key))
    else
      match Select(items[1..], key, keep)
      case Err(e) => Err(e)
      case Ok(rest) => Ok((if keep(Get(items[0], key)) then [items[0]] else []) + rest)
  }

  /** `filter` keeps the original order: filtering a concatenation concatenates the filtered parts. */
  lemma {:induction false} SelectAppend(a: seq<Json>, b: seq<Json>, key: string, keep: Option<Json> -> bool)
    requires JNull !in a + b
    ensures Select(a + b, key, keep).Ok? && Select(a, key, keep).Ok? && Select(b, key, keep).Ok?
    ensures Select(a + b, key, keep).value == Select(a, key, keep).value + Select(b, key, keep).value
  {
    if a != [] {
      assert (a + b)[1..] == a[1..] + b;
      SelectAppend(a[1..], b, key, keep);
    } else {
      assert a + b == b;
    }
  }

  /** A one-element filter keeps its element exactly when the callback accepts it. */
  lemma SelectSingle(x: Json, key: string, keep: Option<Json> -> bool)
    requires x != JNull
    ensures Select([x], key, keep) == Ok(if keep(Get(x, key)) then [x] else [])
  {
    var kept: seq<Json> := if keep(Get(x, key)) then [x] else [];
    assert [x][1..] == [] && [x][0] == x;
    assert Select([x], key, keep) == Ok(kept + []);
    assert kept + [] == kept;
  }

  /** Where `find` stopped: at a match, at a null element it could not read, or at the end. */
  datatype Found = Hit(index: nat) | Fault(index: nat) | Miss

  /** `r` is what `items.find(x => matches(x[key]))` meets first. */
  predicate IsFirstMatch(items: seq<Json>, key: string, matches: Option<Json> -> bool, r: Found)
  {
    && (r.Hit? ==> r.index < |items| && items[r.index] != JNull && matches(Get(items[r.index], key)))
    && (r.Fault? ==> r.index < |items| && items[r.index] == JNull)
    && (r.Miss? ==> forall j :: 0 <= j < |items| ==> items[j] != JNull && !matches(Get(items[j], key)))
    && (!r.Miss? ==> forall j :: 0 <= j < r.index ==> items[j] != JNull && !matches(Get(items[j], key)))
  }

  /** The first element `find` stops at, defined element by element. */
  function FirstMatch(items: seq<Json>, key: string, matches: Option<Json> -> bool): (r: Found)
    ensures IsFirstMatch(items, key, matches, r)
  {
    if items == [] then Miss
    else if items[0] == JNull then Fault(0)
    else if matches(Get(items[0], key)) then Hit(0)
    else
      match FirstMatch(items[1..], key, matches)
      case Hit(i) => Hit(i + 1)
      case Fault(i) => Fault(i + 1)
      case Miss => Miss
  }

  /** Only one stopping point fits the description. */
  lemma FirstMatchUnique(items: seq<Json>, key: string, matches: Option<Json> -> bool, r: Found)
    requires IsFirstMatch(items, key, matches, r)
    ensures r == FirstMatch(items, key, matches)
  {
  }

  /** `items.find(x => matches(x[key]))`, walking the array from the front. */
  method FindBy(items: seq<Json>, key: string, matches: Option<Json> -> bool) returns (r: Found)
    ensures IsFirstMatch(items, key, matches, r)
    ensures r == FirstMatch(items, key, matches)
  {
    var i := 0;
    while i < |items|
      invariant 0 <= i <= |items|
      invariant forall j :: 0 <= j < i ==> items[j] != JNull && !matches(Get(items[j], key))
    {
      if items[i] == JNull {
        r := Fault(i);
        FirstMatchUnique(items, key, matches, r);
        return;
      }
      if matches(Get(items[i], key)) {
        r := Hit(i);
        FirstMatchUnique(items, key, matches, r);
        return;
      }
      i := i + 1;
    }
    r := Miss;
    FirstMatchUnique(items, key, matches, r);
  }
}
