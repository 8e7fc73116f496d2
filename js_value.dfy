/** JavaScript values as the itinerary handler sees them: the fields of a
    parsed request body, the upstream reply envelope, and response bodies.
    Only the parts of JavaScript's semantics the handler relies on are
    modelled: truthiness (logical negation), own-property lookup, optional
    chaining, the default of a destructuring pattern, and the string
    conversion used by template literals and by `JSON.parse`. */
module JsValue {

  datatype Option<+T> = None | Some(value: T)

  datatype Result<+T, +E> = Success(value: T) | Failure(error: E)

  /** A JavaScript value. Numbers are integers (see README, "Left out").
      An object keeps its own properties in insertion order; a key may
      occur more than once, and then the last occurrence is the one in
      effect, as `JSON.parse` does with duplicate keys. */
  datatype Json =
    | Undefined
    | Null
    | Bool(b: bool)
    | Num(n: int)
    | Str(s: string)
    | Arr(elems: seq<Json>)
    | Obj(fields: seq<(string, Json)>)

  /** JavaScript's ToBoolean: exactly `undefined`, `null`, `false`, `0` and
      `""` are falsy; every array and object is truthy. */
  predicate Truthy(v: Json) {
    match v
    case Undefined => false
    case Null => false
    case Bool(b) => b
    case Num(n) => n != 0
    case Str(s) => s != ""
    case Arr(_) => true
    case Obj(_) => true
  }

  lemma FalsyValues(v: Json)
    ensures !Truthy(v) <==> v == Undefined || v == Null || v == Bool(false) || v == Num(0) || v == Str("")
  {
  }

  /** `undefined` and `null` are the two values a property cannot be read
      from: `x.p` throws a TypeError and `x?.p` short-circuits. */
  predicate Nullish(v: Json) {
    v.Undefined? || v.Null?
  }

  // ----- decimal rendering of integers (Number::toString for integers) -----

  function DigitChar(d: nat): (c: char)
    requires d < 10
  {
    "0123456789"[d]
  }

  predicate IsDigit(c: char) {
    '0' <= c <= '9'
  }

  predicate AllDigits(s: string) {
    forall i :: 0 <= i < |s| ==> IsDigit(s[i])
  }

  /** The decimal numeral of `n`, most significant digit first. */
  function NatToString(n: nat): (r: string)
    ensures |r| > 0
  {
    if n < 10 then [DigitChar(n)] else NatToString(n / 10) + [DigitChar(n % 10)]
  }

  /** The value of a string of decimal digits. */
  function DigitsValue(s: string): (n: nat)
    requires AllDigits(s)
  {
    if s == [] then 0
    else DigitsValue(s[..|s| - 1]) * 10 + (s[|s| - 1] as int - '0' as int)
  }

  /** Reading back the numeral of `n` gives `n`, and the numeral has no
      leading zero unless it is "0" itself. */
  lemma {:induction false} NatToStringRoundTrip(n: nat)
    ensures AllDigits(NatToString(n))
    ensures DigitsValue(NatToString(n)) == n
    ensures NatToString(n)[0] == '0' ==> n == 0
  {
    if n >= 10 {
      NatToStringRoundTrip(n / 10);
      var s := NatToString(n);
      assert s[..|s| - 1] == NatToString(n / 10);
      assert s[0] == NatToString(n / 10)[0];
    }
  }

  function IntToString(n: int): (r: string)
  {
    if n < 0 then "-" + NatToString(-n) else NatToString(n)
  }

  /** The array index that a property key denotes: a key names an element
      exactly when it is the canonical numeral of that index. */
  function ArrayIndex(key: string): (r: Option<nat>)
    ensures r.Some? ==> key == NatToString(r.value)
  {
    if key != [] && AllDigits(key) && NatToString(DigitsValue(key)) == key
    then Some(DigitsValue(key))
    else None
  }

  lemma ArrayIndexOfNumeral(i: nat)
    ensures ArrayIndex(NatToString(i)) == Some(i)
  {
    NatToStringRoundTrip(i);
  }

  // ----- property lookup -----

  /** The value bound to `key` in an own-property list, or `undefined`. */
  function LookupField(fields: seq<(string, Json)>, key: string): (r: Json)
  {
    if |fields| == 0 then Undefined
    else if fields[|fields| - 1].0 == key then fields[|fields| - 1].1
    else LookupField(fields[..|fields| - 1], key)
  }

  /** A missing key reads as `undefined`; a present key reads as the value
      of its last binding. */
  lemma {:induction false} LookupFieldSpec(fields: seq<(string, Json)>, key: string)
    ensures (forall i :: 0 <= i < |fields| ==> fields[i].0 != key) ==> LookupField(fields, key) == Undefined
    ensures (exists i :: 0 <= i < |fields| && fields[i].0 == key) ==>
              exists i :: 0 <= i < |fields| && fields[i] == (key, LookupField(fields, key)) &&
                          forall j :: i < j < |fields| ==> fields[j].0 != key
  {
    if |fields| > 0 && fields[|fields| - 1].0 != key {
      var init := fields[..|fields| - 1];
      LookupFieldSpec(init, key);
      if exists i :: 0 <= i < |fields| && fields[i].0 == key {
        var i :| 0 <= i < |fields| && fields[i].0 == key;
        assert init[i] == fields[i];
        var w :| 0 <= w < |init| && init[w] == (key, LookupField(init, key)) &&
                 forall j :: w < j < |init| ==> init[j].0 != key;
        assert fields[w] == init[w];
        assert forall j :: w < j < |fields| ==> fields[j].0 != key by {
          forall j | w < j < |fields| ensures fields[j].0 != key {
            if j < |init| { assert fields[j] == init[j]; }
          }
        }
      } else {
        forall i | 0 <= i < |init| ensures init[i].0 != key {
          assert init[i] == fields[i];
        }
      }
    }
  }

  /** `v[key]` for a value that is not nullish. Strings and arrays expose
      their elements under index keys and their `length`; numbers and
      booleans have no own properties. None of the keys the handler reads
      names an inherited property, so prototypes are not modelled. */
  function Get(v: Json, key: string): (r: Json)
    requires !Nullish(v)
  {
    match v
    case Obj(fields) => LookupField(fields, key)
    case Arr(es) =>
      if key == "length" then Num(|es|)
      else (match ArrayIndex(key)
            case Some(i) => if i < |es| then es[i] else Undefined
            case None => Undefined)
    case Str(s) =>
      if key == "length" then Num(|s|)
      else (match ArrayIndex(key)
            case Some(i) => if i < |s| then Str([s[i]]) else Undefined
            case None => Undefined)
    case _ => Undefined
  }

  /** Optional chaining: `undefined` when `v` is nullish, `v[key]` otherwise. */
  function GetOptional(v: Json, key: string): (r: Json)
    ensures Nullish(v) ==> r == Undefined
    ensures !Nullish(v) ==> r == Get(v, key)
  {
    if Nullish(v) then Undefined else Get(v, key)
  }

  lemma GetArrayElement(es: seq<Json>, i: nat)
    requires i < |es|
    ensures Get(Arr(es), NatToString(i)) == es[i]
  {
    ArrayIndexOfNumeral(i);
    NatToStringRoundTrip(i);
  }

  /** A destructuring default replaces `undefined` only; an explicit `null`
      is kept. */
  function WithDefault(v: Json, d: Json): (r: Json)
    ensures r == d <==> v == Undefined || v == d
    ensures v != Undefined ==> r == v
  {
    if v == Undefined then d else v
  }

  // ----- ToString, as used by template literals and by JSON.parse on its argument -----

  /** The message of the TypeError that ToString throws for an object it
      cannot turn into a primitive, as V8 words it. */
  const ConvertErrorMessage: string := "Cannot convert object to primitive value"

  /** Whether ToString succeeds. An object converts through its `toString`
      method; a JSON object with an own `toString` key shadows the inherited
      method with a value that cannot be called, the inherited `valueOf`
      returns the object itself, and the conversion throws. An array
      converts through `join`, so it converts when all its elements do.
      Every other value converts. */
  predicate Printable(v: Json)
    decreases v
  {
    match v
    case Obj(fields) => forall i :: 0 <= i < |fields| ==> fields[i].0 != "toString"
    case Arr(es) => forall i :: 0 <= i < |es| ==> Printable(es[i])
    case _ => true
  }

  /** JavaScript's ToString on a value it succeeds on. Objects render as
      "[object Object]"; an array renders as its elements joined by commas,
      with `null` and `undefined` elements rendered as empty. */
  function ToStr(v: Json): (r: string)
    decreases v, 1, 0
  {
    match v
    case Undefined => "undefined"
    case Null => "null"
    case Bool(b) => if b then "true" else "false"
    case Num(n) => IntToString(n)
    case Str(s) => s
    case Arr(es) => JoinFrom(es, 0)
    case Obj(_) => "[object Object]"
  }

  /** The tail of Array.prototype.join with separator ",", from index `i`. */
  function JoinFrom(es: seq<Json>, i: nat): (r: string)
    requires i <= |es|
    decreases Arr(es), 0, |es| - i
  {
    if i == |es| then ""
    else if i + 1 == |es| then ElementText(es[i])
    else ElementText(es[i]) + "," + JoinFrom(es, i + 1)
  }

  /** How `join` renders one element: `null` and `undefined` as empty. */
  function ElementText(e: Json): (r: string)
    decreases e, 2
  {
    if Nullish(e) then "" else ToStr(e)
  }

  /** ToString as the program evaluates it: the text, or the TypeError. */
  function ConvertToString(v: Json): (r: Result<string, string>)
    ensures r.Success? <==> Printable(v)
    ensures r.Success? ==> r.value == ToStr(v)
    ensures r.Failure? ==> r.error == "Cannot convert object to primitive value"
  {
    if Printable(v) then Success(ToStr(v)) else Failure(ConvertErrorMessage)
  }

  lemma {:induction false} JoinFromAppend(es: seq<Json>, x: Json, i: nat)
    requires i < |es|
    ensures JoinFrom(es + [x], i) == JoinFrom(es, i) + "," + ElementText(x)
    decreases |es| - i
  {
    var ex := es + [x];
    assert ex[i] == es[i];
    assert JoinFrom(ex, i) == ElementText(es[i]) + "," + JoinFrom(ex, i + 1);
    if i + 1 < |es| {
      JoinFromAppend(es, x, i + 1);
      assert JoinFrom(es, i) == ElementText(es[i]) + "," + JoinFrom(es, i + 1);
    } else {
      assert ex[i + 1] == x;
      assert JoinFrom(ex, i + 1) == ElementText(x);
      assert JoinFrom(es, i) == ElementText(es[i]);
    }
  }

  /** An array renders as its elements' texts separated by commas: one
      element renders as that element's text, and appending an element to
      a non-empty array appends a comma and that element's text. */
  lemma ToStrArray(es: seq<Json>, x: Json)
    ensures ToStr(Arr([])) == ""
    ensures ToStr(Arr([x])) == ElementText(x)
    ensures |es| > 0 ==> ToStr(Arr(es + [x])) == ToStr(Arr(es)) + "," + ElementText(x)
  {
    if |es| > 0 {
      JoinFromAppend(es, x, 0);
    }
  }

  lemma ToStrFacts(s: string, b: bool, n: nat)
    ensures ToStr(Str(s)) == s
    ensures ToStr(Bool(b)) == (if b then "true" else "false")
    ensures ToStr(Num(n)) == NatToString(n) && ToStr(Num(-(n as int) - 1)) == "-" + NatToString(n + 1)
    ensures ToStr(Null) == "null" && ToStr(Undefined) == "undefined"
    ensures ToStr(Arr([Null, Str(s)])) == "," + s
  {
    assert ElementText(Str(s)) == s && ElementText(Null) == "";
    assert JoinFrom([Null, Str(s)], 1) == s;
  }

  /** Which values convert: primitives always; an object exactly when it
      has no own `toString` key (an own `valueOf` alone does not matter);
      an array exactly when its elements do. */
  lemma PrintableFacts(v: Json, fields: seq<(string, Json)>)
    ensures !v.Arr? && !v.Obj? ==> Printable(v)
    ensures Printable(Obj(fields)) ==> LookupField(fields, "toString") == Undefined
    ensures Printable(Obj([("valueOf", Num(1))]))
    ensures !Printable(Obj([("toString", Num(1))]))
    ensures !Printable(Arr([Str("a"), Obj([("toString", Null)])]))
  {
    LookupFieldSpec(fields, "toString");
    var bad := Obj([("toString", Null)]);
    assert bad.fields[0].0 == "toString";
    assert Obj([("toString", Num(1))]).fields[0].0 == "toString";
    assert Arr([Str("a"), bad]).elems[1] == bad;
  }

  /** The conversion rules for any object and array: binding `valueOf`
      keeps a convertible object convertible, binding `toString` makes any
      object fail, and one failing element makes the whole array fail. */
  lemma {:induction false} PrintableRules(fields: seq<(string, Json)>, x: Json, es: seq<Json>)
    ensures Printable(Obj(fields)) ==> Printable(Obj(fields + [("valueOf", x)]))
    ensures !Printable(Obj(fields + [("toString", x)]))
    ensures !Printable(Arr(es + [Obj(fields + [("toString", x)])]))
    ensures (exists i :: 0 <= i < |es| && !Printable(es[i])) ==> !Printable(Arr(es))
  {
    var withValueOf := fields + [("valueOf", x)];
    if Printable(Obj(fields)) {
      forall i | 0 <= i < |withValueOf| ensures withValueOf[i].0 != "toString" {
        if i < |fields| {
          assert withValueOf[i] == fields[i];
        } else {
          assert withValueOf[i].0[0] != "toString"[0];
        }
      }
    }
    var withToString := fields + [("toString", x)];
    assert withToString[|fields|].0 == "toString";
    var ex := es + [Obj(withToString)];
    assert ex[|es|] == Obj(withToString);
  }
}
