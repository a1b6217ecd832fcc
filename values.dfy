// JavaScript values as the services see them: request bodies, stored
// payloads and the owner identifiers compared by the ownership checks.

module Values {

  /** A JSON-like JavaScript value. Numbers are modelled as integers only. */
  datatype Value =
    | Int(n: int)
    | Str(s: string)
    | Bool(b: bool)
    | Null
    | Undefined
    | Arr(items: seq<Value>)
    | Obj(fields: Payload)

  /** A stored payload or a request body: an object's own enumerable keys. */
  type Payload = map<string, Value>

  /** Property access `o.key` on a plain object: a missing key reads as undefined. */
  function Get(o: Payload, key: string): Value
  {
    if key in o then o[key] else Undefined
  }

  /** Property access `v.key` on an arbitrary value (only objects carry properties here). */
  function Prop(v: Value, key: string): Value
  {
    if v.Obj? then Get(v.fields, key) else Undefined
  }

  /** JavaScript truthiness. */
  predicate Truthy(v: Value)
  {
    match v
    case Int(n) => n != 0
    case Str(s) => s != ""
    case Bool(b) => b
    case Null => false
    case Undefined => false
    case Arr(_) => true
    case Obj(_) => true
  }

  /** `a || b` */
  function Or(a: Value, b: Value): (r: Value)
    ensures Truthy(a) ==> r == a
    ensures !Truthy(a) ==> r == b
  {
    if Truthy(a) then a else b
  }

  /** `a ?? b`: only null and undefined fall through. */
  function Coalesce(a: Value, b: Value): (r: Value)
    ensures a.Null? || a.Undefined? ==> r == b
    ensures !(a.Null? || a.Undefined?) ==> r == a
  {
    if a.Null? || a.Undefined? then b else a
  }

  /** Strict equality `a === b`. Objects and arrays coming from different
      places (a request body, a stored payload) are never the same reference. */
  predicate StrictEquals(a: Value, b: Value)
  {
    !a.Arr? && !a.Obj? && a == b
  }

  /** The own keys an object spread `{...v}` contributes: an object's keys, one
      index key per character of a string or element of an array, and none for
      null, undefined, numbers and booleans. */
  function Spread(v: Value): (p: Payload)
    ensures v.Obj? ==> p == v.fields
    ensures v.Str? ==> p == IndexKeys(seq(|v.s|, i requires 0 <= i < |v.s| => Str([v.s[i]])))
    ensures v.Arr? ==> p == IndexKeys(v.items)
    ensures !v.Obj? && !v.Str? && !v.Arr? ==> p == map[]
  {
    match v
    case Obj(fields) => fields
    case Str(s) => IndexKeys(seq(|s|, i requires 0 <= i < |s| => Str([s[i]])))
    case Arr(items) => IndexKeys(items)
    case _ => map[]
  }

  /** The keys "0", "1", ... of a spread sequence, each holding its element. */
  function IndexKeys(items: seq<Value>): Payload
    decreases |items|
  {
    if items == [] then map[]
    else IndexKeys(items[..|items| - 1])[NatToString(|items| - 1) := items[|items| - 1]]
  }

  /** A spread sequence holds each of its elements under the element's index. */
  lemma IndexKeysHold(items: seq<Value>)
    ensures forall i :: 0 <= i < |items| ==>
      (NatToString(i) in IndexKeys(items) && IndexKeys(items)[NatToString(i)] == items[i])
  {
    forall i | 0 <= i < |items|
      ensures NatToString(i) in IndexKeys(items) && IndexKeys(items)[NatToString(i)] == items[i]
    {
      IndexKeyAt(items, i);
    }
  }

  /** Position `i` keeps its element under its key as later positions are added. */
  lemma {:induction false} IndexKeyAt(items: seq<Value>, i: nat)
    requires i < |items|
    ensures NatToString(i) in IndexKeys(items) && IndexKeys(items)[NatToString(i)] == items[i]
    decreases |items|
  {
    var n := |items| - 1;
    var front := items[..n];
    assert IndexKeys(items) == IndexKeys(front)[NatToString(n) := items[n]];
    if i < n {
      IndexKeyAt(front, i);
      if NatToString(i) == NatToString(n) {
        IntToStringInjective(i, n);
      }
      assert front[i] == items[i];
    }
  }

  /** The key of one of the first `n` positions. */
  ghost predicate IsIndexKey(k: string, n: nat)
  {
    exists i :: 0 <= i < n && k == NatToString(i)
  }

  /** ... and no other key. */
  lemma {:induction false} IndexKeysOnly(items: seq<Value>)
    ensures forall k :: k in IndexKeys(items) ==> IsIndexKey(k, |items|)
    decreases |items|
  {
    if items != [] {
      var n := |items| - 1;
      var front := items[..n];
      IndexKeysOnly(front);
      assert IndexKeys(items) == IndexKeys(front)[NatToString(n) := items[n]];
      forall k | k in IndexKeys(items)
        ensures IsIndexKey(k, |items|)
      {
        if k != NatToString(n) {
          assert IsIndexKey(k, n);
          var i :| 0 <= i < n && k == NatToString(i);
          assert 0 <= i < |items| && k == NatToString(i);
        } else {
          assert 0 <= n < |items| && k == NatToString(n);
        }
      }
    }
  }

  /** `{..."ab"}` is `{"0": "a", "1": "b"}`, and `{...[x]}` is `{"0": x}`. */
  lemma SpreadSequencesExamples(x: Value)
    ensures Spread(Str("ab")) == map["0" := Str("a"), "1" := Str("b")]
    ensures Spread(Arr([x])) == map["0" := x]
    ensures Spread(Int(3)) == map[] && Spread(Null) == map[]
  {
    assert NatToString(0) == "0" && NatToString(1) == "1";
    var chars := seq(2, i requires 0 <= i < 2 => Str(["ab"[i]]));
    assert chars == [Str("a"), Str("b")];
    assert chars[..1] == [Str("a")] && [Str("a")][..0] == [] && [x][..0] == [];
    assert IndexKeys([Str("a")]) == map["0" := Str("a")];
    assert IndexKeys(chars) == IndexKeys([Str("a")])["1" := Str("b")];
  }

  /** Null and undefined: reading any property of them throws. */
  predicate Nullish(v: Value)
  {
    v.Null? || v.Undefined?
  }

  /** The message of the TypeError thrown by reading `key` on null or undefined. */
  function ReadFault(v: Value, key: string): string
  {
    "Cannot read properties of " + JsString(v) + " (reading '" + key + "')"
  }

  /** `{...base, ...update}`: a shallow merge, where the update's keys win. */
  function Merge(base: Payload, update: Payload): (m: Payload)
    ensures m.Keys == base.Keys + update.Keys
    ensures forall k :: k in update ==> m[k] == update[k]
    ensures forall k :: k in base && k !in update ==> m[k] == base[k]
  {
    base + update
  }

  /** `{id, ...payload}`: the shape every listing and lookup returns. A key
      `id` inside the payload wins over the point id. */
  function Entry(id: Value, payload: Payload): (e: Payload)
    ensures "id" in e && ("id" !in payload ==> e["id"] == id)
    ensures forall k :: k in payload ==> k in e && e[k] == payload[k]
    ensures e.Keys == payload.Keys + {"id"}
  {
    map["id" := id] + payload
  }

  /** Decimal text of an integer, as `String(n)` renders it. */
  function IntToString(n: int): string
  {
    if n < 0 then "-" + NatToString(-n) else NatToString(n)
  }

  function NatToString(n: nat): string
    decreases n
  {
    if n < 10 then [DigitChar(n)] else NatToString(n / 10) + [DigitChar(n % 10)]
  }

  function DigitChar(d: nat): char
    requires d < 10
  {
    "0123456789"[d]
  }

  predicate IsDigit(c: char)
  {
    '0' <= c <= '9'
  }

  /** A non-empty run of decimal digits. */
  predicate IsDigits(s: string)
  {
    |s| > 0 && forall i :: 0 <= i < |s| ==> IsDigit(s[i])
  }

  /** The value of a run of decimal digits (leading zeros allowed). */
  function DigitsValue(s: string): int
    requires forall i :: 0 <= i < |s| ==> IsDigit(s[i])
    decreases |s|
  {
    if s == [] then 0
    else DigitsValue(s[..|s| - 1]) * 10 + ((s[|s| - 1] as int) - ('0' as int))
  }

  lemma {:induction false} NatToStringIsDigits(n: nat)
    ensures IsDigits(NatToString(n))
    ensures DigitsValue(NatToString(n)) == n
    decreases n
  {
    if n >= 10 {
      var prefix := NatToString(n / 10);
      NatToStringIsDigits(n / 10);
      var s := prefix + [DigitChar(n % 10)];
      assert s[..|s| - 1] == prefix;
    }
  }

  /** Text that `parseInt(s, 10)` reads completely: an optional minus sign
      and a non-empty run of digits. */
  predicate IsDecimal(s: string)
  {
    IsDigits(s) || (|s| > 1 && s[0] == '-' && IsDigits(s[1..]))
  }

  function ParseDecimal(s: string): int
    requires IsDecimal(s)
  {
    if s[0] == '-' then -DigitsValue(s[1..]) else DigitsValue(s)
  }

  /** Reading back the decimal text of an integer gives the integer. */
  lemma DecimalRoundTrip(n: int)
    ensures IsDecimal(IntToString(n))
    ensures ParseDecimal(IntToString(n)) == n
  {
    if n < 0 {
      NegativeRoundTrip(-n);
    } else {
      NatToStringIsDigits(n);
    }
  }

  /** The text of a negative integer: a minus sign ahead of the digits of its magnitude. */
  lemma NegativeRoundTrip(m: nat)
    requires m > 0
    ensures IsDecimal("-" + NatToString(m))
    ensures ParseDecimal("-" + NatToString(m)) == -(m as int)
  {
    var digits := NatToString(m);
    NatToStringIsDigits(m);
    var s := "-" + digits;
    assert s[0] == '-';
    assert s[1..] == digits;
  }

  /** Distinct integers render differently. */
  lemma IntToStringInjective(a: int, b: int)
    requires IntToString(a) == IntToString(b)
    ensures a == b
  {
    DecimalRoundTrip(a);
    DecimalRoundTrip(b);
  }

  /** `String(v)`, also what a template literal `${v}` renders. */
  function JsString(v: Value): string
    decreases v, 0
  {
    match v
    case Int(n) => IntToString(n)
    case Str(s) => s
    case Bool(b) => if b then "true" else "false"
    case Null => "null"
    case Undefined => "undefined"
    case Obj(_) => "[object Object]"
    case Arr(items) => Join(seq(|items|, i requires 0 <= i < |items| => JoinPart(items[i])), ",")
  }

  /** How `Array.prototype.join` renders one element: null and undefined as empty text. */
  function JoinPart(v: Value): string
    decreases v, 1
  {
    if Nullish(v) then "" else JsString(v)
  }

  /** `parts.join(sep)` */
  function Join(parts: seq<string>, sep: string): string
  {
    if parts == [] then ""
    else if |parts| == 1 then parts[0]
    else parts[0] + sep + Join(parts[1..], sep)
  }

  /** The characters `String.prototype.trim` strips: white space (tab, vertical tab,
      form feed, the byte order mark and the space separators) and line terminators. */
  predicate IsWhitespace(c: char)
  {
    || c == ' ' || c == '\t' || c == '\U{000B}' || c == '\U{000C}' || c == '\U{FEFF}'
    || c == '\U{00A0}' || c == '\U{1680}' || '\U{2000}' <= c <= '\U{200A}'
    || c == '\U{202F}' || c == '\U{205F}' || c == '\U{3000}'
    || c == '\n' || c == '\r' || c == '\U{2028}' || c == '\U{2029}'
  }

  /** `s.trim().length === 0` */
  predicate IsBlank(s: string)
  {
    forall i :: 0 <= i < |s| ==> IsWhitespace(s[i])
  }

  /** `typeof v === 'string' && v.trim().length > 0` (a falsy value fails it too). */
  predicate NonBlankString(v: Value)
  {
    v.Str? && !IsBlank(v.s)
  }

  /** Empty, whitespace-only and non-string values fail; padded text passes. */
  lemma NonBlankStringExamples()
    ensures !NonBlankString(Str("")) && !NonBlankString(Str(" \n\t")) && !NonBlankString(Int(5))
    ensures !NonBlankString(Undefined)
    ensures !NonBlankString(Str("\U{3000}\U{2003}\U{2028}"))
    ensures NonBlankString(Str(" a "))
  {
    assert !IsWhitespace(" a "[1]);
  }

  /** Two integer owners compare equal as strings exactly when they are equal. */
  lemma LooseEqualityOnIntegers(a: int, b: int)
    ensures JsString(Int(a)) == JsString(Int(b)) <==> a == b
  {
    if JsString(Int(a)) == JsString(Int(b)) {
      IntToStringInjective(a, b);
    }
  }

  /** Strict equality implies equality of the string renderings. */
  lemma StrictImpliesLoose(a: Value, b: Value)
    requires StrictEquals(a, b)
    ensures JsString(a) == JsString(b)
  {
  }

  /** ... but not conversely: the number 7 and the string "7". */
  lemma LooseDoesNotImplyStrict()
    ensures JsString(Int(7)) == JsString(Str("7")) && !StrictEquals(Int(7), Str("7"))
  {
    assert NatToString(7) == "7";
  }
}
