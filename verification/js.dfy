/**
 * The few pieces of ECMAScript semantics the handlers lean on: `undefined`,
 * truthiness, property reads (plain and optional-chained), conversion to a
 * string (template literals, `JSON.parse` of a non-string), `x || null`,
 * UTF-16 length and `String.prototype.trim`.
 */
module Js {
  import opened Json

  /** A value read from JSON data: `undefined`, or a JSON value. */
  datatype Value = Undefined | Val(json: Json)

  /** A value that may be `null` or `undefined`, as a database column or an optional prop. */
  datatype Option<+T> = None | Some(value: T)

  // ------------------------------------------------------------------
  // Truthiness
  // ------------------------------------------------------------------

  /** ToBoolean: `undefined`, `null`, `false`, `0` and `""` are falsy; everything else is truthy. */
  predicate Truthy(x: Value)
  {
    match x
    case Undefined => false
    case Val(JNull) => false
    case Val(JBool(b)) => b
    case Val(JNum(n)) => n != 0
    case Val(JStr(s)) => s != ""
    case Val(_) => true
  }

  predicate Nullish(x: Value) { x.Undefined? || x == Val(JNull) }

  /** `s || null` on a string: the empty string becomes null, anything else is kept. */
  function OrNull(s: string): (r: Option<string>)
    ensures r.None? <==> s == ""
    ensures r.Some? ==> r.value == s
  {
    if s == "" then None else Some(s)
  }

  /** `s || null` on an optional string prop: absent or empty becomes null. */
  function OptionalOrNull(s: Option<string>): (r: Option<string>)
    ensures r.None? <==> (s.None? || s.value == "")
    ensures r.Some? ==> r == s
  {
    match s
    case None => None
    case Some(x) => OrNull(x)
  }

  // ------------------------------------------------------------------
  // UTF-16 length
  // ------------------------------------------------------------------

  /** `s.length`: the number of UTF-16 code units, two for a character outside the BMP. */
  function Utf16Length(s: string): (n: nat)
    ensures |s| <= n <= 2 * |s|
    ensures n == 0 <==> s == ""
  {
    if s == [] then 0 else (if s[0] as int < 0x10000 then 1 else 2) + Utf16Length(s[1..])
  }

  // ------------------------------------------------------------------
  // Property reads
  // ------------------------------------------------------------------

  /** The array index a property key denotes: a numeral without leading zeros. */
  predicate IsIndexKey(key: string)
  {
    key != [] && AllDigits(key) && (key[0] != '0' || key == "0")
  }

  lemma IndexKeyOfNatToString(n: nat)
    ensures IsIndexKey(NatToString(n)) && DigitsValue(NatToString(n)) == n
  {
    DigitsValueOfNatToString(n);
  }

  /** The value of the first member named `key`. */
  function Lookup(fields: seq<Field>, key: string): (r: Value)
    ensures r.Val? <==> key in Keys(fields)
    ensures r.Val? ==> Field(key, r.json) in fields
  {
    if fields == [] then Undefined
    else if fields[0].key == key then Val(fields[0].value)
    else
      KeysCons(fields[0], fields[1..]);
      assert [fields[0]] + fields[1..] == fields;
      Lookup(fields[1..], key)
  }

  /** With distinct keys, a lookup finds the one member carrying the key. */
  lemma LookupDistinct(fields: seq<Field>, i: nat)
    requires DistinctKeys(fields) && i < |fields|
    ensures Lookup(fields, fields[i].key) == Val(fields[i].value)
  {
    var r := Lookup(fields, fields[i].key);
    assert fields[i].key in Keys(fields);
    var j :| 0 <= j < |fields| && fields[j] == Field(fields[i].key, r.json);
    assert j == i;
  }

  /**
   * `v[key]` on a value that is neither null nor undefined. Only own data is
   * modelled: an object's members, an array's elements and `length`, a
   * string's characters and `length`. None of the keys the handlers read is
   * inherited from a prototype. A string is indexed by character, which is
   * its UTF-16 code unit when the string lies in the Basic Multilingual Plane.
   */
  function Member(v: Json, key: string): (r: Value)
    ensures v.JObj? ==> r == Lookup(v.fields, key)
    ensures (v.JNull? || v.JBool? || v.JNum?) ==> r == Undefined
    ensures v.JStr? ==> (r.Val? <==> key == "length" || (IsIndexKey(key) && DigitsValue(key) < |v.s|))
  {
    match v
    case JObj(fields) => Lookup(fields, key)
    case JArr(items) =>
      if key == "length" then Val(JNum(|items|))
      else if IsIndexKey(key) && DigitsValue(key) < |items| then Val(items[DigitsValue(key)])
      else Undefined
    case JStr(s) =>
      if key == "length" then Val(JNum(Utf16Length(s)))
      else if IsIndexKey(key) && DigitsValue(key) < |s| then Val(JStr([s[DigitsValue(key)]]))
      else Undefined
    case _ => Undefined
  }

  /** Indexing a string inside its bounds reads a one-character string, which is truthy. */
  lemma MemberOfCharacter(s: string, i: nat)
    requires i < |s|
    ensures Member(JStr(s), NatToString(i)) == Val(JStr([s[i]]))
    ensures Truthy(Member(JStr(s), NatToString(i)))
  {
    IndexKeyOfNatToString(i);
  }

  lemma MemberOfIndex(items: seq<Json>, i: nat)
    requires i < |items|
    ensures Member(JArr(items), NatToString(i)) == Val(items[i])
  {
    IndexKeyOfNatToString(i);
  }

  function ReadError(x: Value, key: string): string
    requires Nullish(x)
  {
    "Cannot read properties of " + (if x.Undefined? then "undefined" else "null") + " (reading '" + key + "')"
  }

  /** `x.key`: throws a TypeError when `x` is null or undefined. */
  function Get(x: Value, key: string): (r: Result<Value>)
    ensures r.Err? <==> Nullish(x)
    ensures r.Ok? ==> r.value == Member(x.json, key)
  {
    if Nullish(x) then Err(ReadError(x, key)) else Ok(Member(x.json, key))
  }

  /** `x?.key`: undefined when `x` is null or undefined. */
  function OptGet(x: Value, key: string): (r: Value)
    ensures Nullish(x) ==> r.Undefined?
    ensures !Nullish(x) ==> r == Member(x.json, key)
  {
    if Nullish(x) then Undefined else Member(x.json, key)
  }

  // ------------------------------------------------------------------
  // Conversion to a string
  // ------------------------------------------------------------------

  /** The TypeError of ToPrimitive on an object whose `toString` and `valueOf` give no primitive. */
  const NoPrimitive := "Cannot convert object to primitive value"

  /**
   * ToString throws on the value: an object with an own `toString` member,
   * which shadows the inherited method and is not callable (no JSON value
   * is), so that ToPrimitive is left with `valueOf`, which returns the object
   * itself; or an array holding such an object at any depth, which `join`
   * reaches.
   */
  predicate Unprintable(v: Json)
    decreases v
  {
    match v
    case JObj(fields) => "toString" in Keys(fields)
    case JArr(items) => exists i :: 0 <= i < |items| && Unprintable(items[i])
    case _ => false
  }

  /** Converting `x` to a string throws. */
  predicate ToStringThrows(x: Value)
  {
    x.Val? && Unprintable(x.json)
  }

  /** ToString, as a template literal or `JSON.parse` applies it; it throws on an unprintable value. */
  function ToJsString(x: Value): (r: Result<string>)
    ensures r.Err? <==> ToStringThrows(x)
    ensures r.Err? ==> r.message == NoPrimitive
    ensures x.Val? && x.json.JStr? ==> r == Ok(x.json.s)
  {
    match x
    case Undefined => Ok("undefined")
    case Val(v) => JsonToString(v)
  }

  function JsonToString(v: Json): (r: Result<string>)
    ensures r.Err? <==> Unprintable(v)
    ensures r.Err? ==> r.message == NoPrimitive
    decreases v
  {
    match v
    case JNull => Ok("null")
    case JBool(b) => Ok(if b then "true" else "false")
    case JNum(n) => Ok(IntToString(n))
    case JStr(s) => Ok(s)
    case JArr(items) => JoinItems(items)
    case JObj(fields) => if "toString" in Keys(fields) then Err(NoPrimitive) else Ok("[object Object]")
  }

  /** `Array.prototype.join(",")`: null elements print as nothing; an unprintable element throws. */
  function JoinItems(items: seq<Json>): (r: Result<string>)
    ensures r.Err? <==> exists i :: 0 <= i < |items| && Unprintable(items[i])
    ensures r.Err? ==> r.message == NoPrimitive
    decreases items
  {
    if items == [] then Ok([])
    else
      assert forall i :: 1 <= i < |items| ==> items[i] == items[1..][i - 1];
      var head :- if items[0] == JNull then Ok("") else JsonToString(items[0]);
      if |items| == 1 then Ok(head)
      else
        var tail :- JoinItems(items[1..]);
        Ok(head + "," + tail)
  }

  // ------------------------------------------------------------------
  // String.prototype.trim
  // ------------------------------------------------------------------

  /** WhiteSpace and LineTerminator code points, which `trim` removes. */
  predicate IsJsSpace(c: char)
  {
    var u := c as int;
    u == 0x09 || u == 0x0A || u == 0x0B || u == 0x0C || u == 0x0D || u == 0x20 || u == 0xA0
    || u == 0x1680 || (0x2000 <= u <= 0x200A) || u == 0x2028 || u == 0x2029 || u == 0x202F
    || u == 0x205F || u == 0x3000 || u == 0xFEFF
  }

  predicate AllSpace(s: string) { forall i :: 0 <= i < |s| ==> IsJsSpace(s[i]) }

  /** `t` is `s` with only spaces cut from its two ends, and no space left at either end. */
  predicate IsTrimOf(s: string, t: string, a: nat, b: nat)
  {
    a <= b <= |s| && t == s[a..b] && AllSpace(s[..a]) && AllSpace(s[b..])
    && (t == [] || (!IsJsSpace(t[0]) && !IsJsSpace(t[|t| - 1])))
  }

  /** `s.trim()`: spaces come off the front first, then off the back. */
  function Trim(s: string): (r: string)
    ensures |r| <= |s|
    ensures r == [] || (!IsJsSpace(r[0]) && !IsJsSpace(r[|r| - 1]))
    decreases |s|
  {
    if s == [] then []
    else if IsJsSpace(s[0]) then Trim(s[1..])
    else if IsJsSpace(s[|s| - 1]) then Trim(s[..|s| - 1])
    else s
  }

  /** How many spaces `s` starts with. */
  function LeadingSpaces(s: string): (a: nat)
    ensures a <= |s|
  {
    if s == [] || !IsJsSpace(s[0]) then 0 else 1 + LeadingSpaces(s[1..])
  }

  /** Cutting one more space off the front keeps a trim a trim. */
  lemma SpaceBefore(s: string, t: string, a: nat, b: nat)
    requires s != [] && IsJsSpace(s[0]) && IsTrimOf(s[1..], t, a, b)
    ensures IsTrimOf(s, t, a + 1, b + 1)
  {
    assert s[a + 1..b + 1] == s[1..][a..b];
    assert s[..a + 1] == [s[0]] + s[1..][..a];
    assert s[b + 1..] == s[1..][b..];
  }

  /** Cutting one more space off the back keeps a trim a trim. */
  lemma SpaceAfter(s: string, t: string, b: nat)
    requires s != [] && IsJsSpace(s[|s| - 1]) && IsTrimOf(s[..|s| - 1], t, 0, b)
    ensures IsTrimOf(s, t, 0, b)
  {
    assert s[..b] == s[..|s| - 1][..b];
    assert s[b..] == s[..|s| - 1][b..] + [s[|s| - 1]];
  }

  /** What trim cuts away is spaces, from the two ends only. */
  lemma {:induction false} TrimIsSlice(s: string)
    ensures IsTrimOf(s, Trim(s), LeadingSpaces(s), LeadingSpaces(s) + |Trim(s)|)
    decreases |s|
  {
    if s == [] {
    } else if IsJsSpace(s[0]) {
      TrimIsSlice(s[1..]);
      SpaceBefore(s, Trim(s[1..]), LeadingSpaces(s[1..]), LeadingSpaces(s[1..]) + |Trim(s[1..])|);
    } else if IsJsSpace(s[|s| - 1]) {
      var s' := s[..|s| - 1];
      assert s'[0] == s[0];
      TrimIsSlice(s');
      SpaceAfter(s, Trim(s'), |Trim(s')|);
    } else {
      assert s[..0] == [] && s[|s|..] == [];
    }
  }

  /** Trimming twice is trimming once. */
  lemma TrimIdempotent(s: string)
    ensures Trim(Trim(s)) == Trim(s)
  {
  }

  /** A string trims to nothing exactly when it is all spaces. */
  lemma {:induction false} TrimEmpty(s: string)
    ensures Trim(s) == "" <==> AllSpace(s)
  {
    TrimIsSlice(s);
    var a := LeadingSpaces(s);
    if Trim(s) != "" {
      assert !IsJsSpace(s[a]);
    }
    if Trim(s) == "" {
      assert s == s[..a] + s[a..];
    }
  }
}
