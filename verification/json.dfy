/**
 * JSON values as the suggestion pipeline exchanges them, with a model of
 * `JSON.stringify` (Stringify) and of `JSON.parse` (Parse) over them.
 *
 * Numbers are integers. Objects keep their members in source order; Parse
 * builds objects the way `JSON.parse` does, so a repeated key keeps its first
 * position and its last value.
 */
module Json {

  datatype Json =
    | JNull
    | JBool(b: bool)
    | JNum(n: int)
    | JStr(s: string)
    | JArr(items: seq<Json>)
    | JObj(fields: seq<Field>)

  /** One member of an object. */
  datatype Field = Field(key: string, value: Json)

  /** A value, or the message of the error that was thrown instead. */
  datatype Result<+T> = Ok(value: T) | Err(message: string) {
    predicate IsFailure() { Err? }

    function PropagateFailure<U>(): Result<U>
      requires Err?
    {
      Err(message)
    }

    function Extract(): T
      requires Ok?
    {
      value
    }
  }

  const EndOfInput := "Unexpected end of JSON input"
  const UnexpectedToken := "Unexpected token in JSON"
  const BadControl := "Bad control character in string literal in JSON"
  const BadEscape := "Bad escaped character in JSON"
  const BadUnicode := "Bad Unicode escape in JSON"

  lemma Assoc(a: string, b: string, c: string)
    ensures (a + b) + c == a + (b + c)
  {
  }

  // ------------------------------------------------------------------
  // Decimal numerals
  // ------------------------------------------------------------------

  predicate IsDigit(c: char) { '0' <= c <= '9' }

  predicate AllDigits(s: string) { forall i :: 0 <= i < |s| ==> IsDigit(s[i]) }

  function DigitValue(c: char): nat
    requires IsDigit(c)
  {
    c as int - '0' as int
  }

  function DigitChar(d: nat): (c: char)
    requires d < 10
    ensures IsDigit(c) && DigitValue(c) == d
  {
    ('0' as int + d) as char
  }

  /** The decimal numeral of `n`: digits only, and no leading zero. */
  function NatToString(n: nat): (r: string)
    ensures |r| > 0 && AllDigits(r)
    ensures r[0] == '0' <==> n == 0
    ensures n == 0 ==> r == "0"
  {
    if n < 10 then [DigitChar(n)] else NatToString(n / 10) + [DigitChar(n % 10)]
  }

  /** The number a numeral denotes, most significant digit first. */
  function DigitsValue(s: string): nat
    requires AllDigits(s)
  {
    if s == [] then 0 else 10 * DigitsValue(s[..|s| - 1]) + DigitValue(s[|s| - 1])
  }

  lemma {:induction false} DigitsValueOfNatToString(n: nat)
    ensures DigitsValue(NatToString(n)) == n
  {
    if n >= 10 {
      var r := NatToString(n);
      assert r[..|r| - 1] == NatToString(n / 10);
      DigitsValueOfNatToString(n / 10);
    }
  }

  /** The numeral `Number.prototype.toString` gives an integer. */
  function IntToString(n: int): (r: string)
    ensures |r| > 0 && (r[0] == '-' || IsDigit(r[0]))
  {
    if n < 0 then "-" + NatToString(-n) else NatToString(n)
  }

  /** The length of the longest run of digits at the head of `s`. */
  function DigitRun(s: string): (k: nat)
    ensures k <= |s| && AllDigits(s[..k])
    ensures k < |s| ==> !IsDigit(s[k])
    ensures |s| > 0 && IsDigit(s[0]) ==> k > 0
  {
    if s == [] || !IsDigit(s[0]) then 0
    else
      var k := 1 + DigitRun(s[1..]);
      assert s[..k] == [s[0]] + s[1..][..k - 1];
      k
  }

  lemma {:induction false} DigitRunOfNumeral(d: string, rest: string)
    requires AllDigits(d)
    requires rest == [] || !IsDigit(rest[0])
    ensures DigitRun(d + rest) == |d|
  {
    if d != [] {
      assert (d + rest)[1..] == d[1..] + rest;
      DigitRunOfNumeral(d[1..], rest);
    }
  }

  // ------------------------------------------------------------------
  // Characters of string literals
  // ------------------------------------------------------------------

  predicate IsControl(c: char) { c as int < 0x20 }

  predicate IsHex(c: char) { IsDigit(c) || 'a' <= c <= 'f' || 'A' <= c <= 'F' }

  function HexValue(c: char): (d: nat)
    requires IsHex(c)
    ensures d < 16
  {
    if IsDigit(c) then DigitValue(c)
    else if 'a' <= c <= 'f' then c as int - 'a' as int + 10
    else c as int - 'A' as int + 10
  }

  /** The lower-case hexadecimal digit `JSON.stringify` writes for `d`. */
  function HexDigit(d: nat): (c: char)
    requires d < 16
    ensures IsHex(c) && HexValue(c) == d
  {
    if d < 10 then DigitChar(d) else ('a' as int + d - 10) as char
  }

  predicate HasHexQuad(s: string)
  {
    |s| >= 4 && IsHex(s[0]) && IsHex(s[1]) && IsHex(s[2]) && IsHex(s[3])
  }

  function HexQuadValue(s: string): (u: nat)
    requires HasHexQuad(s)
    ensures u < 0x10000
  {
    0x1000 * HexValue(s[0]) + 0x100 * HexValue(s[1]) + 0x10 * HexValue(s[2]) + HexValue(s[3])
  }

  /** How `JSON.stringify` writes one character inside a string literal. */
  function EscapeChar(c: char): (r: string)
    ensures |r| > 0
  {
    if c == '"' then "\\\""
    else if c == '\\' then "\\\\"
    else if c as int == 0x08 then "\\b"
    else if c == '\t' then "\\t"
    else if c == '\n' then "\\n"
    else if c as int == 0x0C then "\\f"
    else if c == '\r' then "\\r"
    else if IsControl(c) then "\\u00" + [HexDigit(c as int / 16), HexDigit(c as int % 16)]
    else [c]
  }

  function EscapeString(s: string): string
  {
    if s == [] then [] else EscapeChar(s[0]) + EscapeString(s[1..])
  }

  /** A string literal: the characters of `s` escaped, between double quotes. */
  function Quote(s: string): (r: string)
    ensures |r| >= 2 && r[0] == '"'
  {
    "\"" + EscapeString(s) + "\""
  }

  // ------------------------------------------------------------------
  // JSON.stringify
  // ------------------------------------------------------------------

  /** Whether `c` can begin the text of a JSON value. */
  predicate StartsValue(c: char)
  {
    c == 'n' || c == 't' || c == 'f' || c == '"' || c == '[' || c == '{' || c == '-' || IsDigit(c)
  }

  /** `JSON.stringify(v)`: compact, with no whitespace between tokens. */
  function Stringify(v: Json): (r: string)
    ensures |r| > 0 && StartsValue(r[0])
    decreases v
  {
    match v
    case JNull => "null"
    case JBool(b) => if b then "true" else "false"
    case JNum(n) => IntToString(n)
    case JStr(s) => Quote(s)
    case JArr(items) => "[" + StringifyItems(items) + "]"
    case JObj(fields) => "{" + StringifyFields(fields) + "}"
  }

  function StringifyItems(items: seq<Json>): (r: string)
    ensures items != [] ==> |r| > 0 && r[0] == Stringify(items[0])[0]
    decreases items
  {
    if items == [] then []
    else if |items| == 1 then Stringify(items[0])
    else Stringify(items[0]) + "," + StringifyItems(items[1..])
  }

  function StringifyMember(f: Field): (r: string)
    ensures |r| > 0 && r[0] == '"'
    decreases f, 0
  {
    Quote(f.key) + ":" + Stringify(f.value)
  }

  function StringifyFields(fields: seq<Field>): (r: string)
    ensures fields != [] ==> |r| > 0 && r[0] == '"'
    decreases fields
  {
    if fields == [] then []
    else if |fields| == 1 then StringifyMember(fields[0])
    else StringifyMember(fields[0]) + "," + StringifyFields(fields[1..])
  }

  // ------------------------------------------------------------------
  // Objects as JSON.parse builds them
  // ------------------------------------------------------------------

  function Keys(fields: seq<Field>): set<string>
  {
    set i | 0 <= i < |fields| :: fields[i].key
  }

  predicate DistinctKeys(fields: seq<Field>)
  {
    forall i, j :: 0 <= i < j < |fields| ==> fields[i].key != fields[j].key
  }

  /** Values whose every object has distinct keys: the values `JSON.parse` can produce. */
  predicate Canonical(v: Json)
    decreases v
  {
    match v
    case JArr(items) => forall i :: 0 <= i < |items| ==> Canonical(items[i])
    case JObj(fields) => DistinctKeys(fields) && forall i :: 0 <= i < |fields| ==> Canonical(fields[i].value)
    case _ => true
  }

  lemma KeysCons(f: Field, fields: seq<Field>)
    ensures Keys([f] + fields) == {f.key} + Keys(fields)
  {
    var r := [f] + fields;
    assert r[0].key == f.key;
    forall x | x in Keys(r) ensures x in {f.key} + Keys(fields) {
      var i :| 0 <= i < |r| && r[i].key == x;
      if i > 0 { assert fields[i - 1].key == x; }
    }
    forall x | x in Keys(fields) ensures x in Keys(r) {
      var i :| 0 <= i < |fields| && fields[i].key == x;
      assert r[i + 1].key == x;
    }
  }

  /** Defining property `k` as `v`: a new key goes last, an existing key keeps its place. */
  function Put(fields: seq<Field>, k: string, v: Json): (r: seq<Field>)
    ensures Keys(r) == Keys(fields) + {k}
    ensures Field(k, v) in r
    ensures k !in Keys(fields) ==> r == fields + [Field(k, v)]
  {
    if fields == [] then [Field(k, v)]
    else
      KeysCons(fields[0], fields[1..]);
      assert [fields[0]] + fields[1..] == fields;
      if fields[0].key == k then
        KeysCons(Field(k, v), fields[1..]);
        [Field(k, v)] + fields[1..]
      else
        var tail := Put(fields[1..], k, v);
        KeysCons(fields[0], tail);
        [fields[0]] + tail
  }

  /** A Put keeps the keys distinct. */
  lemma {:induction false} PutDistinct(fields: seq<Field>, k: string, v: Json)
    requires DistinctKeys(fields)
    ensures DistinctKeys(Put(fields, k, v))
  {
    if fields != [] && fields[0].key != k {
      var tail := fields[1..];
      PutDistinct(tail, k, v);
      KeysCons(fields[0], tail);
      assert fields == [fields[0]] + tail;
      var r := Put(fields, k, v);
      assert r == [fields[0]] + Put(tail, k, v);
      assert fields[0].key !in Keys(Put(tail, k, v));
      forall i, j | 0 <= i < j < |r| ensures r[i].key != r[j].key {
        if i == 0 {
          assert r[j].key in Keys(Put(tail, k, v));
        }
      }
    } else if fields != [] {
      var r := Put(fields, k, v);
      forall i, j | 0 <= i < j < |r| ensures r[i].key != r[j].key {
        assert fields[i].key != fields[j].key;
      }
    }
  }

  /** Every member after a Put was there before or is the one just defined. */
  lemma {:induction false} PutMembers(fields: seq<Field>, k: string, v: Json)
    ensures forall f :: f in Put(fields, k, v) ==> f in fields || f == Field(k, v)
  {
    if fields != [] && fields[0].key != k {
      PutMembers(fields[1..], k, v);
    }
  }

  /** The object `JSON.parse` builds from its members in source order. */
  function Assemble(fields: seq<Field>): (r: seq<Field>)
    ensures DistinctKeys(r)
    ensures Keys(r) == Keys(fields)
    ensures forall f :: f in r ==> f in fields
  {
    if fields == [] then []
    else
      var init := fields[..|fields| - 1];
      var last := fields[|fields| - 1];
      assert Keys(fields) == Keys(init) + {last.key} by {
        forall x | x in Keys(fields) ensures x in Keys(init) + {last.key} {
          var i :| 0 <= i < |fields| && fields[i].key == x;
          if i < |fields| - 1 { assert init[i].key == x; }
        }
      }
      PutMembers(Assemble(init), last.key, last.value);
      PutDistinct(Assemble(init), last.key, last.value);
      Put(Assemble(init), last.key, last.value)
  }

  /** Members with distinct keys come through unchanged. */
  lemma {:induction false} AssembleDistinct(fields: seq<Field>)
    requires DistinctKeys(fields)
    ensures Assemble(fields) == fields
  {
    if fields != [] {
      var init := fields[..|fields| - 1];
      var last := fields[|fields| - 1];
      assert DistinctKeys(init) by {
        forall i, j | 0 <= i < j < |init| ensures init[i].key != init[j].key {
          assert init[i] == fields[i] && init[j] == fields[j];
        }
      }
      AssembleDistinct(init);
      assert last.key !in Keys(init) by {
        forall i | 0 <= i < |init| ensures init[i].key != last.key {
          assert init[i] == fields[i];
        }
      }
      assert init + [last] == fields;
    }
  }

  // ------------------------------------------------------------------
  // JSON.parse
  // ------------------------------------------------------------------

  predicate IsWs(c: char) { c == ' ' || c == '\t' || c == '\n' || c == '\r' }

  function SkipWs(s: string): (r: string)
    ensures |r| <= |s|
    ensures r == [] || !IsWs(r[0])
  {
    if s != [] && IsWs(s[0]) then SkipWs(s[1..]) else s
  }

  /** A character escape after its backslash. */
  function ParseEscape(s: string): (r: Result<(char, string)>)
    ensures r.Ok? ==> |r.value.1| < |s|
  {
    if s == [] then Err(EndOfInput)
    else if s[0] == '"' then Ok(('"', s[1..]))
    else if s[0] == '\\' then Ok(('\\', s[1..]))
    else if s[0] == '/' then Ok(('/', s[1..]))
    else if s[0] == 'b' then Ok((0x08 as char, s[1..]))
    else if s[0] == 'f' then Ok((0x0C as char, s[1..]))
    else if s[0] == 'n' then Ok(('\n', s[1..]))
    else if s[0] == 'r' then Ok(('\r', s[1..]))
    else if s[0] == 't' then Ok(('\t', s[1..]))
    else if s[0] == 'u' then ParseUnicodeEscape(s[1..])
    else Err(BadEscape)
  }

  /** A `\u` escape after its `u`; a surrogate pair combines into one character. */
  function ParseUnicodeEscape(s: string): (r: Result<(char, string)>)
    ensures r.Ok? ==> |r.value.1| < |s|
  {
    if !HasHexQuad(s) then Err(BadUnicode)
    else
      var u := HexQuadValue(s);
      if u < 0xD800 || 0xDFFF < u then Ok((u as char, s[4..]))
      else if u <= 0xDBFF && |s| >= 6 && s[4] == '\\' && s[5] == 'u' && HasHexQuad(s[6..])
              && 0xDC00 <= HexQuadValue(s[6..]) <= 0xDFFF then
        var lo := HexQuadValue(s[6..]);
        Ok(((0x10000 + (u - 0xD800) * 0x400 + (lo - 0xDC00)) as char, s[10..]))
      else Err(BadUnicode)
  }

  /** The characters of a string literal after its opening quote, up to and including the closing one. */
  function ParseStringBody(s: string): (r: Result<(string, string)>)
    ensures r.Ok? ==> |r.value.1| < |s|
    decreases |s|
  {
    if s == [] then Err(EndOfInput)
    else if s[0] == '"' then Ok(([], s[1..]))
    else if IsControl(s[0]) then Err(BadControl)
    else if s[0] == '\\' then
      var e :- ParseEscape(s[1..]);
      var tail :- ParseStringBody(e.1);
      Ok(([e.0] + tail.0, tail.1))
    else
      var tail :- ParseStringBody(s[1..]);
      Ok(([s[0]] + tail.0, tail.1))
  }

  function ParseLiteral(s: string, word: string, v: Json): (r: Result<(Json, string)>)
    requires |word| > 0
    ensures r.Ok? ==> |r.value.1| < |s|
  {
    if |word| <= |s| && s[..|word|] == word then Ok((v, s[|word|..]))
    else if |s| < |word| && s == word[..|s|] then Err(EndOfInput)
    else Err(UnexpectedToken)
  }

  /** An integer: an optional minus, then `0` alone or a run of digits not starting with `0`. */
  function ParseNumber(s: string): (r: Result<(Json, string)>)
    ensures r.Ok? ==> |r.value.1| < |s|
  {
    var neg := |s| > 0 && s[0] == '-';
    var t := if neg then s[1..] else s;
    if t == [] then Err(EndOfInput)
    else if !IsDigit(t[0]) then Err(UnexpectedToken)
    else if t[0] == '0' then Ok((JNum(0), t[1..]))
    else
      var k := DigitRun(t);
      var m: int := DigitsValue(t[..k]);
      Ok((JNum(if neg then -m else m), t[k..]))
  }

  /** One value after optional whitespace; yields the value and the text after it. */
  function ParseValue(s: string): (r: Result<(Json, string)>)
    ensures r.Ok? ==> |r.value.1| < |s| && Canonical(r.value.0)
    decreases |s|, 0
  {
    var t := SkipWs(s);
    if t == [] then Err(EndOfInput)
    else if t[0] == '{' then ParseObject(t[1..])
    else if t[0] == '[' then ParseArray(t[1..])
    else if t[0] == '"' then
      var p :- ParseStringBody(t[1..]);
      Ok((JStr(p.0), p.1))
    else if t[0] == 't' then ParseLiteral(t, "true", JBool(true))
    else if t[0] == 'f' then ParseLiteral(t, "false", JBool(false))
    else if t[0] == 'n' then ParseLiteral(t, "null", JNull)
    else if t[0] == '-' || IsDigit(t[0]) then ParseNumber(t)
    else Err(UnexpectedToken)
  }

  /** The rest of an array after its `[`. */
  function ParseArray(s: string): (r: Result<(Json, string)>)
    ensures r.Ok? ==> |r.value.1| < |s| && Canonical(r.value.0)
    decreases |s|, 2
  {
    var t := SkipWs(s);
    if t != [] && t[0] == ']' then Ok((JArr([]), t[1..]))
    else
      var p :- ParseElements(t);
      Ok((JArr(p.0), p.1))
  }

  /** Elements separated by commas, then the closing `]`. */
  function ParseElements(s: string): (r: Result<(seq<Json>, string)>)
    ensures r.Ok? ==> |r.value.1| < |s|
    ensures r.Ok? ==> forall i :: 0 <= i < |r.value.0| ==> Canonical(r.value.0[i])
    decreases |s|, 1
  {
    var first :- ParseValue(s);
    var t := SkipWs(first.1);
    if t == [] then Err(EndOfInput)
    else if t[0] == ',' then
      var more :- ParseElements(t[1..]);
      Ok(([first.0] + more.0, more.1))
    else if t[0] == ']' then Ok(([first.0], t[1..]))
    else Err(UnexpectedToken)
  }

  /** The rest of an object after its `{`. */
  function ParseObject(s: string): (r: Result<(Json, string)>)
    ensures r.Ok? ==> |r.value.1| < |s| && Canonical(r.value.0)
    decreases |s|, 2
  {
    var t := SkipWs(s);
    if t != [] && t[0] == '}' then Ok((JObj([]), t[1..]))
    else
      var p :- ParseMembers(t);
      var fields := Assemble(p.0);
      assert forall i :: 0 <= i < |fields| ==> Canonical(fields[i].value) by {
        forall i | 0 <= i < |fields| ensures Canonical(fields[i].value) {
          assert fields[i] in p.0;
        }
      }
      Ok((JObj(fields), p.1))
  }

  /** Members `"key":value` separated by commas, then the closing `}`; `s` starts at a key. */
  function ParseMembers(s: string): (r: Result<(seq<Field>, string)>)
    ensures r.Ok? ==> |r.value.1| < |s|
    ensures r.Ok? ==> forall f :: f in r.value.0 ==> Canonical(f.value)
    decreases |s|, 1
  {
    if s == [] then Err(EndOfInput)
    else if s[0] != '"' then Err(UnexpectedToken)
    else
      var key :- ParseStringBody(s[1..]);
      var t := SkipWs(key.1);
      if t == [] then Err(EndOfInput)
      else if t[0] != ':' then Err(UnexpectedToken)
      else
        var value :- ParseValue(t[1..]);
        var u := SkipWs(value.1);
        if u == [] then Err(EndOfInput)
        else if u[0] == ',' then
          var more :- ParseMembers(SkipWs(u[1..]));
          Ok(([Field(key.0, value.0)] + more.0, more.1))
        else if u[0] == '}' then Ok(([Field(key.0, value.0)], u[1..]))
        else Err(UnexpectedToken)
  }

  /** `JSON.parse(s)`: one value, surrounded by nothing but whitespace. */
  function Parse(s: string): (r: Result<Json>)
    ensures r.Ok? ==> Canonical(r.value)
  {
    var p :- ParseValue(s);
    if SkipWs(p.1) == [] then Ok(p.0) else Err(UnexpectedToken)
  }

  // ------------------------------------------------------------------
  // Round trip: JSON.parse(JSON.stringify(v)) == v
  // ------------------------------------------------------------------

  /** Text that may follow a value inside the output of Stringify. */
  predicate Delimited(rest: string)
  {
    rest == [] || rest[0] == ',' || rest[0] == ']' || rest[0] == '}'
  }

  lemma {:induction false} ParseNumberOfNumeral(neg: bool, m: nat, rest: string)
    requires m > 0 && Delimited(rest)
    ensures ParseNumber((if neg then "-" else "") + NatToString(m) + rest) == Ok((JNum(if neg then -(m as int) else m as int), rest))
  {
    var d := NatToString(m);
    var s := (if neg then "-" else "") + d + rest;
    NumeralText(m, rest);
    if neg {
      assert s[1..] == d + rest;
    } else {
      assert s == d + rest;
    }
  }

  /** The digits of a positive numeral followed by a delimiter, as ParseNumber splits them. */
  lemma NumeralText(m: nat, rest: string)
    requires m > 0 && Delimited(rest)
    ensures var t := NatToString(m) + rest;
      t != [] && IsDigit(t[0]) && t[0] != '0' && DigitRun(t) == |NatToString(m)|
      && t[..|NatToString(m)|] == NatToString(m) && t[|NatToString(m)|..] == rest
      && DigitsValue(t[..|NatToString(m)|]) == m
  {
    var d := NatToString(m);
    DigitRunOfNumeral(d, rest);
    DigitsValueOfNatToString(m);
    assert (d + rest)[..|d|] == d;
  }

  lemma {:induction false} ParseNumberOfIntToString(n: int, rest: string)
    requires Delimited(rest)
    ensures ParseNumber(IntToString(n) + rest) == Ok((JNum(n), rest))
  {
    if n < 0 {
      ParseNumberOfNumeral(true, -n, rest);
    } else if n > 0 {
      assert "" + NatToString(n) == NatToString(n);
      ParseNumberOfNumeral(false, n, rest);
    } else {
      var s := "0" + rest;
      assert s[1..] == rest;
    }
  }

  lemma {:induction false} ParseEscapedChar(c: char, tail: string, x: string, rest: string)
    requires ParseStringBody(tail) == Ok((x, rest))
    ensures ParseStringBody(EscapeChar(c) + tail) == Ok(([c] + x, rest))
  {
    var s := EscapeChar(c) + tail;
    if c == '"' || c == '\\' || c as int == 0x08 || c == '\t' || c == '\n' || c as int == 0x0C || c == '\r' {
      assert s[1..] == [EscapeChar(c)[1]] + tail;
    } else if IsControl(c) {
      ParseControlChar(c, tail, x, rest);
    } else {
      assert s[1..] == tail;
    }
  }

  lemma {:induction false} ParseControlChar(c: char, tail: string, x: string, rest: string)
    requires IsControl(c) && c as int != 0x08 && c != '\t' && c != '\n' && c as int != 0x0C && c != '\r'
    requires ParseStringBody(tail) == Ok((x, rest))
    ensures ParseStringBody(EscapeChar(c) + tail) == Ok(([c] + x, rest))
  {
    var s := EscapeChar(c) + tail;
    var quad := ['0', '0', HexDigit(c as int / 16), HexDigit(c as int % 16)] + tail;
    assert EscapeChar(c) == "\\u00" + [HexDigit(c as int / 16), HexDigit(c as int % 16)];
    assert s[1..][1..] == quad;
    ParseControlQuad(c, tail);
  }

  lemma ParseControlQuad(c: char, tail: string)
    requires IsControl(c)
    ensures ParseUnicodeEscape(['0', '0', HexDigit(c as int / 16), HexDigit(c as int % 16)] + tail) == Ok((c, tail))
  {
    var quad := ['0', '0', HexDigit(c as int / 16), HexDigit(c as int % 16)] + tail;
    ControlQuadValue(c, quad);
    assert quad[4..] == tail;
  }

  lemma ControlQuadValue(c: char, quad: string)
    requires IsControl(c)
    requires |quad| >= 4 && quad[0] == '0' && quad[1] == '0'
    requires quad[2] == HexDigit(c as int / 16) && quad[3] == HexDigit(c as int % 16)
    ensures HasHexQuad(quad) && HexQuadValue(quad) == c as int
  {
    assert HexValue('0') == 0;
  }

  lemma {:induction false} ParseStringBodyOfEscape(x: string, rest: string)
    ensures ParseStringBody(EscapeString(x) + "\"" + rest) == Ok((x, rest))
  {
    if x == [] {
      assert EscapeString(x) + "\"" + rest == "\"" + rest;
    } else {
      var tail := EscapeString(x[1..]) + "\"" + rest;
      ParseStringBodyOfEscape(x[1..], rest);
      ParseEscapedChar(x[0], tail, x[1..], rest);
      Assoc(EscapeChar(x[0]), EscapeString(x[1..]), "\"");
      Assoc(EscapeChar(x[0]), EscapeString(x[1..]) + "\"", rest);
      assert [x[0]] + x[1..] == x;
    }
  }

  lemma {:induction false} ParseValueOfStringify(v: Json, rest: string)
    requires Canonical(v) && Delimited(rest)
    ensures ParseValue(Stringify(v) + rest) == Ok((v, rest))
    decreases v, 3
  {
    match v
    case JArr(items) => ParseValueOfArray(items, rest);
    case JObj(fields) => ParseValueOfObject(fields, rest);
    case _ => ParseValueOfScalar(v, rest);
  }

  lemma ParseValueOfScalar(v: Json, rest: string)
    requires !v.JArr? && !v.JObj? && Delimited(rest)
    ensures ParseValue(Stringify(v) + rest) == Ok((v, rest))
  {
    match v
    case JNull => ParseValueOfWord("null", JNull, rest);
    case JBool(b) => if b { ParseValueOfWord("true", v, rest); } else { ParseValueOfWord("false", v, rest); }
    case JNum(n) => ParseValueOfNumber(n, rest);
    case JStr(x) => ParseValueOfString(x, rest);
  }

  lemma ParseValueOfWord(word: string, v: Json, rest: string)
    requires (word, v) == ("null", JNull) || (word, v) == ("true", JBool(true)) || (word, v) == ("false", JBool(false))
    ensures ParseValue(word + rest) == Ok((v, rest))
  {
    var s := word + rest;
    assert SkipWs(s) == s;
    assert s[..|word|] == word && s[|word|..] == rest;
  }

  lemma ParseValueOfNumber(n: int, rest: string)
    requires Delimited(rest)
    ensures ParseValue(IntToString(n) + rest) == Ok((JNum(n), rest))
  {
    var s := IntToString(n) + rest;
    assert SkipWs(s) == s;
    ParseNumberOfIntToString(n, rest);
  }

  lemma ParseValueOfString(x: string, rest: string)
    ensures ParseValue(Quote(x) + rest) == Ok((JStr(x), rest))
  {
    var s := Quote(x) + rest;
    assert SkipWs(s) == s;
    Assoc("\"" + EscapeString(x), "\"", rest);
    Assoc("\"", EscapeString(x), "\"" + rest);
    assert s[1..] == EscapeString(x) + ("\"" + rest);
    Assoc(EscapeString(x), "\"", rest);
    ParseStringBodyOfEscape(x, rest);
  }

  lemma {:induction false} ParseValueOfArray(items: seq<Json>, rest: string)
    requires forall i :: 0 <= i < |items| ==> Canonical(items[i])
    ensures ParseValue(Stringify(JArr(items)) + rest) == Ok((JArr(items), rest))
    decreases items, 3
  {
    var s := Stringify(JArr(items)) + rest;
    assert SkipWs(s) == s;
    assert s[1..] == StringifyItems(items) + "]" + rest;
    ParseArrayOfStringify(items, rest);
  }

  lemma {:induction false} ParseValueOfObject(fields: seq<Field>, rest: string)
    requires DistinctKeys(fields)
    requires forall i :: 0 <= i < |fields| ==> Canonical(fields[i].value)
    ensures ParseValue(Stringify(JObj(fields)) + rest) == Ok((JObj(fields), rest))
    decreases fields, 3
  {
    var s := Stringify(JObj(fields)) + rest;
    assert SkipWs(s) == s;
    assert s[1..] == StringifyFields(fields) + "}" + rest;
    ParseObjectOfStringify(fields, rest);
  }

  lemma {:induction false} ParseArrayOfStringify(items: seq<Json>, rest: string)
    requires forall i :: 0 <= i < |items| ==> Canonical(items[i])
    ensures ParseArray(StringifyItems(items) + "]" + rest) == Ok((JArr(items), rest))
    decreases items, 2
  {
    var s := StringifyItems(items) + "]" + rest;
    if items == [] {
      assert s == "]" + rest;
      assert SkipWs(s) == s;
    } else {
      assert s[0] == Stringify(items[0])[0];
      assert SkipWs(s) == s;
      ParseElementsOfStringify(items, rest);
    }
  }

  lemma {:induction false} ParseObjectOfStringify(fields: seq<Field>, rest: string)
    requires DistinctKeys(fields)
    requires forall i :: 0 <= i < |fields| ==> Canonical(fields[i].value)
    ensures ParseObject(StringifyFields(fields) + "}" + rest) == Ok((JObj(fields), rest))
    decreases fields, 2
  {
    var s := StringifyFields(fields) + "}" + rest;
    if fields == [] {
      assert s == "}" + rest;
      assert SkipWs(s) == s;
    } else {
      assert SkipWs(s) == s;
      ParseMembersOfStringify(fields, rest);
      AssembleDistinct(fields);
    }
  }

  lemma ItemsSplit(items: seq<Json>, rest: string)
    requires |items| > 1
    ensures StringifyItems(items) + "]" + rest == Stringify(items[0]) + ("," + (StringifyItems(items[1..]) + "]" + rest))
  {
    var h := Stringify(items[0]);
    var tail := StringifyItems(items[1..]);
    assert StringifyItems(items) == h + "," + tail;
    Assoc(h + ",", tail, "]");
    Assoc(h + ",", tail + "]", rest);
    Assoc(h, ",", tail + "]" + rest);
  }

  lemma {:induction false} ParseElementsOfStringify(items: seq<Json>, rest: string)
    requires |items| > 0
    requires forall i :: 0 <= i < |items| ==> Canonical(items[i])
    ensures ParseElements(StringifyItems(items) + "]" + rest) == Ok((items, rest))
    decreases items, 1
  {
    if |items| == 1 {
      var after := "]" + rest;
      Assoc(Stringify(items[0]), "]", rest);
      ParseValueOfStringify(items[0], after);
      ParseElementsStep(Stringify(items[0]) + after, items[0], after, [], rest);
      assert [items[0]] == items;
    } else {
      var after := "," + (StringifyItems(items[1..]) + "]" + rest);
      ItemsSplit(items, rest);
      ParseValueOfStringify(items[0], after);
      ParseElementsOfStringify(items[1..], rest);
      ParseElementsStep(Stringify(items[0]) + after, items[0], after, items[1..], rest);
      assert [items[0]] + items[1..] == items;
    }
  }

  /** One step of ParseElements, separated from the text it runs on. */
  lemma ParseElementsStep(s: string, v: Json, after: string, more: seq<Json>, rest: string)
    requires ParseValue(s) == Ok((v, after))
    requires after != [] && (after[0] == ',' || after[0] == ']')
    requires after[0] == ',' ==> ParseElements(after[1..]) == Ok((more, rest))
    ensures after[0] == ']' ==> ParseElements(s) == Ok(([v], after[1..]))
    ensures after[0] == ',' ==> ParseElements(s) == Ok(([v] + more, rest))
  {
    assert SkipWs(after) == after;
  }

  /** One step of ParseMembers, separated from the text it runs on. */
  lemma ParseMembersStep(s: string, k: string, x: string, v: Json, after: string, more: seq<Field>, rest: string)
    requires s != [] && s[0] == '"'
    requires ParseStringBody(s[1..]) == Ok((k, ":" + x))
    requires ParseValue(x) == Ok((v, after))
    requires after != [] && (after[0] == ',' || after[0] == '}')
    requires after[0] == ',' ==> after[1..] != [] && after[1..][0] == '"' && ParseMembers(after[1..]) == Ok((more, rest))
    ensures after[0] == '}' ==> ParseMembers(s) == Ok(([Field(k, v)], after[1..]))
    ensures after[0] == ',' ==> ParseMembers(s) == Ok(([Field(k, v)] + more, rest))
  {
    assert SkipWs(":" + x) == ":" + x;
    assert (":" + x)[1..] == x;
    assert SkipWs(after) == after;
    if after[0] == ',' {
      assert SkipWs(after[1..]) == after[1..];
    }
  }

  /** The text after the first member of a non-empty member list and its closing brace. */
  function AfterFirstMember(fields: seq<Field>, rest: string): string
    requires |fields| > 0
  {
    if |fields| == 1 then "}" + rest else "," + (StringifyFields(fields[1..]) + "}" + rest)
  }

  lemma MembersSplit(fields: seq<Field>, rest: string)
    requires |fields| > 0
    ensures StringifyFields(fields) + "}" + rest == StringifyMember(fields[0]) + AfterFirstMember(fields, rest)
  {
    var m := StringifyMember(fields[0]);
    if |fields| > 1 {
      var tail := StringifyFields(fields[1..]);
      assert StringifyFields(fields) == m + "," + tail;
      Assoc(m + ",", tail, "}");
      Assoc(m + ",", tail + "}", rest);
      Assoc(m, ",", tail + "}" + rest);
    }
  }

  lemma Regroup(q: string, e: string, c: string, v: string, after: string)
    ensures q + e + q + c + v + after == q + (e + q + (c + (v + after)))
  {
  }

  lemma MemberText(f: Field, after: string)
    ensures StringifyMember(f) + after
         == "\"" + (EscapeString(f.key) + "\"" + (":" + (Stringify(f.value) + after)))
  {
    var e := EscapeString(f.key);
    var v := Stringify(f.value);
    assert StringifyMember(f) == "\"" + e + "\"" + ":" + v;
    Regroup("\"", e, ":", v, after);
  }

  lemma MembersText(fields: seq<Field>, rest: string)
    requires |fields| > 0
    ensures var s := StringifyFields(fields) + "}" + rest;
      s != [] && s[0] == '"'
      && s[1..] == EscapeString(fields[0].key) + "\"" + (":" + (Stringify(fields[0].value) + AfterFirstMember(fields, rest)))
  {
    MembersSplit(fields, rest);
    MemberText(fields[0], AfterFirstMember(fields, rest));
  }

  lemma {:induction false} ParseMembersOfStringify(fields: seq<Field>, rest: string)
    requires |fields| > 0
    requires forall i :: 0 <= i < |fields| ==> Canonical(fields[i].value)
    ensures ParseMembers(StringifyFields(fields) + "}" + rest) == Ok((fields, rest))
    decreases fields, 1
  {
    if |fields| > 1 {
      ParseMembersOfStringify(fields[1..], rest);
    }
    ParseFirstMember(fields, rest);
  }

  /** The first member is parsed, then the others as the tail's own text parses them. */
  lemma ParseFirstMember(fields: seq<Field>, rest: string)
    requires |fields| > 0 && Canonical(fields[0].value)
    requires |fields| > 1 ==> ParseMembers(StringifyFields(fields[1..]) + "}" + rest) == Ok((fields[1..], rest))
    ensures ParseMembers(StringifyFields(fields) + "}" + rest) == Ok((fields, rest))
    decreases fields, 0
  {
    var f := fields[0];
    var after := AfterFirstMember(fields, rest);
    var x := Stringify(f.value) + after;
    var s := StringifyFields(fields) + "}" + rest;
    MembersText(fields, rest);
    ParseStringBodyOfEscape(f.key, ":" + x);
    ParseValueOfStringify(f.value, after);
    if |fields| == 1 {
      ParseMembersStep(s, f.key, x, f.value, after, [], rest);
      assert [f] == fields;
    } else {
      ParseMembersStep(s, f.key, x, f.value, after, fields[1..], rest);
      assert [f] + fields[1..] == fields;
    }
  }

  /** `JSON.parse` undoes `JSON.stringify` on every value it can produce. */
  lemma ParseStringify(v: Json)
    requires Canonical(v)
    ensures Parse(Stringify(v)) == Ok(v)
  {
    ParseValueOfStringify(v, []);
    assert Stringify(v) + [] == Stringify(v);
  }

  /** Re-serialising what was parsed from serialised text gives back that text verbatim. */
  lemma StringifyParse(s: string, v: Json)
    requires Canonical(v) && s == Stringify(v)
    ensures Parse(s).Ok? && Stringify(Parse(s).value) == s
  {
    ParseStringify(v);
  }
}
