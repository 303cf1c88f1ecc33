/**
  JavaScript values as the gateway sees them: JSON documents, the `undefined`
  of a missing property, JavaScript truthiness and the `||` default idiom,
  JSON.stringify, and the outcome of one call to the hosted language model.

  JSON.parse is not defined here: every operation that parses takes it as a
  parameter `parse: string -> Option<Json>`, and the lemmas that need its
  round trip with Stringify say so with `Lawful(parse)`.
*/
module Json {

  datatype Option<+T> = None | Some(value: T)

  datatype Result<+T, +E> = Ok(value: T) | Err(error: E)

  /** A JSON value. Numbers are integers (see README, "Left out"). */
  datatype Json =
    | JNull
    | JBool(b: bool)
    | JNum(n: int)
    | JStr(s: string)
    | JArr(items: seq<Json>)
    | JObj(members: seq<(string, Json)>)

  /** The outcome of one chat-completion request: the client threw an error
      with this message, or it answered with the content of the first choice
      ("" when the answer had no choice, no message or empty content: all of
      them are falsy). */
  datatype Completion = ClientError(message: string) | Answered(content: string)

  /** A check that returns normally or throws an error with a message. */
  datatype Outcome = Pass | Fail(message: string)

  /** An HTTP answer: status code and JSON body. */
  datatype Response = Response(status: int, body: Json)

  /** A `{status, message}` pair as the error classifiers return it. */
  datatype StatusMessage = StatusMessage(status: int, message: string)

  /** The value bound to `key` in a list of members, if any. */
  function Lookup(members: seq<(string, Json)>, key: string): (r: Option<Json>)
    ensures r.Some? <==> exists i :: 0 <= i < |members| && members[i].0 == key
    ensures r.Some? ==> exists i :: 0 <= i < |members| && members[i] == (key, r.value)
  {
    if |members| == 0 then None
    else if members[0].0 == key then Some(members[0].1)
    else
      var r := Lookup(members[1..], key);
      assert forall i :: 0 <= i < |members| - 1 ==> members[1..][i] == members[i + 1];
      r
  }

  /** In an object without repeated keys, each key reads back its own value. */
  lemma {:induction false} LookupDistinct(members: seq<(string, Json)>, i: nat)
    requires DistinctKeys(members) && i < |members|
    ensures Lookup(members, members[i].0) == Some(members[i].1)
  {
    if i > 0 {
      assert DistinctKeys(members[1..]);
      LookupDistinct(members[1..], i - 1);
    }
  }

  /** The JavaScript property read `v.key` on a parsed value. None is
      `undefined`. Only object members are found: none of the keys the
      gateway reads is a built-in property of a string, number, boolean or
      array. Reading from `null` throws in JavaScript; each caller handles
      JNull itself. */
  function Get(v: Json, key: string): (r: Option<Json>)
    ensures r.Some? ==> v.JObj?
    ensures v.JObj? ==> r == Lookup(v.members, key)
  {
    if v.JObj? then Lookup(v.members, key) else None
  }

  /** JavaScript truthiness, with None standing for `undefined`. */
  predicate Truthy(v: Option<Json>)
  {
    match v
    case None => false
    case Some(JNull) => false
    case Some(JBool(b)) => b
    case Some(JNum(n)) => n != 0
    case Some(JStr(s)) => s != ""
    case Some(JArr(_)) => true
    case Some(JObj(_)) => true
  }

  /** The falsy values are exactly `undefined`, `null`, `false`, `0` and
      the empty string; every array and every object is truthy. */
  lemma FalsyValues(v: Option<Json>)
    ensures !Truthy(v) <==>
              v.None? || v == Some(JNull) || v == Some(JBool(false)) || v == Some(JNum(0)) || v == Some(JStr(""))
  {
  }

  /** `v || fallback`: the value itself when it is truthy, otherwise the
      fallback. */
  function Or(v: Option<Json>, fallback: Json): (r: Json)
    ensures Truthy(v) ==> Some(r) == v
    ensures !Truthy(v) ==> r == fallback
  {
    if Truthy(v) then v.value else fallback
  }

  /** `obj[key] = v` on an object's members: the binding is replaced where
      the key exists and appended otherwise. */
  function Assign(members: seq<(string, Json)>, key: string, v: Json): (r: seq<(string, Json)>)
    ensures Lookup(r, key) == Some(v)
    ensures forall k :: k != key ==> Lookup(r, k) == Lookup(members, k)
    ensures Lookup(members, key).None? ==> r == members + [(key, v)]
  {
    if |members| == 0 then [(key, v)]
    else
      LookupFirst(members[0], members[1..]);
      assert members == [members[0]] + members[1..];
      if members[0].0 == key then
        LookupFirst((key, v), members[1..]);
        [(key, v)] + members[1..]
      else
        var rest := Assign(members[1..], key, v);
        LookupFirst(members[0], rest);
        assert Lookup(members[1..], key).None? ==> [members[0]] + (members[1..] + [(key, v)]) == members + [(key, v)];
        [members[0]] + rest
  }

  /** A lookup reads the first binding, then the rest. */
  lemma LookupFirst(m: (string, Json), rest: seq<(string, Json)>)
    ensures forall k :: Lookup([m] + rest, k) == if m.0 == k then Some(m.1) else Lookup(rest, k)
  {
    assert ([m] + rest)[1..] == rest;
  }

  /** The keys of an object, in insertion order; [] for a non-object. */
  function Keys(v: Json): (ks: seq<string>)
    ensures v.JObj? ==> |ks| == |v.members|
    ensures v.JObj? ==> forall i :: 0 <= i < |ks| ==> ks[i] == v.members[i].0
  {
    if v.JObj? then seq(|v.members|, i requires 0 <= i < |v.members| => v.members[i].0) else []
  }

  predicate DistinctKeys(members: seq<(string, Json)>)
  {
    forall i, j :: 0 <= i < j < |members| ==> members[i].0 != members[j].0
  }

  /** The largest integer a JavaScript number holds exactly (2^53 - 1). */
  const MaxSafeInteger := 0x1F_FFFF_FFFF_FFFF

  /** A canonical array index: "0", or decimal digits without a leading zero
      naming a number below 2^32 - 1. */
  predicate IsIndexKey(k: string)
  {
    && |k| > 0 && '0' <= k[0] <= '9' && (|k| == 1 || k[0] != '0')
    && (forall i :: 0 <= i < |k| ==> '0' <= k[i] <= '9')
    && DecimalValue(k) < 0xFFFF_FFFF
  }

  /** The members are in the order in which JavaScript enumerates an object's
      own properties: array indices first, in ascending order, then the
      other keys. */
  predicate PropertyOrder(members: seq<(string, Json)>)
  {
    forall i, j :: 0 <= i < j < |members| && IsIndexKey(members[j].0) ==>
      IsIndexKey(members[i].0) && DecimalValue(members[i].0) < DecimalValue(members[j].0)
  }

  /** A value a JavaScript program can hold: every number is a safe integer,
      no object has a key twice, and every object lists its keys in property
      order. */
  predicate WellFormed(v: Json)
  {
    match v
    case JNum(n) => -MaxSafeInteger <= n <= MaxSafeInteger
    case JArr(items) => forall i :: 0 <= i < |items| ==> WellFormed(items[i])
    case JObj(members) =>
      && DistinctKeys(members) && PropertyOrder(members)
      && forall i :: 0 <= i < |members| ==> WellFormed(members[i].1)
    case _ => true
  }

  /** A property read from a value a program can hold gives one too. */
  lemma FieldWellFormed(v: Json, key: string)
    ensures WellFormed(v) && Get(v, key).Some? ==> WellFormed(Get(v, key).value)
  {
    if WellFormed(v) && Get(v, key).Some? {
      var i :| 0 <= i < |v.members| && v.members[i] == (key, Get(v, key).value);
    }
  }

  /** The three conditions on an object, checked one at a time. */
  lemma ObjectWellFormed(members: seq<(string, Json)>)
    requires DistinctKeys(members) && PropertyOrder(members)
    requires forall i :: 0 <= i < |members| ==> WellFormed(members[i].1)
    ensures WellFormed(JObj(members))
  {
  }

  /** An object none of whose keys is an array index is in property order
      whatever order its keys come in. */
  lemma NoIndexKeysInOrder(members: seq<(string, Json)>)
    requires forall i :: 0 <= i < |members| ==> !IsIndexKey(members[i].0)
    ensures PropertyOrder(members)
  {
  }

  // ---------------------------------------------------------------- JSON.stringify

  function DigitChar(d: nat): (c: char)
    requires d < 10
    ensures '0' <= c <= '9'
  {
    "0123456789"[d]
  }

  /** The decimal numeral of n, without leading zeros. */
  function NatToString(n: nat): (s: string)
    ensures |s| > 0
    ensures forall i :: 0 <= i < |s| ==> '0' <= s[i] <= '9'
    ensures |s| > 1 ==> s[0] != '0'
  {
    if n < 10 then [DigitChar(n)] else NatToString(n / 10) + [DigitChar(n % 10)]
  }

  /** The number a string of decimal digits denotes. */
  function DecimalValue(ds: string): nat
    requires forall i :: 0 <= i < |ds| ==> '0' <= ds[i] <= '9'
  {
    if |ds| == 0 then 0 else 10 * DecimalValue(ds[..|ds| - 1]) + (ds[|ds| - 1] as int - '0' as int)
  }

  /** Reading back a numeral gives the number that was written. */
  lemma {:induction false} DecimalValueOfNatToString(n: nat)
    ensures DecimalValue(NatToString(n)) == n
  {
    if n >= 10 {
      var s := NatToString(n);
      assert s[..|s| - 1] == NatToString(n / 10);
      DecimalValueOfNatToString(n / 10);
    }
  }

  /** The four hexadecimal digits of a code unit below 0x20, as JSON.stringify
      writes them after `\u`. */
  function Hex4(c: char): string
    requires c < ' '
  {
    var n := c as int;
    ['0', '0', "0123456789abcdef"[n / 16], "0123456789abcdef"[n % 16]]
  }

  /** One character of a string literal as JSON.stringify writes it. */
  function EscapeChar(c: char): string
  {
    if c == '"' then "\\\""
    else if c == '\\' then "\\\\"
    else if c == '\U{8}' then "\\b"
    else if c == '\U{C}' then "\\f"
    else if c == '\n' then "\\n"
    else if c == '\r' then "\\r"
    else if c == '\t' then "\\t"
    else if c < ' ' then "\\u" + Hex4(c)
    else [c]
  }

  function Escape(s: string): string
  {
    if |s| == 0 then "" else EscapeChar(s[0]) + Escape(s[1..])
  }

  function Quote(s: string): string
  {
    "\"" + Escape(s) + "\""
  }

  /** `parts.join(sep)`. */
  function Join(parts: seq<string>, sep: string): string
  {
    if |parts| == 0 then ""
    else if |parts| == 1 then parts[0]
    else parts[0] + sep + Join(parts[1..], sep)
  }

  /** JSON.stringify without indentation. */
  function Stringify(v: Json): (s: string)
    ensures |s| > 0
    ensures v.JObj? ==> s[0] == '{' && s[|s| - 1] == '}'
  {
    match v
    case JNull => "null"
    case JBool(b) => if b then "true" else "false"
    case JNum(n) => if n < 0 then "-" + NatToString(-n) else NatToString(n)
    case JStr(s) => Quote(s)
    case JArr(items) =>
      "[" + Join(seq(|items|, i requires 0 <= i < |items| => Stringify(items[i])), ",") + "]"
    case JObj(members) =>
      "{" + Join(seq(|members|, i requires 0 <= i < |members| =>
                       Quote(members[i].0) + ":" + Stringify(members[i].1)), ",") + "}"
  }

  /** What the model assumes of JSON.parse: it only yields values a program
      can hold, and it reads back what JSON.stringify wrote. */
  ghost predicate Lawful(parse: string -> Option<Json>)
  {
    && (forall s :: parse(s).Some? ==> WellFormed(parse(s).value))
    && (forall v :: WellFormed(v) ==> parse(Stringify(v)) == Some(v))
  }
}
