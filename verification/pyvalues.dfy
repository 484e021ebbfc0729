/**
 The Python values the bot handles: what `response.json()` decodes an API
 reply into, and the parts of Python's `str()`/`repr()` and dictionary
 membership the bot relies on when it formats messages and looks up keys.
 */
module PyValues {

  datatype Option<+T> = None | Some(value: T)

  /** A decoded JSON document as Python holds it. A dict is kept as its
      members in insertion order, because Python dicts are ordered. */
  datatype Json =
    | JNull
    | JBool(b: bool)
    | JInt(i: int)
    | JStr(s: string)
    | JList(items: seq<Json>)
    | JDict(members: seq<Member>)

  datatype Member = Member(key: string, value: Json)

  /** `d.get(key)` on a dict: the value of the first member with that key.
      A dict decoded from JSON never holds a key twice, so this is `d[key]`. */
  function Lookup(members: seq<Member>, key: string): (r: Option<Json>)
    ensures r.None? <==> forall i :: 0 <= i < |members| ==> members[i].key != key
    ensures r.Some? ==> exists i :: 0 <= i < |members| && members[i] == Member(key, r.value)
  {
    if |members| == 0 then None
    else if members[0].key == key then Some(members[0].value)
    else
      var r := Lookup(members[1..], key);
      assert forall i :: 1 <= i < |members| ==> members[i] == members[1..][i - 1];
      r
  }

  /** `key in d` */
  predicate Has(members: seq<Member>, key: string) {
    Lookup(members, key).Some?
  }

  /** `d[key]` where the key is known to be present */
  function Get(members: seq<Member>, key: string): Json
    requires Has(members, key)
  {
    Lookup(members, key).value
  }

  /** `value.get(key)` when `value` is a dict, and nothing otherwise */
  function Field(v: Json, key: string): Option<Json> {
    if v.JDict? then Lookup(v.members, key) else None
  }

  /** Lists and dicts are mutable and so cannot be dict keys; every other
      JSON value can. */
  predicate Hashable(v: Json) {
    !v.JList? && !v.JDict?
  }

  /** `type(v).__name__` */
  function TypeName(v: Json): string {
    match v
    case JNull => "NoneType"
    case JBool(_) => "bool"
    case JInt(_) => "int"
    case JStr(_) => "str"
    case JList(_) => "list"
    case JDict(_) => "dict"
  }

  /** `str(v)`: a string is itself, everything else is its repr. */
  function Str(v: Json): string {
    if v.JStr? then v.s else Repr(v)
  }

  /** `repr(v)` */
  function Repr(v: Json): string
    decreases v
  {
    match v
    case JNull => "None"
    case JBool(b) => if b then "True" else "False"
    case JInt(i) => Decimal(i)
    case JStr(s) => StrRepr(s)
    case JList(items) =>
      "[" + Join(seq(|items|, k requires 0 <= k < |items| => Repr(items[k]))) + "]"
    case JDict(members) =>
      "{" + Join(seq(|members|, k requires 0 <= k < |members| =>
                   StrRepr(members[k].key) + ": " + Repr(members[k].value))) + "}"
  }

  /** The parts joined by `", "`, as a list or dict repr separates its entries. */
  function Join(parts: seq<string>): string {
    if |parts| == 0 then ""
    else if |parts| == 1 then parts[0]
    else parts[0] + ", " + Join(parts[1..])
  }

  /** Decimal notation of an integer, with a leading '-' when negative. */
  function Decimal(i: int): (r: string)
    ensures |r| > 0
  {
    if i < 0 then "-" + Digits(-i) else Digits(i)
  }

  function Digits(n: nat): (r: string)
    ensures |r| > 0
    ensures forall k :: 0 <= k < |r| ==> '0' <= r[k] <= '9'
  {
    if n < 10 then [DigitChar(n)] else Digits(n / 10) + [DigitChar(n % 10)]
  }

  function DigitChar(d: nat): (c: char)
    requires d < 10
    ensures '0' <= c <= '9'
  {
    "0123456789"[d]
  }

  /** `repr(s)` of a string: single quotes unless the string holds a single
      quote and no double quote; the quote, backslash and control characters
      are escaped. */
  function StrRepr(s: string): string {
    var q := if '\'' in s && '"' !in s then '"' else '\'';
    [q] + Escape(s, q) + [q]
  }

  function Escape(s: string, q: char): string {
    if |s| == 0 then "" else EscapeChar(s[0], q) + Escape(s[1..], q)
  }

  function EscapeChar(c: char, q: char): string {
    if c == q || c == '\\' then ['\\', c]
    else if c == '\n' then "\\n"
    else if c == '\r' then "\\r"
    else if c == '\t' then "\\t"
    else if c < ' ' || c as int == 127 then
      var n := c as int;
      "\\x" + [HexChar(n / 16), HexChar(n % 16)]
    else [c]
  }

  function HexChar(d: int): char
    requires 0 <= d < 16
  {
    "0123456789abcdef"[d]
  }
}
