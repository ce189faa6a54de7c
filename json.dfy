/** The JSON values exchanged on the control channel, the decimal text of
    numbers, and the compact printer the runtime uses for every event line.
    Numbers are integers here (see README, "Left out"); parsing is not
    modelled and enters the channel as an oracle. */
module Json {
  import opened Wrappers

  datatype Json =
    | JNull
    | JBool(b: bool)
    | JNum(n: int)
    | JStr(s: string)
    | JArr(items: seq<Json>)
    | JObj(members: seq<(string, Json)>)

  /** The member `key` of an object; absent for a missing key and for a
      value that is not an object (what `count`, `value` and `at` see). */
  function Get(j: Json, key: string): (r: Option<Json>)
    ensures r.Some? ==> j.JObj? && exists i :: 0 <= i < |j.members| && j.members[i] == (key, r.value)
    ensures r.None? ==> !j.JObj? || forall i :: 0 <= i < |j.members| ==> j.members[i].0 != key
  {
    if !j.JObj? then None else Lookup(j.members, key)
  }

  function Lookup(members: seq<(string, Json)>, key: string): (r: Option<Json>)
    ensures r.Some? ==> exists i :: 0 <= i < |members| && members[i] == (key, r.value)
    ensures r.None? ==> forall i :: 0 <= i < |members| ==> members[i].0 != key
  {
    if |members| == 0 then None
    else if members[0].0 == key then Some(members[0].1)
    else
      var r := Lookup(members[1..], key);
      assert r.Some? ==> members[1..][0] == members[1];
      r
  }

  /** A member is found by its key when no earlier member has that key. */
  lemma {:induction false} LookupFinds(members: seq<(string, Json)>, i: nat)
    requires i < |members|
    requires forall k :: 0 <= k < i ==> members[k].0 != members[i].0
    ensures Lookup(members, members[i].0) == Some(members[i].1)
  {
    if i > 0 {
      LookupFinds(members[1..], i - 1);
    }
  }

  /** Looking a key up in a list that starts with a given member: that
      member when the key is its own, the rest of the list otherwise. */
  lemma LookupCons(entry: (string, Json), rest: seq<(string, Json)>, key: string)
    ensures Lookup([entry] + rest, key) == if entry.0 == key then Some(entry.1) else Lookup(rest, key)
  {
    assert ([entry] + rest)[1..] == rest;
  }

  // ---------------------------------------------------------------------
  // Decimal text of numbers (`Number.prototype.toString`, `json::dump`)
  // ---------------------------------------------------------------------

  predicate IsDigit(c: char) { '0' <= c <= '9' }

  function DigitChar(d: nat): (c: char)
    requires d < 10
    ensures IsDigit(c) && c as int - '0' as int == d
  {
    ('0' as int + d) as char
  }

  /** The decimal digits of `n`, most significant first, without leading zeros. */
  function NatToString(n: nat): (s: string)
    ensures |s| > 0 && forall i :: 0 <= i < |s| ==> IsDigit(s[i])
    ensures |s| > 1 ==> s[0] != '0'
  {
    if n < 10 then [DigitChar(n)] else NatToString(n / 10) + [DigitChar(n % 10)]
  }

  function DigitsValue(s: string): nat
    requires forall i :: 0 <= i < |s| ==> IsDigit(s[i])
  {
    if |s| == 0 then 0
    else
      assert IsDigit(s[|s| - 1]);
      DigitsValue(s[..|s| - 1]) * 10 + (s[|s| - 1] as int - '0' as int)
  }

  /** Reading the digits back gives the number: the decimal text is a
      faithful name for the number, so two ids are equal strings exactly
      when they are equal numbers. */
  lemma {:induction false} NatToStringRoundTrip(n: nat)
    ensures DigitsValue(NatToString(n)) == n
  {
    if n >= 10 {
      var s := NatToString(n);
      assert s[..|s| - 1] == NatToString(n / 10);
      NatToStringRoundTrip(n / 10);
    }
  }

  lemma NatToStringInjective(a: nat, b: nat)
    ensures NatToString(a) == NatToString(b) <==> a == b
  {
    if NatToString(a) == NatToString(b) {
      NatToStringRoundTrip(a);
      NatToStringRoundTrip(b);
    }
  }

  function IntToString(i: int): (s: string)
    ensures |s| > 0 && '\n' !in s
  {
    if i < 0 then "-" + NatToString(-i) else NatToString(i)
  }

  // ---------------------------------------------------------------------
  // Compact printer (`json::dump()` with no indentation)
  // ---------------------------------------------------------------------

  function HexDigit(d: nat): (c: char)
    requires d < 16
    ensures c != '\n'
  {
    if d < 10 then DigitChar(d) else ('a' as int + d - 10) as char
  }

  /** One character of a JSON string literal: quote and backslash are
      escaped, control characters become escape sequences. */
  function EscapeChar(c: char): (r: string)
    ensures |r| > 0 && '\n' !in r
    ensures c >= ' ' && c != '"' && c != '\\' ==> r == [c]
  {
    if c == '"' then "\\\""
    else if c == '\\' then "\\\\"
    else if c == '\n' then "\\n"
    else if c == '\r' then "\\r"
    else if c == '\t' then "\\t"
    else if c == '\U{8}' then "\\b"
    else if c == '\U{C}' then "\\f"
    else if c < ' ' then "\\u00" + [HexDigit(c as int / 16), HexDigit(c as int % 16)]
    else [c]
  }

  function Escape(s: string): (r: string)
    ensures '\n' !in r
  {
    if |s| == 0 then "" else EscapeChar(s[0]) + Escape(s[1..])
  }

  function Quote(s: string): (r: string)
    ensures '\n' !in r && |r| >= 2 && r[0] == '"'
  {
    "\"" + Escape(s) + "\""
  }

  function JoinComma(parts: seq<string>): string
  {
    if |parts| == 0 then ""
    else if |parts| == 1 then parts[0]
    else parts[0] + "," + JoinComma(parts[1..])
  }

  function Dump(j: Json): string
    decreases j
  {
    match j
    case JNull => "null"
    case JBool(b) => if b then "true" else "false"
    case JNum(n) => IntToString(n)
    case JStr(s) => Quote(s)
    case JArr(items) =>
      "[" + JoinComma(seq(|items|, i requires 0 <= i < |items| => Dump(items[i]))) + "]"
    case JObj(members) =>
      "{" + JoinComma(seq(|members|, i requires 0 <= i < |members| =>
                            Quote(members[i].0) + ":" + Dump(members[i].1))) + "}"
  }

  lemma {:induction false} JoinCommaOneLine(parts: seq<string>)
    requires forall i :: 0 <= i < |parts| ==> '\n' !in parts[i]
    ensures '\n' !in JoinComma(parts)
  {
    if |parts| > 1 {
      JoinCommaOneLine(parts[1..]);
    }
  }

  /** The printed form of any value holds no line feed: string contents are
      escaped, and the printer adds no whitespace. This is what lets one
      value travel as one line of the channel. */
  lemma {:induction false} DumpIsOneLine(j: Json)
    ensures '\n' !in Dump(j)
    decreases j
  {
    match j
    case JNull =>
    case JBool(b) =>
    case JNum(n) =>
    case JStr(s) =>
    case JArr(items) =>
      var parts := seq(|items|, i requires 0 <= i < |items| => Dump(items[i]));
      forall i | 0 <= i < |parts| ensures '\n' !in parts[i] {
        DumpIsOneLine(items[i]);
      }
      JoinCommaOneLine(parts);
    case JObj(members) =>
      var parts := seq(|members|, i requires 0 <= i < |members| =>
                         Quote(members[i].0) + ":" + Dump(members[i].1));
      forall i | 0 <= i < |parts| ensures '\n' !in parts[i] {
        DumpIsOneLine(members[i].1);
      }
      JoinCommaOneLine(parts);
  }
}
