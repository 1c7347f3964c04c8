/**
 * The slice of PHP's value model the queue core relies on: decoded JSON / PHP
 * array values, the truthiness rules of `empty()` and `??`, the exception
 * hierarchy the core catches, decimal text for integers and `explode`.
 */
module Php {
  import opened Wrappers

  /**
   * A decoded message body or a job's data. `List` is a PHP array whose keys
   * are 0..n-1, `Dict` a string-keyed PHP array in insertion order.
   */
  datatype Value =
    | Null
    | Bool(b: bool)
    | Int(i: int)
    | Str(s: string)
    | List(items: seq<Value>)
    | Dict(fields: seq<Field>)
  {
    predicate IsArray() { List? || Dict? }
  }

  datatype Field = Field(key: string, val: Value)

  /** The first entry stored under `key`, if any. */
  function Lookup(fields: seq<Field>, key: string): Option<Value>
  {
    if |fields| == 0 then None
    else if fields[0].key == key then Some(fields[0].val)
    else Lookup(fields[1..], key)
  }

  /** The lookup finds the first entry stored under the key, and only a stored key. */
  lemma {:induction false} LookupFindsFirst(fields: seq<Field>, key: string)
    ensures Lookup(fields, key).Some? <==> exists i :: 0 <= i < |fields| && fields[i].key == key
    ensures Lookup(fields, key).Some? ==>
              exists i :: 0 <= i < |fields| && fields[i].key == key && fields[i].val == Lookup(fields, key).value
                          && forall j :: 0 <= j < i ==> fields[j].key != key
  {
    if |fields| > 0 && fields[0].key != key {
      LookupFindsFirst(fields[1..], key);
      assert forall i :: 1 <= i < |fields| ==> fields[i] == fields[1..][i - 1];
      if Lookup(fields, key).Some? {
        var i :| 0 <= i < |fields[1..]| && fields[1..][i].key == key && fields[1..][i].val == Lookup(fields, key).value
                 && forall j :: 0 <= j < i ==> fields[1..][j].key != key;
        assert fields[i + 1].key == key;
      }
    }
  }

  /** In an array whose keys are distinct, every entry reads back under its own key. */
  lemma {:induction false} LookupDistinct(fields: seq<Field>, i: nat)
    requires i < |fields|
    requires forall j, k :: 0 <= j < k < |fields| ==> fields[j].key != fields[k].key
    ensures Lookup(fields, fields[i].key) == Some(fields[i].val)
    decreases i
  {
    if i > 0 {
      assert fields[0].key != fields[i].key;
      assert forall j :: 0 <= j < |fields[1..]| ==> fields[1..][j] == fields[j + 1];
      LookupDistinct(fields[1..], i - 1);
    }
  }

  /**
   * The list position a key names. PHP stores a key that is the canonical
   * decimal text of a non-negative integer ("0", "12", but not "01") as that
   * integer, so it reaches the list entry at that position.
   */
  function Position(key: string): Option<nat>
  {
    if |key| > 0 && AllDigits(key) && (key[0] != '0' || |key| == 1) then Some(ParseNat(key)) else None
  }

  /** `array_key_exists($key, $v)`: the key is stored, whatever its value. */
  predicate KeyExists(v: Value, key: string)
  {
    match v
    case Dict(fields) => Lookup(fields, key).Some?
    case List(items) => Position(key).Some? && Position(key).value < |items|
    case _ => false
  }

  /** `$v[$key]` read without a guard: a missing key or a non-array reads as null. */
  function Index(v: Value, key: string): Value
  {
    match v
    case Dict(fields) => Lookup(fields, key).GetOr(Null)
    case List(items) => if Position(key).Some? && Position(key).value < |items| then items[Position(key).value] else Null
    case _ => Null
  }

  /**
   * `$v[$key] ?? $default`: tested with `isset`, so a key whose value is null
   * also yields the default, and so does a value that is not an array.
   */
  function IssetGet(v: Value, key: string, default: Value): (r: Value)
    ensures KeyExists(v, key) && Index(v, key) != Null ==> r == Index(v, key)
    ensures !KeyExists(v, key) || Index(v, key) == Null ==> r == default
  {
    var x := Index(v, key);
    if x == Null then default else x
  }

  const HASH_NOT_ARRAY: Throwable := Throwable(InvalidArgumentException, "Invalid data type, must be an array or \\ArrayAccess instance.")

  /**
   * Flat-key `Hash::get($v, $key, $default)`: data that is not an array
   * throws an InvalidArgumentException; on an array `isset` decides, as for
   * `??`.
   */
  function HashGet(v: Value, key: string, default: Value): (r: Result<Value, Throwable>)
    ensures r.Failure? <==> !v.IsArray()
    ensures r.Failure? ==> r.error == HASH_NOT_ARRAY
  {
    if v.IsArray() then Success(IssetGet(v, key, default)) else Failure(HASH_NOT_ARRAY)
  }

  /** `$v[0]` on a list, null otherwise. */
  function First(v: Value): Value
  {
    if v.List? && |v.items| > 0 then v.items[0] else Null
  }

  /** PHP truthiness, the negation of `empty()`. */
  predicate Truthy(v: Value)
  {
    match v
    case Null => false
    case Bool(b) => b
    case Int(i) => i != 0
    case Str(s) => TruthyString(s)
    case List(items) => |items| > 0
    case Dict(fields) => |fields| > 0
  }

  /** A string is empty for PHP when it is "" or "0". */
  predicate TruthyString(s: string)
  {
    s != "" && s != "0"
  }

  function OptionalString(s: Option<string>): Value
  {
    match s
    case None => Null
    case Some(x) => Str(x)
  }

  /** The values of an array, keys discarded: what `sort()` and `array_values()` keep. */
  function ValuesOf(v: Value): (r: seq<Value>)
    requires v.IsArray()
    ensures v.List? ==> r == v.items
    ensures v.Dict? ==> |r| == |v.fields| && forall i :: 0 <= i < |r| ==> r[i] == v.fields[i].val
  {
    if v.List? then v.items else seq(|v.fields|, i requires 0 <= i < |v.fields| => v.fields[i].val)
  }

  // ---------------------------------------------------------------------------
  // Exceptions

  /**
   * The throwables the core raises or catches. `TypeError` and `OtherError` are
   * PHP `Error`s, which a `catch (Exception $e)` does not catch. A
   * `PersistenceFailedException` is a `RuntimeException`; invalid-argument and
   * bad-method-call exceptions are `LogicException`s.
   */
  datatype ThrowableKind =
    | RuntimeException
    | PersistenceFailedException
    | LogicException
    | InvalidArgumentException
    | BadMethodCallException
    | OtherException
    | TypeError
    | OtherError

  datatype Throwable = Throwable(kind: ThrowableKind, message: string)
  {
    predicate IsError() { kind == TypeError || kind == OtherError }
    predicate IsException() { !IsError() }
    predicate IsRuntimeException() { kind == RuntimeException || kind == PersistenceFailedException }

    /** The text `(string)$e` starts with: the class name and the message. */
    function Describe(): string
    {
      KindName(kind) + ": " + message
    }
  }

  function KindName(k: ThrowableKind): string
  {
    match k
    case RuntimeException => "RuntimeException"
    case PersistenceFailedException => "Cake\\ORM\\Exception\\PersistenceFailedException"
    case LogicException => "LogicException"
    case InvalidArgumentException => "InvalidArgumentException"
    case BadMethodCallException => "BadMethodCallException"
    case OtherException => "Exception"
    case TypeError => "TypeError"
    case OtherError => "Error"
  }

  // ---------------------------------------------------------------------------
  // Decimal text of integers (`%d`, `(string)$int`) and its inverse

  predicate IsDigit(c: char) { '0' <= c <= '9' }

  predicate AllDigits(s: string)
  {
    forall i :: 0 <= i < |s| ==> IsDigit(s[i])
  }

  function DigitChar(d: nat): (c: char)
    requires d < 10
    ensures IsDigit(c)
  {
    ('0' as int + d) as char
  }

  function DigitValue(c: char): (d: nat)
    requires IsDigit(c)
    ensures d < 10
  {
    c as int - '0' as int
  }

  function NatToString(n: nat): (s: string)
    ensures |s| > 0 && AllDigits(s)
    decreases n
  {
    if n < 10 then [DigitChar(n)] else NatToString(n / 10) + [DigitChar(n % 10)]
  }

  function IntToString(i: int): (s: string)
    ensures |s| > 0
  {
    if i < 0 then "-" + NatToString(-i) else NatToString(i)
  }

  /** The value of a non-empty run of decimal digits, read left to right. */
  function ParseNat(s: string): nat
    requires |s| > 0 && AllDigits(s)
    decreases |s|
  {
    if |s| == 1 then DigitValue(s[0])
    else 10 * ParseNat(s[..|s| - 1]) + DigitValue(s[|s| - 1])
  }

  /** A decimal integer: an optional minus sign and at least one digit, nothing else. */
  function ParseInt(s: string): Option<int>
  {
    if |s| > 1 && s[0] == '-' && AllDigits(s[1..]) then Some(0 - ParseNat(s[1..]) as int)
    else if |s| > 0 && AllDigits(s) then Some(ParseNat(s) as int)
    else None
  }

  lemma {:induction false} ParseNatOfNatToString(n: nat)
    ensures ParseNat(NatToString(n)) == n
    decreases n
  {
    if n >= 10 {
      var s := NatToString(n);
      assert s[..|s| - 1] == NatToString(n / 10);
      ParseNatOfNatToString(n / 10);
    }
  }

  /** Decimal text has no leading zero, except for zero itself. */
  lemma {:induction false} NatToStringLeads(n: nat)
    ensures NatToString(n)[0] == '0' <==> n == 0
    ensures n == 0 ==> NatToString(n) == "0"
    decreases n
  {
    if n >= 10 {
      NatToStringLeads(n / 10);
      assert NatToString(n)[0] == NatToString(n / 10)[0];
    }
  }

  /**
   * `Hash::get` on a list: the decimal text of a position reaches the entry
   * there (the default when it is null), and the same position written with
   * a leading zero is a different, missing key.
   */
  lemma ListKeysArePositions(items: seq<Value>, k: nat, default: Value)
    requires k < |items|
    ensures HashGet(List(items), NatToString(k), default) == Success(if items[k] == Null then default else items[k])
    ensures k > 0 ==> HashGet(List(items), "0" + NatToString(k), default) == Success(default)
  {
    NatToStringLeads(k);
    ParseNatOfNatToString(k);
    assert Position(NatToString(k)) == Some(k);
    assert Position("0" + NatToString(k)) == None;
  }

  /** Reading back the decimal text of an integer gives that integer. */
  lemma ParseIntOfIntToString(i: int)
    ensures ParseInt(IntToString(i)) == Some(i)
  {
    if i < 0 {
      var s := IntToString(i);
      assert s[1..] == NatToString(-i);
      ParseNatOfNatToString(-i);
    } else {
      ParseNatOfNatToString(i);
    }
  }

  /** Distinct integers have distinct decimal texts. */
  lemma IntToStringInjective(i: int, j: int)
    requires IntToString(i) == IntToString(j)
    ensures i == j
  {
    ParseIntOfIntToString(i);
    ParseIntOfIntToString(j);
  }

  // ---------------------------------------------------------------------------
  // explode / implode on a one-character separator

  /** `explode(sep, s)`: never empty; `explode(',', "")` is `[""]`. */
  function Explode(s: string, sep: char): (parts: seq<string>)
    ensures |parts| > 0
    ensures forall k :: 0 <= k < |parts| ==> sep !in parts[k]
    decreases |s|
  {
    if |s| == 0 then [""]
    else
      var rest := Explode(s[1..], sep);
      if s[0] == sep then [""] + rest
      else [[s[0]] + rest[0]] + rest[1..]
  }

  /** `implode(sep, parts)`. */
  function Implode(parts: seq<string>, sep: char): string
    decreases |parts|
  {
    if |parts| == 0 then ""
    else if |parts| == 1 then parts[0]
    else parts[0] + [sep] + Implode(parts[1..], sep)
  }

  /** Joining the pieces of `explode` gives the original text back. */
  lemma {:induction false} ImplodeExplode(s: string, sep: char)
    ensures Implode(Explode(s, sep), sep) == s
    decreases |s|
  {
    if |s| > 0 {
      var rest := Explode(s[1..], sep);
      ImplodeExplode(s[1..], sep);
      if s[0] == sep {
        assert Explode(s, sep) == [""] + rest;
        assert s == [s[0]] + s[1..];
      } else {
        var parts := Explode(s, sep);
        assert parts == [[s[0]] + rest[0]] + rest[1..];
        if |rest| == 1 {
          assert s == [s[0]] + rest[0];
        } else {
          assert parts[1..] == rest[1..];
          assert Implode(rest, sep) == rest[0] + [sep] + Implode(rest[1..], sep);
          assert s == [s[0]] + s[1..];
        }
      }
    }
  }

  /** Splitting a joined list of separator-free pieces gives the pieces back. */
  lemma {:induction false} ExplodeImplode(parts: seq<string>, sep: char)
    requires |parts| > 0
    requires forall k :: 0 <= k < |parts| ==> sep !in parts[k]
    ensures Explode(Implode(parts, sep), sep) == parts
    decreases |parts|, |parts[0]|
  {
    var p := parts[0];
    if |parts| == 1 {
      ExplodeNoSeparator(p, sep);
    } else if |p| == 0 {
      var tail := Implode(parts[1..], sep);
      assert Implode(parts, sep) == [sep] + tail;
      assert ([sep] + tail)[1..] == tail;
      ExplodeImplode(parts[1..], sep);
      assert parts == [""] + parts[1..];
    } else {
      var shorter := [p[1..]] + parts[1..];
      assert shorter[1..] == parts[1..];
      assert Implode(parts, sep) == [p[0]] + Implode(shorter, sep);
      assert (forall k :: 0 <= k < |shorter| ==> sep !in shorter[k]) by {
        assert forall c :: c in p[1..] ==> c in p;
      }
      ExplodeImplode(shorter, sep);
      assert ([p[0]] + Implode(shorter, sep))[1..] == Implode(shorter, sep);
      assert [p[0]] + p[1..] == p;
    }
  }

  lemma {:induction false} ExplodeNoSeparator(s: string, sep: char)
    requires sep !in s
    ensures Explode(s, sep) == [s]
    decreases |s|
  {
    if |s| > 0 {
      ExplodeNoSeparator(s[1..], sep);
      assert [s[0]] + s[1..] == s;
    }
  }

  // ---------------------------------------------------------------------------
  // json_encode

  /** `implode(sep, parts)` for a separator of any length. */
  function JoinWith(parts: seq<string>, sep: string): string
    decreases |parts|
  {
    if |parts| == 0 then ""
    else if |parts| == 1 then parts[0]
    else parts[0] + sep + JoinWith(parts[1..], sep)
  }

  const HEX_DIGITS: string := "0123456789abcdef"

  /**
   * How `json_encode` writes one character of a string: a quote, a backslash
   * and a slash are preceded by a backslash, the control characters below
   * U+0020 take their short escape or `\u00` and two lower-case hex digits,
   * and every other character is written as it is.
   */
  function EscapeChar(c: char): (r: string)
    ensures |r| > 0
    ensures r[0] == '\\' <==> c == '"' || c == '\\' || c == '/' || c < ' '
    ensures r[0] != '\\' ==> r == [c]
  {
    if c == '"' then "\\\""
    else if c == '\\' then "\\\\"
    else if c == '/' then "\\/"
    else if c as int == 8 then "\\b"
    else if c as int == 12 then "\\f"
    else if c == '\n' then "\\n"
    else if c == '\r' then "\\r"
    else if c == '\t' then "\\t"
    else if c < ' ' then "\\u00" + [HEX_DIGITS[c as int / 16], HEX_DIGITS[c as int % 16]]
    else [c]
  }

  /** The body of a JSON string: each character escaped in turn. */
  function Escape(s: string): (r: string)
    ensures |r| >= |s|
  {
    if s == [] then [] else EscapeChar(s[0]) + Escape(s[1..])
  }

  /** The value of a lower-case hex digit. */
  function HexValue(h: char): int
  {
    if '0' <= h <= '9' then h as int - '0' as int else h as int - 'a' as int + 10
  }

  lemma HexValueOfDigit(n: int)
    requires 0 <= n < 16
    ensures HexValue(HEX_DIGITS[n]) == n
  {
  }

  /**
   * Reads the first escaped character back off a JSON string body: the
   * character and the length of its escape.
   */
  function UnescapeHead(t: string): (char, nat)
    requires |t| > 0
  {
    if t[0] != '\\' || |t| < 2 then (t[0], 1)
    else if t[1] == 'b' then (8 as char, 2)
    else if t[1] == 'f' then (12 as char, 2)
    else if t[1] == 'n' then ('\n', 2)
    else if t[1] == 'r' then ('\r', 2)
    else if t[1] == 't' then ('\t', 2)
    else if t[1] == 'u' && |t| >= 6 && 0 <= 16 * HexValue(t[4]) + HexValue(t[5]) < 32 then
      ((16 * HexValue(t[4]) + HexValue(t[5])) as char, 6)
    else (t[1], 2)
  }

  /** Decoding undoes escaping, one character at a time. */
  lemma UnescapeHeadOfEscape(c: char, rest: string)
    ensures UnescapeHead(EscapeChar(c) + rest) == (c, |EscapeChar(c)|)
  {
    var e := EscapeChar(c);
    var t := e + rest;
    if c < ' ' && c as int !in {8, 9, 10, 12, 13} {
      HexValueOfDigit(c as int / 16);
      HexValueOfDigit(c as int % 16);
      assert t[1] == 'u' && t[4] == HEX_DIGITS[c as int / 16] && t[5] == HEX_DIGITS[c as int % 16];
    } else {
      assert t[0] == e[0];
      assert e[0] == '\\' ==> t[1] == e[1];
    }
  }

  /** No character's escape is a prefix of another's, so the first one can be read off. */
  lemma EscapeCharReadsOff(c: char, d: char, rest1: string, rest2: string)
    requires EscapeChar(c) + rest1 == EscapeChar(d) + rest2
    ensures c == d && rest1 == rest2
  {
    UnescapeHeadOfEscape(c, rest1);
    UnescapeHeadOfEscape(d, rest2);
    var e1, e2 := EscapeChar(c), EscapeChar(d);
    assert rest1 == (e1 + rest1)[|e1|..];
    assert rest2 == (e2 + rest2)[|e2|..];
  }

  /** Escaping loses nothing: different strings have different escapes. */
  lemma {:induction false} EscapeInjective(s: string, t: string)
    requires Escape(s) == Escape(t)
    ensures s == t
  {
    if s == [] || t == [] {
      assert |Escape(s)| == 0 || |Escape(t)| == 0;
    } else {
      EscapeCharReadsOff(s[0], t[0], Escape(s[1..]), Escape(t[1..]));
      EscapeInjective(s[1..], t[1..]);
      assert s == [s[0]] + s[1..] && t == [t[0]] + t[1..];
    }
  }

  /**
   * The JSON text of a value. Strings and keys are escaped as `json_encode`
   * escapes them, and an empty PHP array is written `[]` whatever its kind.
   */
  function Encode(v: Value): (text: string)
    ensures |text| > 0
  {
    match v
    case Null => "null"
    case Bool(b) => if b then "true" else "false"
    case Int(i) => IntToString(i)
    case Str(s) => "\"" + Escape(s) + "\""
    case List(items) =>
      "[" + JoinWith(seq(|items|, k requires 0 <= k < |items| => Encode(items[k])), ",") + "]"
    case Dict(fields) =>
      if |fields| == 0 then "[]"
      else "{" + JoinWith(seq(|fields|, k requires 0 <= k < |fields| =>
                                "\"" + Escape(fields[k].key) + "\":" + Encode(fields[k].val)), ",") + "}"
  }
}
