/** The few PHP language rules and built-in string functions the Paystack
    plugin relies on: null-able values, the boolean conversion of strings,
    `??`, `empty()`, `explode`, `implode` and the decimal form of an int. */
module Php {

  /** A PHP value that may be `null`. */
  datatype Option<T> = None | Some(value: T) {
    /** `$x ?? $default` */
    function GetOr(default: T): T {
      if Some? then value else default
    }
  }

  /** One key of a decoded JSON object: absent, present as `null`, or
      present with a value. A plain read `$a['k']` of an absent key throws;
      `$a['k'] ?? null` and `isset` treat `null` and absence alike. */
  datatype Field<T> = Absent | Null | Value(value: T) {
    /** `$a['k'] ?? null` */
    function OrNull(): Option<T> {
      if Value? then Some(value) else None
    }
  }

  /** The outcome of a PHP call that may throw an `Exception` with a message. */
  datatype Result<T> = Ok(value: T) | Err(message: string)

  /** PHP's conversion of a string to `bool`: only "" and "0" are false. */
  predicate Truthy(s: string) {
    s != "" && s != "0"
  }

  /** The message of the `ErrorException` raised when code reads an array
      key that is absent without a `??` default (PHP 8 warns, and the
      framework's error handler turns every warning into an exception). */
  function UndefinedKey(key: string): string {
    "Undefined array key \"" + key + "\""
  }

  /** The message of the `TypeError` raised when `null` is assigned to a
      property declared `string` (an `Error`, which `catch (\Exception)`
      does not catch). */
  function NullToStringProperty(cls: string, property: string): string {
    "Cannot assign null to property " + cls + "::$" + property + " of type string"
  }

  /** `empty($x)` for a value that is either null or a string. */
  predicate IsEmpty(x: Option<string>) {
    x.None? || !Truthy(x.value)
  }

  /** `$a ?? $b`: the right operand is used only when the left one is null. */
  function Coalesce<T>(a: Option<T>, b: Option<T>): Option<T> {
    if a.Some? then a else b
  }

  /** Reading one key of a request's input bag: absent keys read as null. */
  function Lookup(bag: map<string, string>, key: string): Option<string> {
    if key in bag then Some(bag[key]) else None
  }

  /** `explode($sep, $s)` for a one-character separator: the pieces of `s`
      between occurrences of `sep`. There is always at least one piece, and
      there are two or more exactly when `s` contains the separator. */
  function Explode(sep: char, s: string): (parts: seq<string>)
    ensures |parts| >= 1
    ensures |parts| >= 2 <==> sep in s
    ensures forall i :: 0 <= i < |parts| ==> sep !in parts[i]
  {
    if |s| == 0 then [""]
    else
      var rest := Explode(sep, s[1..]);
      assert s == [s[0]] + s[1..];
      if s[0] == sep then [""] + rest
      else [[s[0]] + rest[0]] + rest[1..]
  }

  /** `implode($glue, $parts)`: the pieces joined with `glue` between them. */
  function Implode(glue: string, parts: seq<string>): string {
    if |parts| == 0 then ""
    else if |parts| == 1 then parts[0]
    else parts[0] + glue + Implode(glue, parts[1..])
  }

  /** Joining the pieces of `explode` with the same separator gives back the
      original string. */
  lemma {:induction false} ImplodeExplode(sep: char, s: string)
    ensures Implode([sep], Explode(sep, s)) == s
  {
    if |s| > 0 {
      var rest := Explode(sep, s[1..]);
      ImplodeExplode(sep, s[1..]);
      assert s == [s[0]] + s[1..];
      if s[0] == sep {
        assert Explode(sep, s) == [""] + rest;
        assert ([""] + rest)[1..] == rest;
      } else {
        var parts := [[s[0]] + rest[0]] + rest[1..];
        assert Explode(sep, s) == parts;
        if |rest| >= 2 {
          assert parts[1..] == rest[1..];
        }
      }
    }
  }

  /** A string without the separator explodes into itself alone. */
  lemma ExplodeWithoutSeparator(sep: char, s: string)
    requires sep !in s
    ensures Explode(sep, s) == [s]
  {
    ImplodeExplode(sep, s);
  }

  /** Exploding `a + sep + b`, where `a` holds no separator, gives `a`
      followed by the pieces of `b`. */
  lemma {:induction false} ExplodeAfterPiece(sep: char, a: string, b: string)
    requires sep !in a
    ensures Explode(sep, a + [sep] + b) == [a] + Explode(sep, b)
  {
    var s := a + [sep] + b;
    if |a| == 0 {
      assert s == [sep] + b;
      assert s[1..] == b;
    } else {
      assert s[0] == a[0];
      assert s[1..] == a[1..] + [sep] + b;
      ExplodeAfterPiece(sep, a[1..], b);
      assert [a[0]] + a[1..] == a;
    }
  }

  /** The character of one decimal digit. */
  function DigitChar(d: nat): (c: char)
    requires d < 10
    ensures '0' <= c <= '9'
  {
    ('0' as int + d) as char
  }

  /** PHP's string form of a non-negative int, as `'_' . time()` produces it. */
  function Decimal(n: nat): (r: string)
    ensures |r| >= 1
    ensures forall i :: 0 <= i < |r| ==> '0' <= r[i] <= '9'
  {
    if n < 10 then [DigitChar(n)] else Decimal(n / 10) + [DigitChar(n % 10)]
  }
}
