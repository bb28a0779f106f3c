/**
 * The slice of JavaScript's value semantics that the app's screens and its
 * storage helpers rely on: the dynamic values themselves, truthiness, property
 * reads, conversion to text inside a template literal, and the few string
 * built-ins the screens call (`split`, `join`, `padStart`, `toString` of a
 * non-negative integer).
 */
module Js {

  datatype Option<+T> = None | Some(value: T)

  /** A JavaScript value as the app stores, reads and renders it. A number in
      a stored or routed record is carried as its JavaScript display text
      (`4.8`, `245`): the code modelled here only stores, copies and prints
      those numbers, it never does arithmetic on them. The call timer, which
      does count, is a `nat` of its own and not a `Value`. */
  datatype Value =
    | Undefined
    | Null
    | Bool(b: bool)
    | Num(text: string)
    | Str(s: string)
    | Arr(items: seq<Value>)
    | Obj(fields: map<string, Value>)

  /** JavaScript's truthiness: `undefined`, `null`, `false`, `0` and `""` are
      falsy, every array and every object is truthy. `NaN`, also falsy, is
      not a value here: every value the app reads comes from JSON, which has
      no `NaN`. */
  predicate Truthy(v: Value)
    ensures Truthy(v) <==> !(v in {Undefined, Null, Bool(false), Num("0"), Str("")})
  {
    match v
    case Undefined => false
    case Null => false
    case Bool(b) => b
    case Num(text) => text != "0"
    case Str(s) => s != ""
    case Arr(_) => true
    case Obj(_) => true
  }

  /** The property read `v.key` for the keys the app reads from its records
      (`type`, `name`, `specialty`, `rating`, ...), none of which a built-in
      prototype provides. `None` is the TypeError thrown when `v` is null or
      undefined; a field the record lacks reads as `undefined`, and so does
      any such key on a value that is not an object. Inherited properties
      such as `length` or `constructor` are not modelled. */
  function Member(v: Value, key: string): (r: Option<Value>)
    ensures r.None? <==> (v.Undefined? || v.Null?)
    ensures v.Obj? && key in v.fields ==> r == Some(v.fields[key])
    ensures v.Obj? && key !in v.fields ==> r == Some(Undefined)
    ensures !v.Obj? && r.Some? ==> r == Some(Undefined)
  {
    match v
    case Undefined => None
    case Null => None
    case Obj(fields) => Some(if key in fields then fields[key] else Undefined)
    case _ => Some(Undefined)
  }

  /** `String(v)`, which is also what `${v}` inserts into a template literal. */
  function ToText(v: Value): (r: string)
    ensures v.Str? ==> r == v.s
    ensures v.Undefined? ==> r == "undefined"
    ensures v.Obj? ==> r == "[object Object]"
    ensures v.Arr? && |v.items| == 1 && v.items[0].Str? ==> r == v.items[0].s
    decreases v
  {
    match v
    case Undefined => "undefined"
    case Null => "null"
    case Bool(b) => if b then "true" else "false"
    case Num(text) => text
    case Str(s) => s
    case Arr(items) => JoinText(items, ",")
    case Obj(_) => "[object Object]"
  }

  /** `items.join(sep)`: the elements' texts with `sep` between them, where an
      element that is null or undefined contributes the empty string. */
  function JoinText(items: seq<Value>, sep: string): (r: string)
    ensures items == [] ==> r == ""
    ensures |items| >= 2 ==> |r| >= |sep|
    decreases items
  {
    if items == [] then ""
    else
      var head := if items[0].Undefined? || items[0].Null? then "" else ToText(items[0]);
      if |items| == 1 then head else head + sep + JoinText(items[1..], sep)
  }

  /** The element read `s[i]` on a string: a one-character string, or
      `undefined` past the end. */
  function CharAt(s: string, i: nat): (r: Value)
    ensures r.Undefined? <==> i >= |s|
    ensures r.Str? ==> i < |s| && r.s == [s[i]]
    ensures r.Str? || r.Undefined?
  {
    if i < |s| then Str([s[i]]) else Undefined
  }

  /** Number of occurrences of `c` in `s`. */
  function Occurrences(s: string, c: char): nat
  {
    if s == [] then 0 else (if s[0] == c then 1 else 0) + Occurrences(s[1..], c)
  }

  /** `pieces.join(sep)` on an array of strings, the form in which `split`'s
      round trip is stated; `JoinStrings` shows it agrees with `JoinText`. */
  function Join(pieces: seq<string>, sep: string): string
  {
    if pieces == [] then ""
    else if |pieces| == 1 then pieces[0]
    else pieces[0] + sep + Join(pieces[1..], sep)
  }

  /** `s.split(sep)` for a one-character separator: the maximal pieces between
      separators, in order, with an empty piece wherever two separators touch
      or the string starts or ends with one. */
  function Split(s: string, sep: char): (r: seq<string>)
    ensures |r| == Occurrences(s, sep) + 1
    ensures forall k :: 0 <= k < |r| ==> sep !in r[k]
    ensures Join(r, [sep]) == s
  {
    if s == [] then [[]]
    else
      var rest := Split(s[1..], sep);
      if s[0] == sep then
        assert Join([[]] + rest, [sep]) == [sep] + Join(rest, [sep]) by {
          assert ([[]] + rest)[1..] == rest;
        }
        [[]] + rest
      else
        var r := [[s[0]] + rest[0]] + rest[1..];
        assert Join(r, [sep]) == s by {
          if |rest| > 1 {
            assert r[1..] == rest[1..];
            assert Join(rest, [sep]) == rest[0] + [sep] + Join(rest[1..], [sep]);
          }
          assert s == [s[0]] + s[1..];
        }
        r
  }

  /** A string has no occurrence of `c` exactly when `c` is not in it. */
  lemma {:induction false} NoOccurrences(s: string, c: char)
    ensures Occurrences(s, c) == 0 <==> c !in s
  {
    if s != [] {
      NoOccurrences(s[1..], c);
      assert s == [s[0]] + s[1..];
    }
  }

  /** Strings as JavaScript values. */
  function Strs(texts: seq<string>): (r: seq<Value>)
    ensures |r| == |texts| && forall k :: 0 <= k < |r| ==> r[k] == Str(texts[k])
  {
    seq(|texts|, k requires 0 <= k < |texts| => Str(texts[k]))
  }

  /** Joining an array of strings as values is joining the strings. */
  lemma {:induction false} JoinStrings(pieces: seq<string>, sep: string)
    ensures JoinText(Strs(pieces), sep) == Join(pieces, sep)
    decreases pieces
  {
    if |pieces| > 1 {
      assert Strs(pieces)[1..] == Strs(pieces[1..]);
      JoinStrings(pieces[1..], sep);
    }
  }

  /** `s.padStart(width, [c])`: left-pads with `c` up to `width` characters and
      never truncates. */
  function PadStart(s: string, width: nat, c: char): (r: string)
    ensures |r| == if |s| >= width then |s| else width
    ensures r[|r| - |s|..] == s
    ensures forall k :: 0 <= k < |r| - |s| ==> r[k] == c
  {
    if |s| >= width then s else seq(width - |s|, _ => c) + s
  }

  predicate IsDigit(c: char)
  {
    '0' <= c <= '9'
  }

  predicate AllDigits(s: string)
  {
    forall k :: 0 <= k < |s| ==> IsDigit(s[k])
  }

  /** A decimal numeral as `toString` prints it: no leading zero unless the
      numeral is `0` itself. */
  predicate Canonical(s: string)
  {
    |s| >= 1 && AllDigits(s) && (|s| > 1 ==> s[0] != '0')
  }

  function DigitChar(d: nat): (c: char)
    requires d < 10
    ensures IsDigit(c)
  {
    (('0' as int) + d) as char
  }

  /** The value of a decimal digit; a character that is not a digit is
      given 0, and every reader below checks for digits first. */
  function DigitValue(c: char): (d: nat)
    ensures d < 10
    ensures IsDigit(c) ==> DigitChar(d) == c
  {
    if IsDigit(c) then (c as int) - ('0' as int) else 0
  }

  /** The value of a decimal numeral; leading zeros are allowed. */
  function DecimalValue(s: string): nat
  {
    if s == [] then 0 else DecimalValue(s[..|s| - 1]) * 10 + DigitValue(s[|s| - 1])
  }

  /** `n.toString()` for a non-negative integer. */
  function DecimalText(n: nat): (r: string)
    ensures Canonical(r)
    ensures DecimalValue(r) == n
    ensures n < 10 <==> |r| == 1
    ensures n < 100 ==> |r| <= 2
  {
    if n < 10 then [DigitChar(n)]
    else
      var r := DecimalText(n / 10) + [DigitChar(n % 10)];
      assert r[..|r| - 1] == DecimalText(n / 10);
      r
  }
}
