/** Option, the one wrapper the model needs. */
module Wrappers {
  datatype Option<+T> = None | Some(value: T)
}

/**
 * The PHP values the notification widget handles: section values, table
 * entries, render contexts and notification fields, together with the
 * dotted-path lookup the widget performs on them and the string conversion
 * `strtr` applies to replacement values.
 */
module Values {
  import opened Wrappers

  /**
   * A PHP value. `Fn(id)` is a callable (a closure); `id` names it and the
   * rendering environment says what calling it returns. `Map` is a PHP array
   * with string keys, and also stands for an object whose properties are read
   * by name (a notification).
   */
  datatype Value =
    | Null
    | Str(s: string)
    | Int(i: int)
    | Bool(b: bool)
    | Fn(id: nat)
    | Map(entries: map<string, Value>)

  /** The empty PHP array `[]`, the context of a container render. */
  const EmptyContext: Value := Map(map[])

  /** The index of the last '.' in `path`, if any. */
  function LastDot(path: string): (r: Option<nat>)
    ensures r.Some? ==> r.value < |path| && path[r.value] == '.'
    ensures r.Some? ==> forall i :: r.value < i < |path| ==> path[i] != '.'
    ensures r.None? ==> forall i :: 0 <= i < |path| ==> path[i] != '.'
  {
    if path == [] then None
    else if path[|path| - 1] == '.' then Some(|path| - 1)
    else LastDot(path[..|path| - 1])
  }

  /** The last '.' of a path is the one after which no '.' follows. */
  lemma LastDotAt(path: string, d: nat)
    requires d < |path| && path[d] == '.'
    requires forall i :: d < i < |path| ==> path[i] != '.'
    ensures LastDot(path) == Some(d)
  {
    var r := LastDot(path);
    assert r.Some? by { assert path[d] == '.'; }
  }

  /** One step of a lookup: the entry `key` of an array, or null. */
  function Child(v: Value, key: string): Value {
    if v.Map? && key in v.entries then v.entries[key] else Null
  }

  /**
   * ArrayHelper::getValue($v, $path) with a null default: an entry whose key
   * is the whole path wins; otherwise the path is split at its last '.', the
   * part before it is looked up recursively and the part after it is read
   * from the result. Anything missing gives null.
   */
  function Lookup(v: Value, path: string): (r: Value)
    ensures r != Null ==> v.Map? && v.entries != map[]
    decreases |path|
  {
    if v.Map? && path in v.entries then v.entries[path]
    else match LastDot(path)
      case None => Null
      case Some(d) => Child(Lookup(v, path[..d]), path[d + 1..])
  }

  /**
   * A two-segment path `root.key` (neither segment holding a '.') reads the
   * entry `key` of the entry `root`, unless the array holds the whole path as
   * a key of its own.
   */
  lemma LookupTwoLevel(m: map<string, Value>, root: string, key: string)
    requires '.' !in root && '.' !in key
    requires root + "." + key !in m
    ensures Lookup(Map(m), root + "." + key) == Child(Lookup(Map(m), root), key)
    ensures Lookup(Map(m), root) == (if root in m then m[root] else Null)
  {
    var path := root + "." + key;
    forall i | |root| < i < |path| ensures path[i] != '.' {
      assert path[i] == key[i - |root| - 1];
    }
    LastDotAt(path, |root|);
    assert path[..|root|] == root;
    assert path[|root| + 1..] == key;
  }

  /** The decimal digit for `d`. */
  function Digit(d: nat): char
    requires d < 10
  {
    ('0' as int + d) as char
  }

  /** The value of a decimal digit character. */
  function DigitValue(c: char): nat {
    if '0' <= c <= '9' then (c as int - '0' as int) as nat else 0
  }

  /** The decimal text PHP produces when it converts a non-negative int to a string. */
  function DecimalText(n: nat): (r: string)
    ensures |r| >= 1
    ensures forall i :: 0 <= i < |r| ==> '0' <= r[i] <= '9'
    ensures |r| > 1 ==> r[0] != '0'
  {
    if n < 10 then [Digit(n)] else DecimalText(n / 10) + [Digit(n % 10)]
  }

  /** Reads a string of decimal digits back as a number. */
  function ParseDecimal(s: string): nat {
    if s == [] then 0 else ParseDecimal(s[..|s| - 1]) * 10 + DigitValue(s[|s| - 1])
  }

  /** The decimal text of a count reads back as that count. */
  lemma {:induction false} DecimalRoundTrip(n: nat)
    ensures ParseDecimal(DecimalText(n)) == n
  {
    if n >= 10 {
      var r := DecimalText(n);
      assert r[..|r| - 1] == DecimalText(n / 10);
      DecimalRoundTrip(n / 10);
    }
  }

  /** The string PHP makes of an int. */
  function IntText(i: int): (r: string)
    ensures i >= 0 ==> ParseDecimal(r) == i
    ensures i < 0 ==> |r| >= 2 && r[0] == '-' && ParseDecimal(r[1..]) == -i
    ensures |r| >= 1 && (r[0] == '-' <==> i < 0)
  {
    if i < 0 then
      DecimalRoundTrip(-i);
      assert ("-" + DecimalText(-i))[1..] == DecimalText(-i);
      "-" + DecimalText(-i)
    else
      DecimalRoundTrip(i);
      DecimalText(i)
  }

  /**
   * The string `strtr` makes of a replacement value: null and false become
   * '', true becomes '1', an int its decimal text and an array 'Array'.
   * Callables never reach this point (no context holds one) and give ''.
   */
  function ToText(v: Value): (t: string)
    ensures v.Str? ==> t == v.s
    ensures v.Null? ==> t == ""
    ensures v.Int? ==> |t| >= 1 && (t[0] == '-' <==> v.i < 0)
    ensures v.Int? && v.i >= 0 ==> ParseDecimal(t) == v.i
  {
    match v
    case Null => ""
    case Str(s) => s
    case Int(i) => IntText(i)
    case Bool(b) => if b then "1" else ""
    case Fn(_) => ""
    case Map(_) => "Array"
  }
}
