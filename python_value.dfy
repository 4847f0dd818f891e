/**
 * The slice of Python's data model that the policy checks rely on: the loosely
 * typed values a resource's property dictionary (or a decoded JSON policy
 * document) can hold, and the built-in operations the checks apply to them --
 * `==`, truthiness, `len`, `in`, subscription, `int()`, `for` iteration and
 * `json.loads` -- each with the exception Python raises where it fails.
 */
module PyValue {

  /** A property value: `None`, `bool`, `int`, `str`, `list` or `dict` with `str` keys. */
  datatype Value =
    | VNull
    | VBool(b: bool)
    | VInt(i: int)
    | VStr(s: string)
    | VList(items: seq<Value>)
    | VMap(fields: map<string, Value>)

  /** A resource's property dictionary (`args.props`). */
  type Props = map<string, Value>

  /** The Python exceptions the checks can raise. */
  datatype PyError =
    | KeyError          // dict subscription with a missing key
    | TypeError         // an operation applied to a value of the wrong type
    | IndexError        // `[0]` on an empty list or string
    | ValueError        // `int()` of a string that is not a decimal integer
    | JSONDecodeError   // `json.loads` of a string that is not JSON

  /** Either a value or the exception that interrupted its evaluation. */
  datatype Result<+T> = Ok(value: T) | Err(error: PyError) {
    predicate IsFailure() { Err? }
    function PropagateFailure<U>(): Result<U> requires Err? { Err(error) }
    function Extract(): T requires Ok? { value }
  }

  datatype Option<+T> = None | Some(value: T)

  /** `json.loads` on a string, which this model takes as given: `None` when the text is not JSON. */
  type Decoder = string -> Option<Value>

  /** Python's `bool` is a subclass of `int`: `True` is 1 and `False` is 0. */
  function BoolToInt(x: bool): int { if x then 1 else 0 }

  /**
   * Python `a == b`. Numbers compare by value across `bool` and `int`; strings
   * by their characters; lists element-wise; dicts by keys and values; values of
   * unrelated types are never equal.
   */
  function PyEq(a: Value, b: Value): (r: bool)
    ensures b == VNull ==> (r <==> a == VNull)
    ensures b.VStr? ==> (r <==> a == b)
    ensures b.VBool? ==> (r <==> a == b || a == VInt(BoolToInt(b.b)))
    ensures b.VInt? ==> (r <==> a == b || (a.VBool? && BoolToInt(a.b) == b.i))
  {
    match a
    case VNull => b.VNull?
    case VBool(x) => (b.VBool? && b.b == x) || (b.VInt? && b.i == BoolToInt(x))
    case VInt(x) => (b.VInt? && b.i == x) || (b.VBool? && BoolToInt(b.b) == x)
    case VStr(x) => b.VStr? && b.s == x
    case VList(xs) =>
      b.VList? && |xs| == |b.items| && forall k :: 0 <= k < |xs| ==> PyEq(xs[k], b.items[k])
    case VMap(m) =>
      b.VMap? && m.Keys == b.fields.Keys && forall k :: k in m ==> PyEq(m[k], b.fields[k])
  }

  /** Every value equals itself under `==` (no floating-point NaN in this model). */
  lemma {:induction false} PyEqReflexive(a: Value)
    ensures PyEq(a, a)
  {
    match a
    case VList(xs) =>
      forall k | 0 <= k < |xs| ensures PyEq(xs[k], xs[k]) { PyEqReflexive(xs[k]); }
    case VMap(m) =>
      forall k | k in m ensures PyEq(m[k], m[k]) { PyEqReflexive(m[k]); }
    case _ =>
  }

  /** `==` is symmetric on every pair of values. */
  lemma {:induction false} PyEqSymmetric(a: Value, b: Value)
    ensures PyEq(a, b) == PyEq(b, a)
  {
    match a
    case VList(xs) =>
      if b.VList? && |xs| == |b.items| {
        forall k | 0 <= k < |xs| ensures PyEq(xs[k], b.items[k]) == PyEq(b.items[k], xs[k]) {
          PyEqSymmetric(xs[k], b.items[k]);
        }
      }
    case VMap(m) =>
      if b.VMap? && m.Keys == b.fields.Keys {
        forall k | k in m ensures PyEq(m[k], b.fields[k]) == PyEq(b.fields[k], m[k]) {
          PyEqSymmetric(m[k], b.fields[k]);
        }
      }
    case _ =>
  }

  /** The values Python treats as false in a condition. */
  const FalsyValues: set<Value> := {VNull, VBool(false), VInt(0), VStr(""), VList([]), VMap(map[])}

  /** Python truthiness, as `if v:` and `not v` use it. */
  function Truthy(v: Value): (r: bool)
    ensures r <==> v !in FalsyValues
  {
    match v
    case VNull => false
    case VBool(x) => x
    case VInt(x) => x != 0
    case VStr(x) => x != ""
    case VList(xs) => xs != []
    case VMap(m) => m != map[]
  }

  /** Python `len(v)`: defined on strings, lists and dicts only. */
  function Len(v: Value): (r: Result<int>)
    ensures r.Err? <==> v.VNull? || v.VBool? || v.VInt?
    ensures r.Err? ==> r.error == TypeError
    ensures v.VStr? ==> r == Ok(|v.s|)
    ensures v.VList? ==> r == Ok(|v.items|)
    ensures v.VMap? ==> r == Ok(|v.fields|)
    ensures r.Ok? ==> (r.value == 0 <==> v in FalsyValues)
  {
    match v
    case VStr(x) => Ok(|x|)
    case VList(xs) => Ok(|xs|)
    case VMap(m) => Ok(|m|)
    case _ => Err(TypeError)
  }

  /** `needle` occurs in `hay` starting at position `i`. */
  predicate OccursAt(needle: string, hay: string, i: nat)
  {
    i + |needle| <= |hay| && hay[i..i + |needle|] == needle
  }

  /** Python `needle in hay` for two strings: substring containment. */
  predicate IsSubstring(needle: string, hay: string)
  {
    exists i: nat :: i <= |hay| && OccursAt(needle, hay, i)
  }

  /**
   * Python `needle in container` for a string `needle`: element membership in a
   * list, key membership in a dict, substring containment in a string; any
   * other container raises.
   */
  function Contains(needle: string, container: Value): (r: Result<bool>)
    ensures r.Err? <==> container.VNull? || container.VBool? || container.VInt?
    ensures r.Err? ==> r.error == TypeError
    ensures container.VList? ==> r == Ok(VStr(needle) in container.items)
    ensures container.VMap? ==> r == Ok(needle in container.fields)
    ensures container.VStr? ==> r == Ok(IsSubstring(needle, container.s))
  {
    match container
    case VList(xs) =>
      var found := exists k :: 0 <= k < |xs| && PyEq(xs[k], VStr(needle));
      assert found <==> VStr(needle) in xs;
      Ok(found)
    case VMap(m) => Ok(needle in m)
    case VStr(hay) => Ok(IsSubstring(needle, hay))
    case _ => Err(TypeError)
  }

  /** Python `v[key]` for a string `key`: only a dict can be subscripted by a string. */
  function GetKey(v: Value, key: string): (r: Result<Value>)
    ensures r.Ok? <==> v.VMap? && key in v.fields
    ensures r.Ok? ==> r.value == v.fields[key]
    ensures r.Err? ==> r.error == (if v.VMap? then KeyError else TypeError)
  {
    match v
    case VMap(m) => if key in m then Ok(m[key]) else Err(KeyError)
    case _ => Err(TypeError)
  }

  /**
   * Python `v[i]` for a non-negative integer `i`: a list's element, a string's
   * one-character substring, a dict's entry under the integer key `i` (never
   * present, since every key is a string).
   */
  function ItemAt(v: Value, i: nat): (r: Result<Value>)
    ensures r.Ok? <==> (v.VList? && i < |v.items|) || (v.VStr? && i < |v.s|)
    ensures v.VList? && i < |v.items| ==> r.value == v.items[i]
    ensures v.VStr? && i < |v.s| ==> r == Ok(VStr([v.s[i]]))
    ensures r.Err? ==> r.error == (if v.VMap? then KeyError
                                   else if v.VList? || v.VStr? then IndexError
                                   else TypeError)
  {
    match v
    case VList(xs) => if i < |xs| then Ok(xs[i]) else Err(IndexError)
    case VStr(x) => if i < |x| then Ok(VStr([x[i]])) else Err(IndexError)
    case VMap(_) => Err(KeyError)
    case _ => Err(TypeError)
  }

  /** The ASCII whitespace `int()` strips from both ends of its argument: space, `\t`, `\n`, `\v`, `\f` and `\r`. */
  predicate IsSpace(c: char)
  {
    c == ' ' || (9 <= c as int <= 13)
  }

  predicate IsDigit(c: char) { '0' <= c <= '9' }

  function DigitValue(c: char): nat
    requires IsDigit(c)
  {
    c as int - '0' as int
  }

  /** `s` without its leading whitespace. */
  function TrimLeft(s: string): (r: string)
    ensures |r| <= |s|
    ensures r != [] ==> !IsSpace(r[0])
    decreases |s|
  {
    if s != [] && IsSpace(s[0]) then TrimLeft(s[1..]) else s
  }

  /** `s` without its trailing whitespace. */
  function TrimRight(s: string): (r: string)
    ensures |r| <= |s|
    ensures r != [] ==> !IsSpace(r[|r| - 1])
    decreases |s|
  {
    if s != [] && IsSpace(s[|s| - 1]) then TrimRight(s[..|s| - 1]) else s
  }

  /**
   * The digit part of a base-10 integer literal as `int()` accepts it: digits,
   * where single underscores may separate two digits ("1_000").
   */
  predicate DigitGroups(t: string)
  {
    && t != []
    && IsDigit(t[0])
    && IsDigit(t[|t| - 1])
    && (forall k :: 0 <= k < |t| ==> IsDigit(t[k]) || t[k] == '_')
    && (forall k :: 0 <= k < |t| - 1 ==> t[k] == '_' ==> t[k + 1] != '_')
  }

  /** The number the digits of `t` spell, reading left to right and skipping underscores. */
  function DigitsValue(t: string): nat
    requires forall k :: 0 <= k < |t| ==> IsDigit(t[k]) || t[k] == '_'
  {
    if t == [] then 0
    else if t[|t| - 1] == '_' then DigitsValue(t[..|t| - 1])
    else 10 * DigitsValue(t[..|t| - 1]) + DigitValue(t[|t| - 1])
  }

  /**
   * Python `int(s)` for a string: surrounding whitespace, an optional sign and
   * base-10 digit groups; `None` where Python raises `ValueError`.
   */
  function ParseInt(s: string): Option<int>
  {
    var t := TrimRight(TrimLeft(s));
    if t != [] && (t[0] == '+' || t[0] == '-') then
      if DigitGroups(t[1..]) then
        var magnitude: int := DigitsValue(t[1..]);
        Some(if t[0] == '-' then -magnitude else magnitude)
      else None
    else if DigitGroups(t) then Some(DigitsValue(t))
    else None
  }

  /** The decimal digits of `n`, as `str(n)` writes a non-negative integer. */
  function NatDigits(n: nat): (r: string)
    ensures r != [] && IsDigit(r[0]) && IsDigit(r[|r| - 1])
    ensures forall k :: 0 <= k < |r| ==> IsDigit(r[k])
  {
    if n < 10 then [('0' as int + n) as char]
    else NatDigits(n / 10) + [('0' as int + n % 10) as char]
  }

  /** Python `str(n)` for an integer. */
  function Decimal(n: int): string
  {
    if n < 0 then "-" + NatDigits(-n) else NatDigits(n)
  }

  lemma {:induction false} NatDigitsValue(n: nat)
    ensures DigitsValue(NatDigits(n)) == n
  {
    var r := NatDigits(n);
    if n >= 10 {
      assert r[..|r| - 1] == NatDigits(n / 10);
      NatDigitsValue(n / 10);
    }
  }

  /** A string with no whitespace at either end is left as it is by the trims. */
  lemma TrimsUnchanged(s: string)
    requires s != [] && !IsSpace(s[0]) && !IsSpace(s[|s| - 1])
    ensures TrimRight(TrimLeft(s)) == s
  {
    assert TrimLeft(s) == s;
  }

  /** The digits of a natural number form one digit group. */
  lemma NatDigitsGroup(n: nat)
    ensures DigitGroups(NatDigits(n))
  {
    var d := NatDigits(n);
    assert forall k :: 0 <= k < |d| - 1 ==> d[k] != '_';
  }

  /** `int` reads back the digits of a natural number. */
  lemma ParseNatDigits(m: nat)
    ensures ParseInt(NatDigits(m)) == Some(m)
  {
    var d := NatDigits(m);
    NatDigitsValue(m);
    NatDigitsGroup(m);
    TrimsUnchanged(d);
    assert d[0] != '+' && d[0] != '-';
  }

  /** `int` reads back a minus sign followed by the digits of a natural number. */
  lemma ParseNegatedDigits(m: nat)
    ensures ParseInt("-" + NatDigits(m)) == Some(-(m as int))
  {
    var d := NatDigits(m);
    var s := "-" + d;
    NatDigitsValue(m);
    NatDigitsGroup(m);
    TrimsUnchanged(s);
    assert s[1..] == d;
  }

  /** `int(str(n)) == n` for every integer `n`. */
  lemma ParseIntDecimal(n: int)
    ensures ParseInt(Decimal(n)) == Some(n)
  {
    if n < 0 {
      assert Decimal(n) == "-" + NatDigits(-n);
      ParseNegatedDigits(-n);
    } else {
      assert Decimal(n) == NatDigits(n);
      ParseNatDigits(n);
    }
  }

  /**
   * Python `int(v)`: an integer is itself, a boolean is 0 or 1, a string is
   * parsed; `None`, lists and dicts raise.
   */
  function ToInt(v: Value): (r: Result<int>)
    ensures v.VInt? ==> r == Ok(v.i)
    ensures v.VBool? ==> r == Ok(BoolToInt(v.b))
    ensures r.Err? ==> r.error == (if v.VStr? then ValueError else TypeError)
    ensures v.VNull? || v.VList? || v.VMap? ==> r.Err?
    ensures v.VStr? ==> (r.Ok? <==> ParseInt(v.s).Some?)
    ensures v.VStr? && r.Ok? ==> Some(r.value) == ParseInt(v.s)
  {
    match v
    case VInt(x) => Ok(x)
    case VBool(x) => Ok(BoolToInt(x))
    case VStr(x) =>
      (match ParseInt(x)
       case Some(n) => Ok(n)
       case None => Err(ValueError))
    case _ => Err(TypeError)
  }

  /**
   * What `for x in v` visits: a list's elements, a string's one-character
   * substrings, or a dict's keys, each a string. A dict yields its keys in
   * insertion order, which a Dafny map does not keep, so they are given as a set.
   */
  datatype Walk = InOrder(items: seq<Value>) | AnyOrder(keys: set<string>)

  /** `iter(v)`: `None`, booleans and integers are not iterable. */
  function Iterate(v: Value): (r: Result<Walk>)
    ensures r.Err? <==> v.VNull? || v.VBool? || v.VInt?
    ensures r.Err? ==> r.error == TypeError
    ensures v.VList? ==> r == Ok(InOrder(v.items))
    ensures v.VMap? ==> r == Ok(AnyOrder(v.fields.Keys))
    ensures v.VStr? ==> r.Ok? && r.value.InOrder? && |r.value.items| == |v.s|
    ensures v.VStr? ==> forall k :: 0 <= k < |v.s| ==> r.value.items[k] == VStr([v.s[k]])
  {
    match v
    case VList(xs) => Ok(InOrder(xs))
    case VStr(x) => Ok(InOrder(seq(|x|, k requires 0 <= k < |x| => VStr([x[k]]))))
    case VMap(m) => Ok(AnyOrder(m.Keys))
    case _ => Err(TypeError)
  }

  /**
   * The items a `for` loop visits, one after the other. A dict's keys come in
   * an order this model leaves open: every key once, as a string.
   */
  method IterationOrder(w: Walk) returns (items: seq<Value>)
    ensures w.InOrder? ==> items == w.items
    ensures w.AnyOrder? ==> |items| == |w.keys|
    ensures w.AnyOrder? ==> forall k :: 0 <= k < |items| ==> items[k].VStr? && items[k].s in w.keys
    ensures w.AnyOrder? ==> forall j, k :: 0 <= j < k < |items| ==> items[j] != items[k]
    ensures w.AnyOrder? ==> forall key :: key in w.keys ==> VStr(key) in items
  {
    match w
    case InOrder(xs) =>
      items := xs;
    case AnyOrder(keys) =>
      items := [];
      var rest := keys;
      while rest != {}
        invariant rest <= keys
        invariant |items| + |rest| == |keys|
        invariant forall k :: 0 <= k < |items| ==> items[k].VStr? && items[k].s in keys && items[k].s !in rest
        invariant forall j, k :: 0 <= j < k < |items| ==> items[j] != items[k]
        invariant forall key :: key in keys ==> key in rest || VStr(key) in items
        decreases |rest|
      {
        var key :| key in rest;
        items := items + [VStr(key)];
        rest := rest - {key};
      }
  }

  /**
   * The result of a Python `for` loop over `xs` that stops at the first item
   * for which `test` holds: `Ok(true)` when such an item is reached,
   * `Ok(false)` when the loop runs to its end, or the exception `test` raised
   * on the first item where it did not return `False`.
   */
  function AnyMatch(test: Value -> Result<bool>, xs: seq<Value>): Result<bool>
  {
    if xs == [] then Ok(false)
    else match test(xs[0])
      case Err(e) => Err(e)
      case Ok(hit) => if hit then Ok(true) else AnyMatch(test, xs[1..])
  }

  /** `test` returned `False` on every item of `xs` before position `i`. */
  predicate ClearBefore(test: Value -> Result<bool>, xs: seq<Value>, i: nat)
    requires i <= |xs|
  {
    forall j :: 0 <= j < i ==> test(xs[j]) == Ok(false)
  }

  /**
   * The loop's result is decided by the first item on which `test` does not
   * return `False`: a match or an exception there is the result, whatever
   * follows it, since later items are never visited.
   */
  lemma {:induction false} AnyMatchDecidedAt(test: Value -> Result<bool>, xs: seq<Value>, i: nat)
    requires i < |xs| && ClearBefore(test, xs, i)
    requires test(xs[i]) != Ok(false)
    ensures AnyMatch(test, xs) == test(xs[i])
  {
    if i > 0 {
      assert test(xs[0]) == Ok(false);
      AnyMatchDecidedAt(test, xs[1..], i - 1);
    }
  }

  /** The loop runs to its end exactly when `test` returned `False` on every item. */
  lemma {:induction false} AnyMatchFalseIff(test: Value -> Result<bool>, xs: seq<Value>)
    ensures AnyMatch(test, xs) == Ok(false) <==> ClearBefore(test, xs, |xs|)
  {
    if xs != [] {
      AnyMatchFalseIff(test, xs[1..]);
      if test(xs[0]) == Ok(false) {
        assert ClearBefore(test, xs, |xs|) <==> ClearBefore(test, xs[1..], |xs| - 1);
      }
    }
  }

  /** A result other than `Ok(false)` comes from one particular item: the first one not cleared. */
  lemma {:induction false} AnyMatchWitness(test: Value -> Result<bool>, xs: seq<Value>)
    requires AnyMatch(test, xs) != Ok(false)
    ensures exists i :: 0 <= i < |xs| && ClearBefore(test, xs, i) && test(xs[i]) == AnyMatch(test, xs)
  {
    if test(xs[0]) == Ok(false) {
      AnyMatchWitness(test, xs[1..]);
      var i :| 0 <= i < |xs| - 1 && ClearBefore(test, xs[1..], i) && test(xs[1..][i]) == AnyMatch(test, xs[1..]);
      assert ClearBefore(test, xs, i + 1);
    } else {
      assert ClearBefore(test, xs, 0);
    }
  }

  /**
   * A loop over a dict's keys whose body raises on every string raises on its
   * first key, whichever order the keys come in.
   */
  lemma KeysRaiseFirst(test: Value -> Result<bool>, items: seq<Value>, e: PyError)
    requires items != []
    requires forall k :: 0 <= k < |items| ==> items[k].VStr?
    requires forall s: string :: test(VStr(s)) == Err(e)
    ensures AnyMatch(test, items) == Err(e)
  {
    assert test(VStr(items[0].s)) == Err(e);
  }

  /** Python `json.loads(v)`: only a string is decoded; anything else raises. */
  function JsonLoads(v: Value, decode: Decoder): (r: Result<Value>)
    ensures v.VStr? && decode(v.s).Some? ==> r == Ok(decode(v.s).value)
    ensures v.VStr? && decode(v.s).None? ==> r == Err(JSONDecodeError)
    ensures !v.VStr? ==> r == Err(TypeError)
  {
    match v
    case VStr(text) =>
      (match decode(text)
       case Some(doc) => Ok(doc)
       case None => Err(JSONDecodeError))
    case _ => Err(TypeError)
  }

  /**
   * Nested dict lookup along `path`, absent as soon as a step is missing or
   * not a dict. Used to state what the checks read, independently of how the
   * checks' own subscriptions fail.
   */
  function Lookup(v: Value, path: seq<string>): Option<Value>
  {
    if path == [] then Some(v)
    else if v.VMap? && path[0] in v.fields then Lookup(v.fields[path[0]], path[1..])
    else None
  }

  /** Lookup along a path of two or three keys, one dict at a time. */
  lemma LookupSteps(v: Value, a: string, b: string, c: string)
    ensures Lookup(v, [a]) == (if v.VMap? && a in v.fields then Some(v.fields[a]) else None)
    ensures Lookup(v, [a, b]) == (if v.VMap? && a in v.fields then Lookup(v.fields[a], [b]) else None)
    ensures Lookup(v, [a, b, c]) == (if v.VMap? && a in v.fields then Lookup(v.fields[a], [b, c]) else None)
  {
    assert [a][1..] == [];
    assert [a, b][1..] == [b];
    assert [a, b, c][1..] == [b, c];
  }

  /** `json.loads(props[key])` when the entry is present, is a string and decodes; `None` otherwise. */
  function DecodedAt(props: Props, key: string, decode: Decoder): Option<Value>
  {
    if key in props && props[key].VStr? then decode(props[key].s) else None
  }
}
