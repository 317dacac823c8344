/** Python values as they arrive in the resource's JSON configuration, and the
    built-in operations on them that the resource relies on: truthiness,
    `str()`, `repr()`, `int()` of a string, `str.lower()`, iteration,
    `dict.get` and `dict.update`. */
module PyValues {
  import opened Wrappers

  /** A JSON-shaped Python value. A dict keeps its insertion order. */
  datatype Value =
    | VNone
    | VBool(b: bool)
    | VInt(i: int)
    | VStr(s: string)
    | VList(items: seq<Value>)
    | VDict(entries: seq<(string, Value)>)

  /** The Python exceptions the model tells apart. */
  datatype Exc =
    | TypeError(detail: string)
    | ValueError(message: string)
    | AttributeError(detail: string)
    | OSError(path: string)
    /** The repository clone failed (`git.exc.GitCommandError`). */
    | GitCommandError(dest: string)

  /** Python's `bool(v)`. */
  predicate Truthy(v: Value) {
    match v
    case VNone => false
    case VBool(b) => b
    case VInt(i) => i != 0
    case VStr(s) => s != ""
    case VList(items) => items != []
    case VDict(entries) => entries != []
  }

  function TypeName(v: Value): string {
    match v
    case VNone => "NoneType"
    case VBool(_) => "bool"
    case VInt(_) => "int"
    case VStr(_) => "str"
    case VList(_) => "list"
    case VDict(_) => "dict"
  }

  // ----- ordered dictionaries -----

  function Keys<V>(m: seq<(string, V)>): (ks: seq<string>)
    ensures |ks| == |m|
    ensures forall i :: 0 <= i < |m| ==> ks[i] == m[i].0
  {
    if m == [] then [] else [m[0].0] + Keys(m[1..])
  }

  /** A Python dict never holds the same key twice. */
  predicate DistinctKeys<V>(m: seq<(string, V)>) {
    forall i, j :: 0 <= i < j < |m| ==> m[i].0 != m[j].0
  }

  /** `d.get(k)`. */
  function Get<V>(m: seq<(string, V)>, k: string): (r: Option<V>)
    ensures r.Some? <==> k in Keys(m)
  {
    if m == [] then None
    else if m[0].0 == k then Some(m[0].1)
    else Get(m[1..], k)
  }

  /** `d.get(k, default)`. */
  function GetOr<V>(m: seq<(string, V)>, k: string, default: V): V {
    match Get(m, k)
    case Some(v) => v
    case None => default
  }

  /** `d[k] = v`: an existing key keeps its place, a new key goes last. */
  function Set<V>(m: seq<(string, V)>, k: string, v: V): (r: seq<(string, V)>)
    ensures Get(r, k) == Some(v)
    ensures forall j :: j != k ==> Get(r, j) == Get(m, j)
  {
    if m == [] then [(k, v)]
    else if m[0].0 == k then [(k, v)] + m[1..]
    else [m[0]] + Set(m[1..], k, v)
  }

  lemma KeysCons<V>(e: (string, V), m: seq<(string, V)>)
    ensures Keys([e] + m) == [e.0] + Keys(m)
  {
    assert ([e] + m)[1..] == m;
  }

  /** `d[k] = v` leaves the keys where they were and appends `k` when it is new. */
  lemma {:induction false} SetKeys<V>(m: seq<(string, V)>, k: string, v: V)
    ensures Keys(Set(m, k, v)) == if k in Keys(m) then Keys(m) else Keys(m) + [k]
    decreases m
  {
    if m != [] {
      KeysCons(m[0], m[1..]);
      assert m == [m[0]] + m[1..];
      if m[0].0 == k {
        KeysCons((k, v), m[1..]);
      } else {
        SetKeys(m[1..], k, v);
        KeysCons(m[0], Set(m[1..], k, v));
      }
    }
  }

  /** `d.update(n)`: the entries of `n` are assigned one by one, in order. */
  function Update<V>(m: seq<(string, V)>, n: seq<(string, V)>): seq<(string, V)>
    decreases n
  {
    if n == [] then m else Update(Set(m, n[0].0, n[0].1), n[1..])
  }

  /** After `d.update(n)` a key of `n` maps to its value in `n`; any other key keeps its value in `d`. */
  lemma {:induction false} UpdateGet<V>(m: seq<(string, V)>, n: seq<(string, V)>, j: string)
    requires DistinctKeys(n)
    ensures Get(Update(m, n), j) == if j in Keys(n) then Get(n, j) else Get(m, j)
    decreases n
  {
    if n != [] {
      assert DistinctKeys(n[1..]);
      UpdateGet(Set(m, n[0].0, n[0].1), n[1..], j);
      assert Keys(n) == [n[0].0] + Keys(n[1..]);
      if j == n[0].0 {
        assert j !in Keys(n[1..]);
      }
    }
  }

  /** After `d.update(n)` the keys are those of `d` and those of `n`. */
  lemma {:induction false} UpdateKeys<V>(m: seq<(string, V)>, n: seq<(string, V)>)
    ensures forall j :: j in Keys(Update(m, n)) <==> j in Keys(m) || j in Keys(n)
    decreases n
  {
    if n != [] {
      var m' := Set(m, n[0].0, n[0].1);
      SetKeys(m, n[0].0, n[0].1);
      UpdateKeys(m', n[1..]);
      assert Keys(n) == [n[0].0] + Keys(n[1..]);
    }
  }

  /** `d.update(n)` keeps the keys of `d` in their places, at the front. */
  lemma {:induction false} UpdateKeysPrefix<V>(m: seq<(string, V)>, n: seq<(string, V)>)
    ensures |Keys(m)| <= |Keys(Update(m, n))|
    ensures Keys(Update(m, n))[..|Keys(m)|] == Keys(m)
    decreases n
  {
    if n != [] {
      var m' := Set(m, n[0].0, n[0].1);
      SetKeys(m, n[0].0, n[0].1);
      UpdateKeysPrefix(m', n[1..]);
      var ks := Keys(Update(m', n[1..]));
      assert Update(m, n) == Update(m', n[1..]);
      assert ks[..|Keys(m)|] == ks[..|Keys(m')|][..|Keys(m)|];
    }
  }

  lemma {:induction false} KeysAppend<V>(m: seq<(string, V)>, e: (string, V))
    ensures Keys(m + [e]) == Keys(m) + [e.0]
  {
  }

  /** Looking a key up in a dict with one more entry at the end. */
  lemma {:induction false} GetAppend<V>(m: seq<(string, V)>, e: (string, V), k: string)
    ensures Get(m + [e], k) == if k in Keys(m) then Get(m, k) else if k == e.0 then Some(e.1) else None
    decreases m
  {
    if m != [] {
      assert (m + [e])[1..] == m[1..] + [e];
      GetAppend(m[1..], e, k);
    }
  }

  // ----- list comprehensions -----

  /** `[x for x in s if keep(x)]`. */
  function Filter<T(!new)>(s: seq<T>, keep: T -> bool): (r: seq<T>)
    ensures |r| <= |s|
  {
    if s == [] then [] else (if keep(s[0]) then [s[0]] else []) + Filter(s[1..], keep)
  }

  /** The comprehension holds exactly the elements of `s` that satisfy `keep`. */
  lemma {:induction false} FilterMembers<T(!new)>(s: seq<T>, keep: T -> bool)
    ensures forall x :: x in Filter(s, keep) <==> x in s && keep(x)
  {
    if s != [] {
      FilterMembers(s[1..], keep);
      assert s == [s[0]] + s[1..];
    }
  }

  /** Splitting a list by a condition and its negation loses and duplicates nothing. */
  lemma {:induction false} FilterPartition<T(!new)>(s: seq<T>, keep: T -> bool, drop: T -> bool)
    requires forall i :: 0 <= i < |s| ==> drop(s[i]) == !keep(s[i])
    ensures multiset(Filter(s, keep)) + multiset(Filter(s, drop)) == multiset(s)
  {
    if s != [] {
      var t := s[1..];
      var x := s[0];
      FilterPartition(t, keep, drop);
      var a, b := Filter(t, keep), Filter(t, drop);
      assert s == [x] + t;
      assert multiset(s) == multiset{x} + multiset(t);
      assert drop(s[0]) == !keep(s[0]);
      if keep(x) {
        assert Filter(s, keep) == [x] + a;
        assert Filter(s, drop) == b;
        assert multiset([x] + a) == multiset{x} + multiset(a);
      } else {
        assert Filter(s, keep) == a;
        assert Filter(s, drop) == [x] + b;
        assert multiset([x] + b) == multiset{x} + multiset(b);
      }
    }
  }

  /** Filtering a list with one more element at the end. */
  lemma {:induction false} FilterAppend<T(!new)>(s: seq<T>, x: T, keep: T -> bool)
    ensures Filter(s + [x], keep) == Filter(s, keep) + (if keep(x) then [x] else [])
  {
    if s != [] {
      assert (s + [x])[1..] == s[1..] + [x];
      FilterAppend(s[1..], x, keep);
    }
  }

  /** Two conditions that agree on the elements of a list select the same sublist. */
  lemma {:induction false} FilterCongruent<T(!new)>(s: seq<T>, f: T -> bool, g: T -> bool)
    requires forall x :: x in s ==> f(x) == g(x)
    ensures Filter(s, f) == Filter(s, g)
  {
    if s != [] {
      FilterCongruent(s[1..], f, g);
    }
  }

  // ----- str() and repr() -----

  function Digit(d: nat): char
    requires d < 10
  {
    ('0' as int + d) as char
  }

  function NatToString(n: nat): string
    decreases n
  {
    if n < 10 then [Digit(n)] else NatToString(n / 10) + [Digit(n % 10)]
  }

  /** `str(i)` for an int: decimal digits, with a leading minus sign when negative. */
  function IntToString(i: int): string {
    if i < 0 then "-" + NatToString(-i) else NatToString(i)
  }

  function JoinWith(parts: seq<string>, sep: string): string {
    if parts == [] then ""
    else if |parts| == 1 then parts[0]
    else parts[0] + sep + JoinWith(parts[1..], sep)
  }

  /** How `repr()` writes one character between quotes `q`. Escapes of other
      non-printable characters are not modelled. */
  function EscapeChar(c: char, q: char): string {
    if c == '\\' then "\\\\"
    else if c == q then ['\\', q]
    else if c == '\n' then "\\n"
    else if c == '\r' then "\\r"
    else if c == '\t' then "\\t"
    else [c]
  }

  function Escape(s: string, q: char): string {
    if s == [] then "" else EscapeChar(s[0], q) + Escape(s[1..], q)
  }

  /** `repr(s)`: single quotes unless the text holds a single quote and no double quote. */
  function QuoteStr(s: string): string {
    var q := if '\'' in s && '"' !in s then '"' else '\'';
    [q] + Escape(s, q) + [q]
  }

  /** Python's `repr(v)`. */
  function Repr(v: Value): string
    decreases v
  {
    match v
    case VNone => "None"
    case VBool(b) => if b then "True" else "False"
    case VInt(i) => IntToString(i)
    case VStr(s) => QuoteStr(s)
    case VList(items) =>
      "[" + JoinWith(seq(|items|, k requires 0 <= k < |items| => Repr(items[k])), ", ") + "]"
    case VDict(entries) =>
      "{" + JoinWith(seq(|entries|, k requires 0 <= k < |entries| =>
                           QuoteStr(entries[k].0) + ": " + Repr(entries[k].1)), ", ") + "}"
  }

  /** Python's `str(v)`: a string is itself, anything else its repr. */
  function Str(v: Value): string {
    match v
    case VStr(s) => s
    case _ => Repr(v)
  }

  // ----- str.lower() and int() -----

  function LowerChar(c: char): char {
    if 'A' <= c <= 'Z' then (c as int + 32) as char else c
  }

  /** `s.lower()`, on ASCII letters. */
  function Lower(s: string): (r: string)
    ensures |r| == |s|
    ensures forall i :: 0 <= i < |s| ==> r[i] == LowerChar(s[i])
  {
    if s == [] then "" else [LowerChar(s[0])] + Lower(s[1..])
  }

  predicate IsDigit(c: char) {
    '0' <= c <= '9'
  }

  predicate IsSpace(c: char) {
    c == ' ' || c == '\t' || c == '\n' || c == '\r' || c as int == 11 || c as int == 12
  }

  function StripLeft(s: string): string {
    if s != [] && IsSpace(s[0]) then StripLeft(s[1..]) else s
  }

  function StripRight(s: string): string {
    if s != [] && IsSpace(s[|s| - 1]) then StripRight(s[..|s| - 1]) else s
  }

  /** The digits of an integer literal: a digit first and last, single underscores between digits. */
  predicate DigitRun(s: string) {
    && s != []
    && IsDigit(s[0])
    && IsDigit(s[|s| - 1])
    && (forall i :: 0 <= i < |s| ==> IsDigit(s[i]) || s[i] == '_')
    && (forall i :: 0 <= i < |s| - 1 ==> s[i] == '_' ==> s[i + 1] != '_')
  }

  /** The value of a run of digits and underscores, underscores skipped. */
  function DigitsValue(s: string): nat {
    if s == [] then 0
    else if IsDigit(s[|s| - 1]) then DigitsValue(s[..|s| - 1]) * 10 + (s[|s| - 1] as int - '0' as int)
    else DigitsValue(s[..|s| - 1])
  }

  /** `int(s)` for a string: surrounding whitespace, an optional sign, then the digits.
      None is the ValueError. */
  function ParseInt(s: string): Option<int> {
    var t := StripRight(StripLeft(s));
    if t == [] then None
    else
      var negative := t[0] == '-';
      var body := if t[0] == '-' || t[0] == '+' then t[1..] else t;
      if DigitRun(body) then Some(if negative then 0 - DigitsValue(body) else DigitsValue(body))
      else None
  }

  lemma {:induction false} NatToStringDigits(n: nat)
    ensures NatToString(n) != []
    ensures forall i :: 0 <= i < |NatToString(n)| ==> IsDigit(NatToString(n)[i])
    ensures DigitsValue(NatToString(n)) == n
    decreases n
  {
    if n >= 10 {
      NatToStringDigits(n / 10);
      var s := NatToString(n);
      assert s == NatToString(n / 10) + [Digit(n % 10)];
      assert s[..|s| - 1] == NatToString(n / 10);
      assert DigitsValue(s) == DigitsValue(NatToString(n / 10)) * 10 + n % 10;
    }
  }

  /** `int(str(i)) == i`: the decimal text of an integer reads back as that integer. */
  lemma IntToStringRoundTrip(i: int)
    ensures ParseInt(IntToString(i)) == Some(i)
  {
    var s := IntToString(i);
    var digits := NatToString(if i < 0 then -i else i);
    NatToStringDigits(if i < 0 then -i else i);
    assert StripLeft(s) == s;
    assert StripRight(s) == s;
    if i < 0 {
      assert s[1..] == digits;
    }
    assert DigitRun(digits);
  }

  /** The decimal text of an integer holds only digits and a minus sign. */
  lemma IntToStringChars(i: int)
    ensures IntToString(i) != []
    ensures forall k :: 0 <= k < |IntToString(i)| ==> IsDigit(IntToString(i)[k]) || IntToString(i)[k] == '-'
  {
    NatToStringDigits(if i < 0 then -i else i);
  }

  /** Iterating a value with a `for` loop: a list gives its items, a string its
      characters, a dict its keys; anything else raises TypeError. */
  function Iterate(v: Value): (r: Result<seq<Value>, Exc>)
    ensures r.Ok? <==> v.VList? || v.VStr? || v.VDict?
  {
    match v
    case VList(items) => Ok(items)
    case VStr(s) => Ok(seq(|s|, k requires 0 <= k < |s| => VStr([s[k]])))
    case VDict(entries) => Ok(seq(|entries|, k requires 0 <= k < |entries| => VStr(entries[k].0)))
    case _ => Err(TypeError("'" + TypeName(v) + "' object is not iterable"))
  }
}
