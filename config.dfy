/** Field coercion of the resource's `source` and `params` mappings against a
    declared schema (`AnsiblePlaybook.SOURCE`, `AnsiblePlaybook.PARAMS` and
    `AnsiblePlaybook._get_config_param`). */
module ConfigResolver {
  import opened Wrappers
  import opened PyValues

  /** The type a schema declares for a field. `TAny` is a schema entry of `None`:
      the value is kept as it is. */
  datatype FieldType = TStr | TBool | TInt | TDict | TList | TAny

  /** The fields read from `source`. */
  const SOURCE_SCHEMA: seq<(string, FieldType)> := [
    ("private_key_file", TStr),
    ("remote_user", TStr),
    ("remote_pass", TStr),
    ("vault_password", TStr),
    ("extra_vars", TDict),
    ("inventory", TDict),
    ("become", TBool),
    ("become_method", TStr),
    ("become_user", TStr),
    ("become_pass", TStr),
    ("ssh_common_args", TStr),
    ("forks", TInt),
    ("tags", TList),
    ("skip_tags", TList)
  ]

  /** The fields read from `params`. */
  const PARAMS_SCHEMA: seq<(string, FieldType)> := [
    ("src", TStr),
    ("playbook", TStr),
    ("extra_vars", TDict),
    ("inventory", TDict),
    ("become", TBool),
    ("become_method", TStr),
    ("become_user", TStr),
    ("connection", TStr),
    ("timeout", TInt),
    ("ssh_common_args", TStr),
    ("verbosity", TInt),
    ("force_handlers", TBool),
    ("forks", TInt),
    ("tags", TList),
    ("skip_tags", TList)
  ]

  /** Neither schema names a field twice. */
  lemma SchemasDistinct()
    ensures DistinctKeys(SOURCE_SCHEMA) && DistinctKeys(PARAMS_SCHEMA)
  {
    SourceHead();
    SourceMiddle();
    SourceTail();
    ParamsHead();
    ParamsMiddle();
    ParamsTail();
  }

  /** The names at positions `lo` up to `hi` are not repeated later on. */
  predicate UniqueFrom(schema: seq<(string, FieldType)>, lo: nat, hi: nat) {
    forall i, j :: lo <= i < hi && i < j < |schema| ==> schema[i].0 != schema[j].0
  }

  lemma SourceHead()
    ensures UniqueFrom(SOURCE_SCHEMA, 0, 3)
  {
  }

  lemma SourceMiddle()
    ensures UniqueFrom(SOURCE_SCHEMA, 3, 7)
  {
  }

  lemma SourceTail()
    ensures UniqueFrom(SOURCE_SCHEMA, 7, 14)
  {
  }

  lemma ParamsHead()
    ensures UniqueFrom(PARAMS_SCHEMA, 0, 3)
  {
  }

  lemma ParamsMiddle()
    ensures UniqueFrom(PARAMS_SCHEMA, 3, 7)
  {
  }

  lemma ParamsTail()
    ensures UniqueFrom(PARAMS_SCHEMA, 7, 15)
  {
  }

  /** The words a boolean field accepts as true, once lower-cased. */
  const TRUE_WORDS: seq<string> := ["true", "1", "yes", "y"]

  predicate HasType(v: Value, t: FieldType) {
    match t
    case TStr => v.VStr?
    case TBool => v.VBool?
    case TInt => v.VInt?
    case TDict => v.VDict?
    case TList => v.VList?
    case TAny => true
  }

  /** What coercing one field does: a value, a ValueError (the field is dropped), or
      another exception (it escapes). */
  datatype Coercion = Coerced(value: Value) | Dropped(reason: Exc) | Raised(exc: Exc)

  function PairLengthError(i: nat, len: nat): Exc {
    ValueError("dictionary update sequence element #" + IntToString(i) + " has length "
               + IntToString(len) + "; 2 is required")
  }

  /** `dict(items)` for a sequence of pairs, from element `i` on, into `acc`. A pair
      whose key is an int, a bool or None is outside the model and treated as a TypeError. */
  function DictFromPairs(items: seq<Value>, i: nat, acc: seq<(string, Value)>): (c: Coercion)
    requires i <= |items|
    ensures c.Coerced? ==> c.value.VDict?
    decreases |items| - i
  {
    if i == |items| then Coerced(VDict(acc))
    else
      match items[i]
      case VList(pair) =>
        if |pair| != 2 then Dropped(PairLengthError(i, |pair|))
        else if pair[0].VStr? then DictFromPairs(items, i + 1, Set(acc, pair[0].s, pair[1]))
        else Raised(TypeError("unhashable or non-string key"))
      case VStr(s) =>
        if |s| != 2 then Dropped(PairLengthError(i, |s|))
        else DictFromPairs(items, i + 1, Set(acc, [s[0]], VStr([s[1]])))
      case VDict(d) =>
        if |d| != 2 then Dropped(PairLengthError(i, |d|))
        else DictFromPairs(items, i + 1, Set(acc, d[0].0, VStr(d[1].0)))
      case _ =>
        Raised(TypeError("cannot convert dictionary update sequence element #" + IntToString(i)
                         + " to a sequence"))
  }

  /** The key and the value one element of `dict(items)` contributes, when it is a pair. */
  function PairOf(v: Value): Option<(string, Value)> {
    match v
    case VList(pair) => if |pair| == 2 && pair[0].VStr? then Some((pair[0].s, pair[1])) else None
    case VStr(s) => if |s| == 2 then Some(([s[0]], VStr([s[1]]))) else None
    case VDict(d) => if |d| == 2 then Some((d[0].0, VStr(d[1].0))) else None
    case _ => None
  }

  /** The value of the last pair in `items` whose key is `k`, searched from the end. */
  function LastValue(items: seq<Value>, k: string): Option<Value> {
    if items == [] then None
    else
      var p := PairOf(items[|items| - 1]);
      if p.Some? && p.value.0 == k then Some(p.value.1) else LastValue(items[..|items| - 1], k)
  }

  /** A pair in front only counts when no later pair has the same key. */
  lemma {:induction false} LastValueCons(x: Value, rest: seq<Value>, k: string)
    ensures LastValue([x] + rest, k) ==
      if LastValue(rest, k).Some? then LastValue(rest, k)
      else if PairOf(x).Some? && PairOf(x).value.0 == k then Some(PairOf(x).value.1) else None
    decreases |rest|
  {
    var all := [x] + rest;
    if rest == [] {
      assert all[..0] == [];
    } else {
      assert all[..|all| - 1] == [x] + rest[..|rest| - 1];
      assert all[|all| - 1] == rest[|rest| - 1];
      LastValueCons(x, rest[..|rest| - 1], k);
    }
  }

  /** When `dict(items)` succeeds, every element was a pair, and each key holds the
      value of its last pair; a key no pair names keeps its value in `acc`. */
  lemma {:induction false} DictFromPairsGet(items: seq<Value>, i: nat, acc: seq<(string, Value)>, k: string)
    requires i <= |items|
    requires DictFromPairs(items, i, acc).Coerced?
    ensures forall j :: i <= j < |items| ==> PairOf(items[j]).Some?
    ensures Get(DictFromPairs(items, i, acc).value.entries, k) ==
      if LastValue(items[i..], k).Some? then LastValue(items[i..], k) else Get(acc, k)
    decreases |items| - i
  {
    if i < |items| {
      var p := PairOf(items[i]);
      assert p.Some? && DictFromPairs(items, i, acc) == DictFromPairs(items, i + 1, Set(acc, p.value.0, p.value.1));
      DictFromPairsGet(items, i + 1, Set(acc, p.value.0, p.value.1), k);
      assert items[i..] == [items[i]] + items[i + 1..];
      LastValueCons(items[i], items[i + 1..], k);
    }
  }

  /** `value_type(value)` for one schema type; for `bool` the membership test
      `str(value).lower() in [...]`. */
  function Coerce(v: Value, t: FieldType): (c: Coercion)
    ensures c.Coerced? ==> HasType(c.value, t)
    ensures t == TBool || t == TStr || t == TAny ==> c.Coerced?
  {
    match t
    case TBool => Coerced(VBool(Lower(Str(v)) in TRUE_WORDS))
    case TAny => Coerced(v)
    case TStr => Coerced(VStr(Str(v)))
    case TInt =>
      (match v
       case VInt(i) => Coerced(VInt(i))
       case VBool(b) => Coerced(VInt(if b then 1 else 0))
       case VStr(s) =>
         (match ParseInt(s)
          case Some(n) => Coerced(VInt(n))
          case None => Dropped(ValueError("invalid literal for int() with base 10: " + QuoteStr(s))))
       case _ => Raised(TypeError("int() argument must be a string or a number, not '" + TypeName(v) + "'")))
    case TDict =>
      (match v
       case VDict(d) => Coerced(VDict(d))
       case _ =>
         (match Iterate(v)
          case Ok(items) => DictFromPairs(items, 0, [])
          case Err(e) => Raised(e)))
    case TList =>
      (match Iterate(v)
       case Ok(items) => Coerced(VList(items))
       case Err(e) => Raised(e))
  }

  /** One turn of the loop: field `f` of the schema against the raw `data`. */
  function Step(config: map<string, Value>, data: seq<(string, Value)>, f: (string, FieldType))
    : Result<map<string, Value>, Exc>
  {
    var value := GetOr(data, f.0, VNone);
    if !Truthy(value) then Ok(config)
    else
      match Coerce(value, f.1)
      case Coerced(x) => Ok(config[f.0 := x])
      case Dropped(_) => Ok(config)
      case Raised(e) => Err(e)
  }

  /** The configuration `_get_config_param(data, schema)` builds, field after field. */
  function ConfigParam(data: seq<(string, Value)>, schema: seq<(string, FieldType)>)
    : Result<map<string, Value>, Exc>
    decreases |schema|
  {
    if schema == [] then Ok(map[])
    else
      match ConfigParam(data, schema[..|schema| - 1])
      case Err(e) => Err(e)
      case Ok(config) => Step(config, data, schema[|schema| - 1])
  }

  /** Once a field escapes, the remaining fields are not looked at. */
  lemma {:induction false} ConfigParamStops(data: seq<(string, Value)>, schema: seq<(string, FieldType)>, i: nat)
    requires i <= |schema| && ConfigParam(data, schema[..i]).Err?
    ensures ConfigParam(data, schema) == ConfigParam(data, schema[..i])
    decreases |schema|
  {
    if i < |schema| {
      var init := schema[..|schema| - 1];
      assert init[..i] == schema[..i];
      ConfigParamStops(data, init, i);
    } else {
      assert schema[..i] == schema;
    }
  }

  /** The coercion outcome of field `k`: its raw value in `data` against its type in `schema`. */
  function FieldOutcome(data: seq<(string, Value)>, schema: seq<(string, FieldType)>, k: string): Coercion {
    Coerce(GetOr(data, k, VNone), GetOr(schema, k, TAny))
  }

  /** Field `k` is kept: the schema names it, its raw value is truthy and coercion succeeds. */
  predicate Kept(data: seq<(string, Value)>, schema: seq<(string, FieldType)>, k: string) {
    k in Keys(schema) && Truthy(GetOr(data, k, VNone)) && FieldOutcome(data, schema, k).Coerced?
  }

  /** Field `k` escapes with an exception other than ValueError. */
  predicate Escapes(data: seq<(string, Value)>, schema: seq<(string, FieldType)>, k: string) {
    k in Keys(schema) && Truthy(GetOr(data, k, VNone)) && FieldOutcome(data, schema, k).Raised?
  }

  /** The body of the loop in `_get_config_param` for one field. */
  method CoerceField(config: map<string, Value>, data: seq<(string, Value)>, f: (string, FieldType))
    returns (r: Result<map<string, Value>, Exc>)
    ensures r == Step(config, data, f)
  {
    var p := f.0;
    var value := GetOr(data, p, VNone);
    if !Truthy(value) {
      return Ok(config);
    }
    var valueType := f.1;
    if valueType == TBool {
      return Ok(config[p := VBool(Lower(Str(value)) in TRUE_WORDS)]);
    } else if valueType == TAny {
      return Ok(config[p := value]);
    }
    match Coerce(value, valueType)
    case Coerced(x) =>
      return Ok(config[p := x]);
    case Dropped(_) =>
      // logged as "Cannot get config param"; the field is left out
      return Ok(config);
    case Raised(e) =>
      return Err(e);
  }

  /** `_get_config_param`: the loop over the schema's fields. */
  method GetConfigParam(data: seq<(string, Value)>, schema: seq<(string, FieldType)>)
    returns (r: Result<map<string, Value>, Exc>)
    ensures r == ConfigParam(data, schema)
  {
    var config: map<string, Value> := map[];
    var i := 0;
    while i < |schema|
      invariant 0 <= i <= |schema|
      invariant ConfigParam(data, schema[..i]) == Ok(config)
    {
      assert schema[..i + 1][..i] == schema[..i];
      assert ConfigParam(data, schema[..i + 1]) == Step(config, data, schema[i]);
      var next := CoerceField(config, data, schema[i]);
      if next.Err? {
        ConfigParamStops(data, schema, i + 1);
        return next;
      }
      config := next.value;
      i := i + 1;
    }
    assert schema[..i] == schema;
    return Ok(config);
  }

  /** The coerced configuration holds exactly the kept fields, each with its coerced
      value, which has the type the schema declares; it fails exactly when some
      field's coercion escapes. */
  lemma ConfigParamFields(data: seq<(string, Value)>, schema: seq<(string, FieldType)>)
    requires DistinctKeys(schema)
    ensures ConfigParam(data, schema).Ok? <==> forall k :: !Escapes(data, schema, k)
    ensures ConfigParam(data, schema).Ok? ==>
      forall k :: k in ConfigParam(data, schema).value <==> Kept(data, schema, k)
    ensures ConfigParam(data, schema).Ok? ==>
      forall k :: k in ConfigParam(data, schema).value ==>
        && FieldOutcome(data, schema, k).Coerced?
        && ConfigParam(data, schema).value[k] == FieldOutcome(data, schema, k).value
        && HasType(ConfigParam(data, schema).value[k], GetOr(schema, k, TAny))
  {
    ConfigParamSucceeds(data, schema);
    ConfigParamContents(data, schema);
  }

  /** `_get_config_param` returns exactly when no field's coercion escapes. */
  lemma {:induction false} ConfigParamSucceeds(data: seq<(string, Value)>, schema: seq<(string, FieldType)>)
    requires DistinctKeys(schema)
    ensures ConfigParam(data, schema).Ok? <==> forall k :: !Escapes(data, schema, k)
    decreases |schema|
  {
    if schema != [] {
      var init := schema[..|schema| - 1];
      var f := schema[|schema| - 1];
      assert schema == init + [f];
      assert DistinctKeys(init);
      ConfigParamSucceeds(data, init);
      KeysAppend(init, f);
      assert f.0 !in Keys(init);
      FieldAppend(data, init, f, f.0);
      var prev := ConfigParam(data, init);
      if prev.Err? {
        assert ConfigParam(data, schema) == prev;
        var k :| Escapes(data, init, k);
        FieldAppend(data, init, f, k);
        assert Escapes(data, schema, k);
      } else {
        assert ConfigParam(data, schema) == Step(prev.value, data, f);
        if !Escapes(data, schema, f.0) {
          forall k
            ensures !Escapes(data, schema, k)
          {
            FieldAppend(data, init, f, k);
          }
        }
      }
    }
  }

  /** On success, the configuration holds exactly the kept fields, each with its coerced value. */
  lemma {:induction false} ConfigParamContents(data: seq<(string, Value)>, schema: seq<(string, FieldType)>)
    requires DistinctKeys(schema)
    ensures ConfigParam(data, schema).Ok? ==>
      forall k :: k in ConfigParam(data, schema).value <==> Kept(data, schema, k)
    ensures ConfigParam(data, schema).Ok? ==>
      forall k :: k in ConfigParam(data, schema).value ==>
        FieldOutcome(data, schema, k).Coerced? &&
        ConfigParam(data, schema).value[k] == FieldOutcome(data, schema, k).value
    decreases |schema|
  {
    if schema != [] {
      var init := schema[..|schema| - 1];
      var f := schema[|schema| - 1];
      assert schema == init + [f];
      assert DistinctKeys(init);
      ConfigParamContents(data, init);
      KeysAppend(init, f);
      assert f.0 !in Keys(init);
      FieldAppend(data, init, f, f.0);
      if ConfigParam(data, schema).Ok? {
        var config := ConfigParam(data, init).value;
        var result := ConfigParam(data, schema).value;
        assert f.0 !in config;
        forall k
          ensures k in result <==> Kept(data, schema, k)
          ensures k in result ==> FieldOutcome(data, schema, k).Coerced? && result[k] == FieldOutcome(data, schema, k).value
        {
          FieldAppend(data, init, f, k);
        }
      }
    }
  }

  /** Adding one more field to a schema changes nothing for the other keys. */
  lemma FieldAppend(data: seq<(string, Value)>, init: seq<(string, FieldType)>, f: (string, FieldType), k: string)
    requires f.0 !in Keys(init)
    ensures k != f.0 ==> FieldOutcome(data, init + [f], k) == FieldOutcome(data, init, k)
    ensures k != f.0 ==> Escapes(data, init + [f], k) == Escapes(data, init, k)
    ensures k != f.0 ==> Kept(data, init + [f], k) == Kept(data, init, k)
    ensures FieldOutcome(data, init + [f], f.0) == Coerce(GetOr(data, f.0, VNone), f.1)
    ensures !Escapes(data, init, f.0) && !Kept(data, init, f.0)
  {
    GetAppend(init, f, k);
    GetAppend(init, f, f.0);
    KeysAppend(init, f);
  }

  /** A truthy value in a boolean field is true exactly when it is True, the integer 1,
      or a string that equals "true", "1", "yes" or "y" ignoring case. */
  lemma BoolCoercion(v: Value)
    requires Truthy(v)
    ensures Coerce(v, TBool).Coerced?
    ensures Coerce(v, TBool).value == VBool(true) <==>
      v == VBool(true) || v == VInt(1) || (v.VStr? && TrueWord(v.s))
  {
    match v {
      case VBool(b) =>
        assert b && Lower(Str(v)) == "true";
      case VInt(n) =>
        IntTextIsTrueWord(n);
      case VStr(s) =>
        TrueWordLower(s);
      case VList(items) =>
        assert Lower(Str(v))[0] == '[';
      case VDict(entries) =>
        assert Lower(Str(v))[0] == '{';
    }
  }

  /** The decimal text of an integer is one of the true words exactly when the integer is 1. */
  lemma IntTextIsTrueWord(n: int)
    ensures Lower(IntToString(n)) in TRUE_WORDS <==> n == 1
  {
    IntToStringChars(n);
    var digits := IntToString(n);
    forall i | 0 <= i < |digits|
      ensures Lower(digits)[i] == digits[i]
    {
    }
    assert Lower(digits) == digits;
    if n < 0 {
      assert digits[0] == '-';
    } else if n >= 10 {
      NatToStringDigits(n / 10);
      assert |digits| >= 2;
    } else {
      assert digits == [Digit(n)];
    }
  }

  /** `a` and `b` are the same text up to the case of ASCII letters. */
  predicate EqualsIgnoringCase(a: string, b: string) {
    |a| == |b| && forall i :: 0 <= i < |a| ==> LowerChar(a[i]) == LowerChar(b[i])
  }

  predicate TrueWord(s: string) {
    exists w :: w in TRUE_WORDS && EqualsIgnoringCase(s, w)
  }

  lemma TrueWordLower(s: string)
    ensures Lower(s) in TRUE_WORDS <==> TrueWord(s)
  {
    if Lower(s) in TRUE_WORDS {
      assert EqualsIgnoringCase(s, Lower(s));
    }
    if TrueWord(s) {
      var w :| w in TRUE_WORDS && EqualsIgnoringCase(s, w);
      assert forall i :: 0 <= i < |w| ==> LowerChar(w[i]) == w[i];
      assert Lower(s) == w;
    }
  }

  /** An integer field given as the decimal text of an integer coerces to that integer. */
  lemma IntCoercionRoundTrip(n: int)
    ensures Coerce(VStr(IntToString(n)), TInt) == Coerced(VInt(n))
  {
    IntToStringRoundTrip(n);
  }

  /** `d.update(other)`: a dict is merged entry by entry; anything else is read as a
      sequence of key/value pairs, as `dict(other)` reads it, and its failures propagate. */
  function DictUpdate(d: seq<(string, Value)>, other: Value): Result<seq<(string, Value)>, Exc> {
    match other
    case VDict(entries) => Ok(Update(d, entries))
    case _ =>
      match Iterate(other)
      case Err(e) => Err(e)
      case Ok(items) =>
        match DictFromPairs(items, 0, [])
        case Coerced(pairs) => Ok(Update(d, pairs.entries))
        case Dropped(e) => Err(e)
        case Raised(e) => Err(e)
  }
}
