/** Parsed JSON as the scraper sees it after `json.loads`, and the handful of
    Python operations it applies to such values (`.get`, `[...]`, `[0]`,
    iteration, truth testing and `str`). An operation that can raise returns a
    Result whose Raised case stands for the exception: the scraper only ever
    catches exceptions wholesale, so their kind is not kept. */
module PyJson {

  datatype Option<+T> = None | Some(value: T)

  /** The value of a Python expression, or the exception it raised. */
  datatype Result<+T> = Ok(value: T) | Raised

  /** A JSON object lists its entries in document order; when a key repeats,
      lookups see the last entry, as a dictionary built by json.loads does. */
  datatype Json =
    | JNull
    | JBool(b: bool)
    | JInt(i: int)
    | JStr(s: string)
    | JArr(items: seq<Json>)
    | JObj(fields: seq<(string, Json)>)

  /** The value the dictionary binds to `key`, if any. */
  function Lookup(fields: seq<(string, Json)>, key: string): Option<Json>
    decreases |fields|
  {
    if |fields| == 0 then None
    else if fields[|fields| - 1].0 == key then Some(fields[|fields| - 1].1)
    else Lookup(fields[..|fields| - 1], key)
  }

  /** A key is found exactly when some entry has it, and what is found is
      the value of the last such entry. */
  lemma {:induction false} LookupFindsLastEntry(fields: seq<(string, Json)>, key: string)
    ensures Lookup(fields, key).None? <==> forall i :: 0 <= i < |fields| ==> fields[i].0 != key
    ensures Lookup(fields, key).Some? ==>
              exists i :: 0 <= i < |fields| && fields[i] == (key, Lookup(fields, key).value) &&
                          forall j :: i < j < |fields| ==> fields[j].0 != key
    decreases |fields|
  {
    if |fields| > 0 && fields[|fields| - 1].0 != key {
      LookupFindsLastEntry(fields[..|fields| - 1], key);
    }
  }

  /** `d.get(key, default)` on a dictionary. */
  function Get(fields: seq<(string, Json)>, key: string, default: Json): Json {
    match Lookup(fields, key)
    case Some(v) => v
    case None => default
  }

  /** `v.get(key, default)`: only dictionaries have a `get` method. */
  function DictGet(v: Json, key: string, default: Json): (r: Result<Json>)
    ensures r.Raised? <==> !v.JObj?
    ensures v.JObj? && Lookup(v.fields, key).None? ==> r == Ok(default)
  {
    if v.JObj? then Ok(Get(v.fields, key, default)) else Raised
  }

  /** On a dictionary holding the key, `get` returns the bound value and the
      default plays no part. */
  lemma DictGetFindsKey(v: Json, key: string, default: Json)
    ensures v.JObj? && Lookup(v.fields, key).Some? ==> DictGet(v, key, default) == Ok(Lookup(v.fields, key).value)
  {
  }

  /** `v[key]` with a string key: a missing key raises KeyError, and a list,
      a string or a scalar rejects a string index. */
  function Subscript(v: Json, key: string): (r: Result<Json>)
    ensures r.Ok? <==> v.JObj? && Lookup(v.fields, key).Some?
    ensures r.Ok? ==> r.value == Lookup(v.fields, key).value
  {
    if v.JObj? then
      match Lookup(v.fields, key)
      case Some(x) => Ok(x)
      case None => Raised
    else Raised
  }

  /** `v[0]`: the first element of a list, the first character of a string;
      an empty list or string raises IndexError, a dictionary raises KeyError
      (its keys are strings) and a scalar raises TypeError. */
  function Index0(v: Json): (r: Result<Json>)
    ensures r.Ok? <==> (v.JArr? && v.items != []) || (v.JStr? && v.s != [])
    ensures r.Ok? && v.JArr? ==> r.value == v.items[0]
    ensures r.Ok? && v.JStr? ==> r.value.JStr? && r.value.s == v.s[..1]
  {
    match v
    case JArr(items) => if items == [] then Raised else Ok(items[0])
    case JStr(s) => if s == [] then Raised else Ok(JStr([s[0]]))
    case _ => Raised
  }

  /** What `for x in v` visits: the elements of a list, the one-character
      strings of a string, the keys of a dictionary; a scalar is not iterable. */
  function Iter(v: Json): (r: Result<seq<Json>>)
    ensures r.Raised? <==> v.JNull? || v.JBool? || v.JInt?
    ensures v.JArr? ==> r == Ok(v.items)
    ensures v.JStr? ==> r.Ok? && |r.value| == |v.s| &&
                        forall i :: 0 <= i < |v.s| ==> r.value[i] == JStr([v.s[i]])
    ensures v.JObj? ==> r.Ok? && |r.value| == |v.fields| &&
                        forall i :: 0 <= i < |v.fields| ==> r.value[i] == JStr(v.fields[i].0)
    ensures r.Ok? ==> (|r.value| == 0 <==> !Truthy(v))
  {
    match v
    case JArr(items) => Ok(items)
    case JStr(s) => Ok(seq(|s|, i requires 0 <= i < |s| => JStr([s[i]])))
    case JObj(fields) => Ok(seq(|fields|, i requires 0 <= i < |fields| => JStr(fields[i].0)))
    case _ => Raised
  }

  /** Python truth testing: None, False, 0 and empty containers are false. */
  predicate Truthy(v: Json) {
    match v
    case JNull => false
    case JBool(b) => b
    case JInt(i) => i != 0
    case JStr(s) => s != []
    case JArr(items) => items != []
    case JObj(fields) => fields != []
  }
  /** The falsy JSON values are exactly None, False, 0, the empty string,
      the empty list and the empty dictionary. */
  lemma FalsyValues(v: Json)
    ensures !Truthy(v) <==> v in {JNull, JBool(false), JInt(0), JStr([]), JArr([]), JObj([])}
  {
  }


  function DigitChar(d: nat): (c: char)
    requires d < 10
    ensures '0' <= c <= '9'
  {
    ('0' as int + d) as char
  }

  /** Decimal digits of n, most significant first, without leading zeros. */
  function NatToString(n: nat): (r: string)
    ensures |r| >= 1 && (|r| > 1 ==> r[0] != '0')
    ensures forall c :: c in r ==> '0' <= c <= '9'
    decreases n
  {
    if n < 10 then [DigitChar(n)] else NatToString(n / 10) + [DigitChar(n % 10)]
  }

  /** The number a string of decimal digits denotes. */
  function DigitsValue(s: string): nat
    decreases |s|
  {
    if s == [] then 0
    else
      var d := s[|s| - 1] as int - '0' as int;
      DigitsValue(s[..|s| - 1]) * 10 + (if 0 <= d < 10 then d else 0)
  }

  /** Reading the digits back gives the number: `str` on integers loses nothing. */
  lemma {:induction false} NatToStringRoundTrip(n: nat)
    ensures DigitsValue(NatToString(n)) == n
    decreases n
  {
    if n >= 10 {
      NatToStringRoundTrip(n / 10);
      var s := NatToString(n);
      assert s[..|s| - 1] == NatToString(n / 10);
    }
  }

  function IntToString(i: int): string {
    if i < 0 then "-" + NatToString(-i) else NatToString(i)
  }

  /** The rendering starts with a minus sign exactly for negative numbers. */
  lemma SignOfIntToString(i: int)
    ensures |IntToString(i)| >= 1 && (IntToString(i)[0] == '-' <==> i < 0)
  {
    if i >= 0 { assert IntToString(i)[0] in NatToString(i); }
  }

  lemma NatToStringInjective(m: nat, n: nat)
    requires NatToString(m) == NatToString(n)
    ensures m == n
  {
    NatToStringRoundTrip(m);
    NatToStringRoundTrip(n);
  }

  /** Two integer sale identifiers render alike exactly when they are equal. */
  lemma IntToStringInjective(a: int, b: int)
    ensures IntToString(a) == IntToString(b) <==> a == b
  {
    if IntToString(a) == IntToString(b) {
      SignOfIntToString(a);
      SignOfIntToString(b);
      if a < 0 {
        assert NatToString(-a) == IntToString(a)[1..] == IntToString(b)[1..] == NatToString(-b);
        NatToStringInjective(-a, -b);
      } else {
        NatToStringInjective(a, b);
      }
    }
  }

  /** Python's `str(v)`. Inside a list or dictionary strings are shown in
      single quotes, as `repr` shows plain strings. */
  function PyStr(v: Json): (r: string)
    ensures v.JNull? ==> r == "None"
    ensures v.JBool? ==> r == (if v.b then "True" else "False")
    ensures v.JStr? ==> r == v.s
    ensures v.JInt? ==> r == IntToString(v.i)
    ensures r == [] <==> v == JStr([])
    ensures v.JArr? ==> r[0] == '[' && r[|r| - 1] == ']'
    ensures v.JObj? ==> r[0] == '{' && r[|r| - 1] == '}'
    decreases v, 1, 0
  {
    match v
    case JNull => "None"
    case JBool(b) => if b then "True" else "False"
    case JInt(i) => IntToString(i)
    case JStr(s) => s
    case JArr(_) => "[" + ItemsRepr(v, 0) + "]"
    case JObj(_) => "{" + FieldsRepr(v, 0) + "}"
  }

  function ElementRepr(e: Json): string
    decreases e, 2, 0
  {
    if e.JStr? then "'" + e.s + "'" else PyStr(e)
  }

  function ItemsRepr(v: Json, k: nat): string
    requires v.JArr? && k <= |v.items|
    decreases v, 0, |v.items| - k
  {
    if k == |v.items| then ""
    else (if k == 0 then "" else ", ") + ElementRepr(v.items[k]) + ItemsRepr(v, k + 1)
  }

  function FieldsRepr(v: Json, k: nat): string
    requires v.JObj? && k <= |v.fields|
    decreases v, 0, |v.fields| - k
  {
    if k == |v.fields| then ""
    else
      assert v.fields[k].1 < v.fields[k];
      (if k == 0 then "" else ", ") + "'" + v.fields[k].0 + "': " + ElementRepr(v.fields[k].1) + FieldsRepr(v, k + 1)
  }
}
