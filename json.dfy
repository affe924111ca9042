/**
 * Decoded JSON values as both the Python server and the JavaScript client see
 * them.  Objects are association lists in insertion order, the order in which
 * Python dicts and JavaScript objects keep their keys.  Numbers are integers.
 * Parsing and serialising are not defined here: the modules that parse take
 * the parser as a parameter (a partial function from text to a value).
 */
module Json {
  import opened Wrappers
  import Strings

  datatype Value =
    | Null
    | Bool(b: bool)
    | Num(n: int)
    | Str(s: string)
    | Arr(items: seq<Value>)
    | Obj(fields: seq<(string, Value)>)

  /** An abstract partial parser (`json.loads`, `JSON.parse`): None when the text does not parse. */
  type Parser = string -> Option<Value>

  /** Index of the first binding of `key`, or -1. */
  function KeyIndex(fields: seq<(string, Value)>, key: string): (r: int)
    ensures -1 <= r < |fields|
    ensures r >= 0 ==> fields[r].0 == key
    ensures forall j :: 0 <= j < |fields| && (r < 0 || j < r) ==> fields[j].0 != key
  {
    if |fields| == 0 then -1
    else if fields[0].0 == key then 0
    else
      var k := KeyIndex(fields[1..], key);
      if k < 0 then -1 else k + 1
  }

  /** The value bound to `key` (the first binding). */
  function Lookup(fields: seq<(string, Value)>, key: string): Option<Value> {
    var k := KeyIndex(fields, key);
    if k < 0 then None else Some(fields[k].1)
  }

  /**
   * Property access `v.key` in JavaScript and `v.get(key)` in Python: None
   * stands for `undefined` (JavaScript) or the absent key; a value that is not
   * an object has no keys.
   */
  function Get(v: Value, key: string): Option<Value> {
    if v.Obj? then Lookup(v.fields, key) else None
  }

  /** Python's `d.get(key, default)`. */
  function GetOr(v: Value, key: string, default: Value): Value {
    Get(v, key).GetOr(default)
  }

  /** The keys of an object, in order. */
  function Keys(fields: seq<(string, Value)>): (r: seq<string>)
    ensures |r| == |fields|
    ensures forall i :: 0 <= i < |fields| ==> r[i] == fields[i].0
  {
    seq(|fields|, i requires 0 <= i < |fields| => fields[i].0)
  }

  /** Python's `d[key] = value`: the first binding of `key` is replaced in place, or a binding is appended. */
  function Put(fields: seq<(string, Value)>, key: string, val: Value): (r: seq<(string, Value)>)
    ensures Lookup(r, key) == Some(val)
    ensures forall k :: k != key ==> Lookup(r, k) == Lookup(fields, k)
    ensures Keys(r) == if KeyIndex(fields, key) >= 0 then Keys(fields) else Keys(fields) + [key]
  {
    var i := KeyIndex(fields, key);
    if i < 0 then
      var r := fields + [(key, val)];
      assert KeyIndex(r, key) == |fields| by { KeyIndexAppend(fields, key, val, key); }
      forall k | k != key ensures Lookup(r, k) == Lookup(fields, k) {
        KeyIndexAppend(fields, key, val, k);
      }
      r
    else
      var r := fields[i := (key, val)];
      assert KeyIndex(r, key) == i by { KeyIndexSame(fields, r, key); }
      forall k | k != key ensures Lookup(r, k) == Lookup(fields, k) {
        KeyIndexSame(fields, r, k);
      }
      r
  }

  /** Assigning a key the value it already has changes nothing. */
  lemma PutSame(fields: seq<(string, Value)>, key: string, val: Value)
    requires Lookup(fields, key) == Some(val)
    ensures Put(fields, key, val) == fields
  {
    var i := KeyIndex(fields, key);
    assert fields[i := (key, val)] == fields;
  }

  lemma {:induction false} KeyIndexAppend(fields: seq<(string, Value)>, key: string, val: Value, k: string)
    requires KeyIndex(fields, key) < 0
    ensures KeyIndex(fields + [(key, val)], k) ==
            if KeyIndex(fields, k) >= 0 then KeyIndex(fields, k) else if k == key then |fields| else -1
  {
    var r := fields + [(key, val)];
    if |fields| > 0 {
      assert r[1..] == fields[1..] + [(key, val)];
      if fields[0].0 != k {
        KeyIndexAppend(fields[1..], key, val, k);
      }
    }
  }

  lemma {:induction false} KeyIndexSame(a: seq<(string, Value)>, b: seq<(string, Value)>, k: string)
    requires |a| == |b|
    requires forall i :: 0 <= i < |a| ==> a[i].0 == b[i].0
    ensures KeyIndex(a, k) == KeyIndex(b, k)
  {
    if |a| > 0 && a[0].0 != k {
      KeyIndexSame(a[1..], b[1..], k);
    }
  }

  /** JavaScript truthiness of a property value (None is `undefined`). */
  predicate JsTruthy(o: Option<Value>) {
    match o
    case None => false
    case Some(v) =>
      match v
      case Null => false
      case Bool(b) => b
      case Num(n) => n != 0
      case Str(s) => s != ""
      case Arr(_) => true
      case Obj(_) => true
  }

  /** JavaScript's `a || b` where `b` is a value. */
  function JsOr(a: Option<Value>, b: Value): (r: Value)
    ensures JsTruthy(a) ==> Some(r) == a
    ensures !JsTruthy(a) ==> r == b
  {
    if JsTruthy(a) then a.value else b
  }

  /** Python truthiness: empty strings, lists and dicts are false, as are None, False and 0. */
  predicate PyTruthy(v: Value) {
    match v
    case Null => false
    case Bool(b) => b
    case Num(n) => n != 0
    case Str(s) => s != ""
    case Arr(xs) => xs != []
    case Obj(fs) => fs != []
  }

  /** JavaScript's `String(v)`. */
  function JsString(v: Value): string {
    match v
    case Null => "null"
    case Bool(b) => if b then "true" else "false"
    case Num(n) => Strings.IntToString(n)
    case Str(s) => s
    case Arr(xs) => ArrayString(xs)
    case Obj(_) => "[object Object]"
  }

  /** `Array.prototype.join(",")`, where null elements print as nothing. */
  function ArrayString(xs: seq<Value>): string {
    if xs == [] then ""
    else
      var head := if xs[0].Null? then "" else JsString(xs[0]);
      if |xs| == 1 then head else head + "," + ArrayString(xs[1..])
  }

  /** The text of a JavaScript value that is truthy is never empty, unless it is an array. */
  lemma TruthyTextNonEmpty(v: Value)
    requires JsTruthy(Some(v)) && !v.Arr?
    ensures JsString(v) != ""
  {
  }

  /**
   * Python's `str(v)` of a decoded value: `None`, `True`/`False`, digits,
   * the string itself; lists and dicts print as their `repr`, which is given.
   */
  function PyStr(v: Value, repr: Value -> string): (r: string)
    ensures v.Str? ==> r == v.s
    ensures v.Arr? || v.Obj? ==> r == repr(v)
  {
    match v
    case Null => "None"
    case Bool(b) => if b then "True" else "False"
    case Num(n) => Strings.IntToString(n)
    case Str(s) => s
    case Arr(_) => repr(v)
    case Obj(_) => repr(v)
  }

  /**
   * The fallback both `_extract_json` and `save_summary_result` use: the
   * text from the first `{` to the last `}` is parsed, when both occur in
   * that order; None otherwise.
   */
  function ParseBraced(parse: Parser, t: string): (r: Option<Value>)
    ensures r.Some? ==> '{' in t && '}' in t
    ensures r.Some? ==> Strings.Find(t, '{') < Strings.RFind(t, '}')
  {
    var start := Strings.Find(t, '{');
    var end := Strings.RFind(t, '}') + 1;
    if start >= 0 && end > start then parse(t[start..end]) else None
  }

  /** An object embedded in prose with no `{` before it and no `}` after it is what the fallback parses. */
  lemma ParseBracedEmbedded(parse: Parser, pre: string, body: string, post: string)
    requires |body| >= 2 && body[0] == '{' && body[|body| - 1] == '}'
    requires '{' !in pre && '}' !in post
    ensures ParseBraced(parse, pre + body + post) == parse(body)
  {
    var text := pre + body + post;
    assert text[|pre|] == '{';
    assert text[..|pre|] == pre;
    assert Strings.Find(text, '{') == |pre|;
    assert text[|pre| + |body| - 1] == '}';
    assert text[|pre| + |body|..] == post;
    assert Strings.RFind(text, '}') == |pre| + |body| - 1;
    assert text[|pre|..|pre| + |body|] == body;
  }

  /** A one-key object `{key: val}`. */
  function Single(key: string, val: Value): Value {
    Obj([(key, val)])
  }
}
