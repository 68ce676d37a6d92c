/**
 * JavaScript/JSON values as the pipeline sees them. Objects keep their keys in
 * insertion order, because the source compares values through JSON.stringify,
 * whose output depends on that order.
 */
module Json {
  import opened Basics
  import opened Text

  datatype Value =
    | Null
    | Bool(b: bool)
    | Num(n: int)
    | Str(s: string)
    | Arr(items: seq<Value>)
    | Obj(fields: seq<Field>)

  type Field = (string, Value)

  /** JavaScript truthiness. */
  predicate Truthy(v: Value)
  {
    match v
    case Null => false
    case Bool(b) => b
    case Num(n) => n != 0
    case Str(s) => s != []
    case _ => true
  }

  /** Truthiness of a value that may be `undefined` (None). */
  predicate TruthyOpt(o: Option<Value>)
  {
    o.Some? && Truthy(o.value)
  }

  function KeysOf<V>(fields: seq<(string, V)>): (r: seq<string>)
    ensures |r| == |fields|
    ensures forall i :: 0 <= i < |fields| ==> r[i] == fields[i].0
  {
    seq(|fields|, i requires 0 <= i < |fields| => fields[i].0)
  }

  predicate UniqueKeys<V>(fields: seq<(string, V)>)
  {
    forall i, j :: 0 <= i < j < |fields| ==> fields[i].0 != fields[j].0
  }

  /** Property lookup `obj[k]` on an object's fields (or on any ordered key/value list). */
  function Find<V>(fields: seq<(string, V)>, k: string): (r: Option<V>)
    ensures r.Some? <==> k in KeysOf(fields)
  {
    if fields == [] then None
    else if fields[0].0 == k then Some(fields[0].1)
    else (assert KeysOf(fields) == [fields[0].0] + KeysOf(fields[1..]); Find(fields[1..], k))
  }

  /** Looking up in a concatenation finds the first list's entry before the second's. */
  lemma {:induction false} FindAppend<V>(a: seq<(string, V)>, b: seq<(string, V)>, k: string)
    ensures Find(a + b, k) == if Find(a, k).Some? then Find(a, k) else Find(b, k)
  {
    if a == [] {
      assert a + b == b;
    } else {
      FindAppend(a[1..], b, k);
      assert (a + b)[1..] == a[1..] + b;
    }
  }

  /** Assignment `obj[k] = v`: an existing key keeps its position, a new key goes last. */
  function Put<V>(fields: seq<(string, V)>, k: string, v: V): (r: seq<(string, V)>)
    ensures Find(r, k) == Some(v)
  {
    if fields == [] then [(k, v)]
    else if fields[0].0 == k then [(k, v)] + fields[1..]
    else [fields[0]] + Put(fields[1..], k, v)
  }

  lemma {:induction false} PutOther<V>(fields: seq<(string, V)>, k: string, v: V, k': string)
    requires k' != k
    ensures Find(Put(fields, k, v), k') == Find(fields, k')
  {
    if fields != [] && fields[0].0 != k {
      PutOther(fields[1..], k, v, k');
    }
  }

  lemma {:induction false} PutKeys<V>(fields: seq<(string, V)>, k: string, v: V)
    ensures KeysOf(Put(fields, k, v)) == if k in KeysOf(fields) then KeysOf(fields) else KeysOf(fields) + [k]
  {
    if fields != [] {
      assert KeysOf(fields) == [fields[0].0] + KeysOf(fields[1..]);
      if fields[0].0 != k {
        PutKeys(fields[1..], k, v);
        assert KeysOf(Put(fields, k, v)) == [fields[0].0] + KeysOf(Put(fields[1..], k, v));
      } else {
        assert KeysOf(Put(fields, k, v)) == [k] + KeysOf(fields[1..]);
      }
    }
  }

  lemma {:induction false} PutUnique<V>(fields: seq<(string, V)>, k: string, v: V)
    requires UniqueKeys(fields)
    ensures UniqueKeys(Put(fields, k, v))
  {
    PutKeys(fields, k, v);
    var r := Put(fields, k, v);
    forall i, j | 0 <= i < j < |r|
      ensures r[i].0 != r[j].0
    {
      assert KeysOf(r)[i] == r[i].0 && KeysOf(r)[j] == r[j].0;
    }
  }

  /** Assigning a key the object does not have appends it. */
  lemma {:induction false} PutFresh<V>(fields: seq<(string, V)>, k: string, v: V)
    requires k !in KeysOf(fields)
    ensures Put(fields, k, v) == fields + [(k, v)]
  {
    if fields != [] {
      assert KeysOf(fields) == [fields[0].0] + KeysOf(fields[1..]);
      PutFresh(fields[1..], k, v);
      assert fields == [fields[0]] + fields[1..];
    }
  }

  /** Every entry after an assignment is the assigned one or was there before. */
  lemma {:induction false} PutEntries<V>(fields: seq<(string, V)>, k: string, v: V)
    ensures forall e :: e in Put(fields, k, v) ==> e == (k, v) || e in fields
  {
    if fields != [] && fields[0].0 != k {
      PutEntries(fields[1..], k, v);
    }
  }

  /** `delete obj[k]`. */
  function Remove<V>(fields: seq<(string, V)>, k: string): (r: seq<(string, V)>)
    ensures Find(r, k) == None
  {
    if fields == [] then []
    else if fields[0].0 == k then Remove(fields[1..], k)
    else [fields[0]] + Remove(fields[1..], k)
  }

  lemma {:induction false} RemoveOther<V>(fields: seq<(string, V)>, k: string, k': string)
    requires k' != k
    ensures Find(Remove(fields, k), k') == Find(fields, k')
  {
    if fields != [] {
      RemoveOther(fields[1..], k, k');
    }
  }

  /** Property access `v.k` on any value: only objects have the named properties this model reads. */
  function Member(v: Value, k: string): Option<Value>
  {
    if v.Obj? then Find(v.fields, k) else None
  }

  function MemberOpt(o: Option<Value>, k: string): Option<Value>
  {
    if o.Some? then Member(o.value, k) else None
  }

  /** `String(v)`, the conversion a template literal `${v}` applies. */
  function ToJsString(v: Value): string
    decreases v, 1
  {
    match v
    case Null => "null"
    case Bool(b) => if b then "true" else "false"
    case Num(n) => IntToString(n)
    case Str(s) => s
    case Arr(items) => Join(seq(|items|, i requires 0 <= i < |items| => JoinElement(items[i])), ",")
    case Obj(_) => "[object Object]"
  }

  /** `Array.prototype.join` writes null elements as the empty string. */
  function JoinElement(v: Value): string
    decreases v, 2
  {
    if v.Null? then "" else ToJsString(v)
  }

  /** `${x}` for a value that may be undefined. */
  function Template(o: Option<Value>): string
  {
    if o.None? then "undefined" else ToJsString(o.value)
  }

  function HexDigit(d: nat): char
    requires d < 16
  {
    "0123456789abcdef"[d]
  }

  /** How JSON.stringify writes one character inside a string literal. */
  function EscapeChar(c: char): string
  {
    if c == '"' then "\\\""
    else if c == '\\' then "\\\\"
    else if c == '\U{8}' then "\\b"
    else if c == '\U{C}' then "\\f"
    else if c == '\n' then "\\n"
    else if c == '\r' then "\\r"
    else if c == '\t' then "\\t"
    else if (c as int) < 0x20 then "\\u00" + [HexDigit(c as int / 16), HexDigit(c as int % 16)]
    else [c]
  }

  function Escape(s: string): string
  {
    if s == [] then [] else EscapeChar(s[0]) + Escape(s[1..])
  }

  function Quote(s: string): string
  {
    "\"" + Escape(s) + "\""
  }

  /** JSON.stringify(v) with no indentation. */
  function Stringify(v: Value): string
  {
    match v
    case Null => "null"
    case Bool(b) => if b then "true" else "false"
    case Num(n) => IntToString(n)
    case Str(s) => Quote(s)
    case Arr(items) =>
      "[" + Join(seq(|items|, i requires 0 <= i < |items| => Stringify(items[i])), ",") + "]"
    case Obj(fields) =>
      "{" + Join(seq(|fields|, i requires 0 <= i < |fields| => Quote(fields[i].0) + ":" + Stringify(fields[i].1)), ",") + "}"
  }

  /** JSON.stringify(v, null, 2) for a value nested at the given indentation. */
  function Pretty(v: Value, indent: string): string
  {
    match v
    case Arr(items) =>
      if items == [] then "[]"
      else
        var inner := indent + "  ";
        "[\n" + Join(seq(|items|, i requires 0 <= i < |items| => inner + Pretty(items[i], inner)), ",\n")
        + "\n" + indent + "]"
    case Obj(fields) =>
      if fields == [] then "{}"
      else
        var inner := indent + "  ";
        "{\n" + Join(seq(|fields|, i requires 0 <= i < |fields| =>
                        inner + Quote(fields[i].0) + ": " + Pretty(fields[i].1, inner)), ",\n")
        + "\n" + indent + "}"
    case _ => Stringify(v)
  }
}
