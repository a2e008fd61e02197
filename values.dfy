/** Values that travel through the serving-contract layer: request bodies,
    prediction results and JSON response bodies. */
module Values {

  datatype Option<+T> = None | Some(value: T)

  /** A JSON-like value. Numbers are integers; floating point is not modelled. */
  datatype Value =
    | Null
    | Bool(b: bool)
    | Int(n: int)
    | Str(s: string)
    | List(items: seq<Value>)
    | Object(fields: map<string, Value>)

  /** Python's `bool(v)` on such a value. */
  function Truthy(v: Value): (r: bool)
    // false exactly for None, False, 0 and the empty string, list and dict
    ensures !r <==> v in {Null, Bool(false), Int(0), Str(""), List([]), Object(map[])}
  {
    match v
    case Null => false
    case Bool(b) => b
    case Int(n) => n != 0
    case Str(s) => s != ""
    case List(items) => items != []
    case Object(fields) => fields != map[]
  }

  // ASCII letters; every other character is uncased and has no case mapping.
  predicate IsUpper(c: char) { 'A' <= c <= 'Z' }
  predicate IsLower(c: char) { 'a' <= c <= 'z' }
  predicate IsCased(c: char) { IsUpper(c) || IsLower(c) }
  function Upper(c: char): char { if IsLower(c) then (c as int - 32) as char else c }
  function Lower(c: char): char { if IsUpper(c) then (c as int + 32) as char else c }

  function LowerName(s: string): (r: string)
    ensures |r| == |s| && forall i :: 0 <= i < |s| ==> r[i] == Lower(s[i])
  {
    seq(|s|, i requires 0 <= i < |s| => Lower(s[i]))
  }

  /** Lower-casing a name character by character gives `t`. */
  lemma LowerNameIs(s: string, t: string)
    requires |s| == |t| && forall i :: 0 <= i < |s| ==> Lower(s[i]) == t[i]
    ensures LowerName(s) == t
  {
  }

  /** Response headers, keyed by lower-cased name as the HTTP framework stores
      them: names compare without regard to case. */
  type Headers = map<string, string>

  /** Every name is stored in its lower-cased form. */
  ghost predicate Canonical(h: Headers) {
    forall k :: k in h ==> LowerName(k) == k
  }

  /** Case-insensitive lookup. */
  function Header(h: Headers, name: string): Option<string> {
    if LowerName(name) in h then Some(h[LowerName(name)]) else None
  }

  /** `headers[name] = value`: the one entry for the name, in any case, is replaced. */
  function SetHeader(h: Headers, name: string, value: string): (r: Headers)
    ensures Header(r, name) == Some(value)
    ensures r.Keys == h.Keys + {LowerName(name)}
    ensures forall k :: k in h && k != LowerName(name) ==> r[k] == h[k]
    ensures Canonical(h) ==> Canonical(r)
  {
    var key := LowerName(name);
    LowerNameIdempotent(name);
    h[key := value]
  }

  lemma LowerNameIdempotent(s: string)
    ensures LowerName(LowerName(s)) == LowerName(s)
  {
  }

  /** The stored forms of the header names the serving layer sets. */
  lemma HeaderNamesLowered()
    ensures LowerName("X-Trace-Id") == "x-trace-id"
    ensures LowerName("X-Model") == "x-model"
    ensures LowerName("X-Model-Version") == "x-model-version"
    ensures LowerName("x-trace-id") == "x-trace-id"
  {
    LowerNameIs("X-Trace-Id", "x-trace-id");
    LowerNameIs("X-Model", "x-model");
    LowerNameIs("X-Model-Version", "x-model-version");
    LowerNameIs("x-trace-id", "x-trace-id");
  }
}
