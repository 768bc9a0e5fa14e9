/** JavaScript values as they reach the service in JSON bodies, query strings
    and database rows, with the truthiness rules the TypeScript code relies on,
    and the string operations (`includes`, `toLowerCase`) it calls. */
module Js {

  /** A JSON-like JavaScript value. Numbers are integers; an object keeps its
      entries in insertion order, as `Object.entries` yields them. */
  datatype JsValue =
    | Undefined
    | Null
    | Bool(b: bool)
    | Num(n: int)
    | Str(s: string)
    | Arr(items: seq<JsValue>)
    | Obj(entries: seq<Entry>)

  datatype Entry = Entry(key: string, value: JsValue)

  /** A plain object used as a dictionary (a DTO, a query, a Prisma `data` map or row).
      A key that is absent reads as `undefined`. */
  type Dict = map<string, JsValue>

  /** JavaScript truthiness: `undefined`, `null`, `false`, `0` and `""` are falsy;
      every array and object, even an empty one, is truthy. */
  predicate Truthy(v: JsValue)
  {
    match v
    case Undefined => false
    case Null => false
    case Bool(b) => b
    case Num(n) => n != 0
    case Str(s) => s != ""
    case Arr(_) => true
    case Obj(_) => true
  }

  /** `a || b` */
  function Or(a: JsValue, b: JsValue): (r: JsValue)
    ensures Truthy(a) ==> r == a
    ensures !Truthy(a) ==> r == b
  {
    if Truthy(a) then a else b
  }

  /** Property access `d.key` on a dictionary. */
  function Get(d: Dict, key: string): JsValue
  {
    if key in d then d[key] else Undefined
  }

  /** The keys among `keys` whose value in `dto` is truthy, each mapped to that value:
      the object built by a run of spreads `...(dto.k && { k: dto.k })`. */
  function PickTruthy(dto: Dict, keys: seq<string>): (r: Dict)
    ensures forall k :: k in r <==> k in keys && Truthy(Get(dto, k))
    ensures forall k :: k in r ==> k in dto && r[k] == dto[k]
  {
    if keys == [] then map[]
    else
      var rest := PickTruthy(dto, keys[1..]);
      if Truthy(Get(dto, keys[0])) then rest[keys[0] := dto[keys[0]]] else rest
  }

  /** A partial-update map: the truthy fields among `keys`, plus `note` whenever
      `dto.note !== undefined` (so an empty or null note is still written). */
  function PatchData(dto: Dict, keys: seq<string>): (r: Dict)
    requires "note" !in keys
    ensures forall k :: k in r <==> (k in keys && Truthy(Get(dto, k))) || (k == "note" && Get(dto, "note") != Undefined)
    ensures forall k :: k in r ==> k in dto && r[k] == dto[k]
  {
    var picked := PickTruthy(dto, keys);
    if Get(dto, "note") != Undefined then picked["note" := dto["note"]] else picked
  }

  /** `s.startsWith(p)` */
  predicate StartsWith(s: string, p: string)
  {
    |p| <= |s| && s[..|p|] == p
  }

  /** `s.includes(sub)` */
  predicate Contains(s: string, sub: string)
    decreases |s|
  {
    StartsWith(s, sub) || (|s| > 0 && Contains(s[1..], sub))
  }

  /** An occurrence inside `b` is an occurrence inside `a + b`. */
  lemma {:induction false} ContainsAppend(a: string, b: string, sub: string)
    requires Contains(b, sub)
    ensures Contains(a + b, sub)
    decreases |a|
  {
    if |a| > 0 {
      ContainsAppend(a[1..], b, sub);
      assert (a + b)[1..] == a[1..] + b;
    } else {
      assert a + b == b;
    }
  }

  /** An occurrence inside `a` is an occurrence inside `a + b`. */
  lemma {:induction false} ContainsPrepend(a: string, b: string, sub: string)
    requires Contains(a, sub)
    ensures Contains(a + b, sub)
    decreases |a|
  {
    if StartsWith(a, sub) {
      assert (a + b)[..|sub|] == a[..|sub|];
    } else {
      ContainsPrepend(a[1..], b, sub);
      assert (a + b)[1..] == a[1..] + b;
    }
  }

  /** Whoever contains `a + b` contains `b`. */
  lemma {:induction false} ContainsSuffixOfNeedle(s: string, a: string, b: string)
    requires Contains(s, a + b)
    ensures Contains(s, b)
    decreases |s|
  {
    if StartsWith(s, a + b) {
      var tail := s[|a|..];
      assert tail[..|b|] == (a + b)[|a|..];
      assert StartsWith(tail, b);
      assert s[..|a|] + tail == s;
      ContainsAppend(s[..|a|], tail, b);
    } else {
      ContainsSuffixOfNeedle(s[1..], a, b);
    }
  }

  /** `s.includes(c)` for a one-character needle is membership of `c`. */
  lemma {:induction false} ContainsChar(s: string, c: char)
    ensures Contains(s, [c]) <==> c in s
    decreases |s|
  {
    if |s| > 0 {
      ContainsChar(s[1..], c);
      assert s == [s[0]] + s[1..];
    }
  }

  /** `toLowerCase` on one character (ASCII letters). */
  function LowerChar(c: char): char
  {
    if 'A' <= c <= 'Z' then (c as int + 32) as char else c
  }

  /** `s.toLowerCase()` (ASCII letters). */
  function ToLower(s: string): (r: string)
    ensures |r| == |s|
    ensures forall i :: 0 <= i < |s| ==> r[i] == LowerChar(s[i])
  {
    seq(|s|, i requires 0 <= i < |s| => LowerChar(s[i]))
  }
}
