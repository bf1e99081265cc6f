/**
 * The JavaScript values that flow through the connector: request bodies,
 * query dictionaries, node parameters, server responses and webhook payloads.
 *
 * `Undefined` is a value of its own, because JavaScript objects can hold it
 * (every `simplify*` projection writes `undefined` into keys whose source
 * field is missing) and because several rules test `!== undefined` rather
 * than truthiness. A missing key reads as `Undefined`.
 */
module Json {

  datatype Option<+T> = None | Some(value: T)

  /** A value or the message of the error that was thrown instead. */
  datatype Result<+T> = Ok(value: T) | Err(message: string)

  datatype Value =
    | Undefined
    | Null
    | Bool(b: bool)
    | Num(n: int)
    | Str(s: string)
    | Arr(items: seq<Value>)
    | Obj(fields: map<string, Value>)

  type Dict = map<string, Value>

  /** JavaScript truthiness: `undefined`, `null`, `false`, `0` and `""` are falsy;
      every array and object, even an empty one, is truthy. */
  predicate Truthy(v: Value)
  {
    match v
    case Undefined => false
    case Null => false
    case Bool(b) => b
    case Num(n) => n != 0
    case Str(s) => s != ""
    case Arr(_) => true
    case Obj(_) => true
  }

  /** JavaScript `a || b`. */
  function Or(a: Value, b: Value): (r: Value)
    ensures Truthy(a) ==> r == a
    ensures !Truthy(a) ==> r == b
  {
    if Truthy(a) then a else b
  }

  /** `m[k]` on a dictionary: a missing key reads as `undefined`. */
  function Get(m: Dict, k: string): (r: Value)
    ensures k !in m ==> r == Undefined
    ensures k in m ==> r == m[k]
  {
    if k in m then m[k] else Undefined
  }

  /** `v.k` on any value: only objects have the fields the connector reads. */
  function Prop(v: Value, k: string): (r: Value)
    ensures v.Obj? ==> r == Get(v.fields, k)
    ensures !v.Obj? ==> r == Undefined
  {
    if v.Obj? then Get(v.fields, k) else Undefined
  }

  /** A dictionary viewed as the object value that holds it. */
  function AsDict(v: Value): (m: Dict)
    ensures v.Obj? ==> m == v.fields
    ensures !v.Obj? ==> m == map[]
  {
    if v.Obj? then v.fields else map[]
  }

  /** The first truthy `m[k]` for `k` in `keys`, in order, else `last`:
      the chain `m[k0] || m[k1] || ... || last`. */
  function FirstTruthy(m: Dict, keys: seq<string>, last: Value): (r: Value)
  {
    if keys == [] then last else Or(Get(m, keys[0]), FirstTruthy(m, keys[1..], last))
  }

  /** The key chosen by `FirstTruthy` is the first truthy one, and every earlier
      key is falsy; when no key is truthy the result is `last`. */
  lemma {:induction false} FirstTruthyPicksFirst(m: Dict, keys: seq<string>, last: Value)
    ensures (forall i :: 0 <= i < |keys| ==> !Truthy(Get(m, keys[i]))) ==> FirstTruthy(m, keys, last) == last
    ensures forall i :: 0 <= i < |keys| && Truthy(Get(m, keys[i])) && (forall j :: 0 <= j < i ==> !Truthy(Get(m, keys[j])))
              ==> FirstTruthy(m, keys, last) == Get(m, keys[i])
  {
    if keys != [] {
      FirstTruthyPicksFirst(m, keys[1..], last);
      forall i | 0 <= i < |keys| && Truthy(Get(m, keys[i])) && (forall j :: 0 <= j < i ==> !Truthy(Get(m, keys[j])))
        ensures FirstTruthy(m, keys, last) == Get(m, keys[i])
      {
        if i > 0 {
          assert !Truthy(Get(m, keys[0]));
          assert keys[1..][i - 1] == keys[i];
          forall j | 0 <= j < i - 1 ensures !Truthy(Get(m, keys[1..][j])) {
            assert keys[1..][j] == keys[j + 1];
          }
        }
      }
      if forall i :: 0 <= i < |keys| ==> !Truthy(Get(m, keys[i])) {
        assert !Truthy(Get(m, keys[0]));
        forall j | 0 <= j < |keys| - 1 ensures !Truthy(Get(m, keys[1..][j])) {
          assert keys[1..][j] == keys[j + 1];
        }
      }
    }
  }

  /** The result of a `||` chain ending in a truthy value is always truthy. */
  lemma {:induction false} FirstTruthyIsTruthy(m: Dict, keys: seq<string>, last: Value)
    requires Truthy(last)
    ensures Truthy(FirstTruthy(m, keys, last))
  {
    if keys != [] {
      FirstTruthyIsTruthy(m, keys[1..], last);
    }
  }

  /** `m.a || last` and `m.a || m.b || last`, spelled out. */
  lemma FirstTruthyOfTwo(m: Dict, a: string, b: string, last: Value)
    ensures FirstTruthy(m, [a], last) == Or(Get(m, a), last)
    ensures FirstTruthy(m, [a, b], last) == Or(Get(m, a), Or(Get(m, b), last))
  {
    assert [a][1..] == [] && [b][1..] == [];
    assert [a, b][1..] == [b];
  }

  /** `m.a || m.b || m.c || last`, spelled out. */
  lemma FirstTruthyOfThree(m: Dict, a: string, b: string, c: string, last: Value)
    ensures FirstTruthy(m, [a, b, c], last) == Or(Get(m, a), Or(Get(m, b), Or(Get(m, c), last)))
  {
    assert [a, b, c][1..] == [b, c];
    FirstTruthyOfTwo(m, b, c, last);
  }

  /** `[...v]` or `for (const x of v)`: arrays yield their elements, strings
      their characters; any other value is not iterable and throws. */
  function Spread(v: Value): (r: Result<seq<Value>>)
    ensures v.Arr? ==> r == Ok(v.items)
    ensures v.Str? ==> r.Ok? && |r.value| == |v.s|
                       && forall i :: 0 <= i < |v.s| ==> r.value[i] == Str([v.s[i]])
    ensures !v.Arr? && !v.Str? ==> r.Err?
  {
    match v
    case Arr(xs) => Ok(xs)
    case Str(s) => Ok(seq(|s|, i requires 0 <= i < |s| => Str([s[i]])))
    case _ => Err("object is not iterable")
  }

  /** `v.map(f)`: only arrays have a `map` method. */
  function MapItems(v: Value, f: Value -> Value): (r: Result<seq<Value>>)
    ensures v.Arr? ==> r.Ok? && |r.value| == |v.items|
                       && forall i :: 0 <= i < |v.items| ==> r.value[i] == f(v.items[i])
    ensures !v.Arr? ==> r.Err?
  {
    if v.Arr? then Ok(seq(|v.items|, i requires 0 <= i < |v.items| => f(v.items[i])))
    else Err("map is not a function")
  }

  function DigitChar(d: int): char
    requires 0 <= d < 10
  {
    "0123456789"[d]
  }

  /** Decimal digits of a natural number, as `String(n)` writes them. */
  function NatText(n: nat): (r: string)
    ensures |r| > 0
    ensures forall i :: 0 <= i < |r| ==> '0' <= r[i] <= '9'
  {
    if n < 10 then [DigitChar(n)] else NatText(n / 10) + [DigitChar(n % 10)]
  }

  function IntText(n: int): (r: string)
    ensures n >= 0 ==> r == NatText(n)
    ensures n < 0 ==> r == "-" + NatText(-n)
  {
    if n < 0 then "-" + NatText(-n) else NatText(n)
  }

  function Join(parts: seq<string>, sep: string): string
  {
    if parts == [] then ""
    else if |parts| == 1 then parts[0]
    else parts[0] + sep + Join(parts[1..], sep)
  }

  /** What a template literal `${v}` writes for `v` (JavaScript `String(v)`).
      Arrays are joined with commas, writing `undefined` and `null` elements as
      empty; every object writes as `[object Object]`. */
  function ToText(v: Value): (r: string)
    ensures v.Str? ==> r == v.s
    decreases v
  {
    match v
    case Undefined => "undefined"
    case Null => "null"
    case Bool(b) => if b then "true" else "false"
    case Num(n) => IntText(n)
    case Str(s) => s
    case Arr(xs) =>
      Join(seq(|xs|, i requires 0 <= i < |xs| =>
                 if xs[i].Undefined? || xs[i].Null? then "" else ToText(xs[i])), ",")
    case Obj(_) => "[object Object]"
  }

  /** A dictionary holds key `k`, with value `v`, exactly when `cond` holds:
      the effect of `if (cond) { q[k] = v; }` on a dictionary without `k`. */
  ghost predicate IncludedIff(q: Dict, k: string, cond: bool, v: Value)
  {
    (k in q <==> cond) && (k in q ==> q[k] == v)
  }

  /** `if (src[from]) { q[to] = src[from]; }`: a truthy field, copied under a
      possibly different name. */
  ghost predicate CopiedIfTruthy(q: Dict, to: string, src: Dict, from: string)
  {
    IncludedIff(q, to, Truthy(Get(src, from)), Get(src, from))
  }

  /** `if (src[from] !== undefined) { q[to] = src[from]; }`: a defined field,
      copied even when it is `false` or `0`. */
  ghost predicate CopiedIfDefined(q: Dict, to: string, src: Dict, from: string)
  {
    IncludedIff(q, to, Get(src, from) != Undefined, Get(src, from))
  }

  /** One conditional assignment `if (cond) { q[k] = v; }`. */
  function PutIf(q: Dict, cond: bool, k: string, v: Value): (r: Dict)
    ensures cond ==> r == q[k := v]
    ensures !cond ==> r == q
  {
    if cond then q[k := v] else q
  }
}
