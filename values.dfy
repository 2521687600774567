/**
 * Python's dynamic values as the event handler sees them: event payloads,
 * form data and the decoded JSON bodies of the record-store service.  The
 * handler reads them with `dict.get`, tests them for truthiness and compares
 * them with `==`; this module fixes those three operations once, together
 * with the exceptions the handler's code can raise and the dict
 * comprehensions that index configuration rules by key.
 */
module Values {

  datatype Option<T> = None | Some(value: T)

  /** The kinds of exception the modelled code raises or lets escape. */
  datatype Error =
    | TypeError       // iterating, hashing or subscripting a value of the wrong kind
    | AttributeError  // `.get` on something that is not a dictionary
    | KeyError        // subscript with a key that is absent
    | ValueError      // no base id resolves for a record-store call
    | ServiceError    // an explicit `raise Exception(...)` after an error envelope
    | TransportError  // the HTTP call failed or its body is not JSON

  datatype Result<T> = Ok(value: T) | Err(error: Error)

  /** The end of a call that returns nothing: it returned, or it raised. */
  datatype Outcome = Done | Raised(error: Error)

  /** A JSON value; floats do not occur in the modelled payloads. */
  datatype Value =
    | Null
    | Bool(b: bool)
    | Int(i: int)
    | Str(s: string)
    | List(items: seq<Value>)
    | Dict(fields: map<string, Value>)

  /** Python truthiness: `None`, `False`, `0`, `""`, `[]` and `{}` are false. */
  predicate Truthy(v: Value) {
    match v
    case Null => false
    case Bool(b) => b
    case Int(i) => i != 0
    case Str(s) => s != ""
    case List(xs) => xs != []
    case Dict(m) => m != map[]
  }

  /** `m.get(k)`: an absent key reads as `None`. */
  function Get(m: map<string, Value>, k: string): Value {
    if k in m then m[k] else Null
  }

  /** `m.get(k, d)`: the default is used only when the key is absent. */
  function GetOr(m: map<string, Value>, k: string, d: Value): Value {
    if k in m then m[k] else d
  }

  /** An optional configuration string as a Python value. */
  function OptStr(o: Option<string>): Value {
    match o
    case None => Null
    case Some(s) => Str(s)
  }

  /** An optional configuration string that is truthy (set and non-empty). */
  predicate IsSet(o: Option<string>) {
    o.Some? && o.value != ""
  }

  /** `a or b` on two optional strings. */
  function Fallback(a: Option<string>, b: Option<string>): (r: Option<string>)
    ensures IsSet(a) ==> r == a
    ensures !IsSet(a) ==> r == b
  {
    if IsSet(a) then a else b
  }

  /** Python `v == 0`; `False == 0` holds in Python as well. */
  predicate IsZero(v: Value) {
    v == Int(0) || v == Bool(false)
  }

  /**
   * How a value behaves as a key of a dict whose keys are ints: an int or a
   * bool (`True == 1`) names an int key, other hashable values match no int
   * key, and a list or dict cannot be hashed at all.
   */
  function IntKey(v: Value): (r: Result<Option<int>>)
    ensures r.Err? <==> v.List? || v.Dict?
    ensures v.Int? ==> r == Ok(Some(v.i))
    ensures v.Bool? ==> r == Ok(Some(if v.b then 1 else 0))
  {
    match v
    case Int(i) => Ok(Some(i))
    case Bool(b) => Ok(Some(if b then 1 else 0))
    case List(_) => Err(TypeError)
    case Dict(_) => Err(TypeError)
    case _ => Ok(None)
  }

  /** The same for a dict whose keys are strings. */
  function StrKey(v: Value): (r: Result<Option<string>>)
    ensures r.Err? <==> v.List? || v.Dict?
    ensures r.Ok? && r.value.Some? <==> v.Str?
  {
    match v
    case Str(s) => Ok(Some(s))
    case List(_) => Err(TypeError)
    case Dict(_) => Err(TypeError)
    case _ => Ok(None)
  }

  /**
   * Iterating `v` in a loop whose body calls `.get` on each item: a list
   * gives its items; an empty string or dict gives nothing; the items of a
   * non-empty string or dict are strings, which have no `.get`; None, a bool
   * or an int cannot be iterated at all.
   */
  function ItemsForGet(v: Value): (r: Result<seq<Value>>)
    ensures v.List? ==> r == Ok(v.items)
    ensures v.Str? || v.Dict? ==> r == if Truthy(v) then Err(AttributeError) else Ok([])
    ensures v.Null? || v.Bool? || v.Int? ==> r == Err(TypeError)
  {
    match v
    case List(xs) => Ok(xs)
    case Str(s) => if s == "" then Ok([]) else Err(AttributeError)
    case Dict(m) => if m == map[] then Ok([]) else Err(AttributeError)
    case _ => Err(TypeError)
  }

  /** `str(v)` for the values whose text the modelled code builds keys from. */
  function PyStr(v: Value): string
    requires v.Str? || v.Int? || v.Bool?
  {
    match v
    case Str(s) => s
    case Int(i) => DecimalString(i)
    case Bool(b) => if b then "True" else "False"
  }

  function Digit(d: int): char
    requires 0 <= d < 10
  {
    "0123456789"[d]
  }

  function NaturalString(n: nat): (r: string)
    ensures r != []
    decreases n
  {
    if n < 10 then [Digit(n)] else NaturalString(n / 10) + [Digit(n % 10)]
  }

  /** `str(i)` for an int. */
  function DecimalString(i: int): (r: string)
    ensures r != []
    ensures (r[0] == '-') <==> i < 0
  {
    if i < 0 then "-" + NaturalString(-i)
    else
      var r := NaturalString(i);
      assert r[0] in "0123456789" by {
        NaturalStringDigits(i);
      }
      r
  }

  lemma {:induction false} NaturalStringDigits(n: nat)
    ensures forall k :: 0 <= k < |NaturalString(n)| ==> NaturalString(n)[k] in "0123456789"
    decreases n
  {
    if n >= 10 {
      NaturalStringDigits(n / 10);
    }
  }

  /**
   * The dict comprehension `{key(x): x for x in xs if keep(x)}`: entries are
   * inserted in list order, so a later entry with the same key replaces an
   * earlier one.
   */
  function IndexBy<K, T>(xs: seq<T>, key: T -> K, keep: T -> bool): map<K, T>
    decreases |xs|
  {
    if xs == [] then map[]
    else
      var x := xs[|xs| - 1];
      var m := IndexBy(xs[..|xs| - 1], key, keep);
      if keep(x) then m[key(x) := x] else m
  }

  /** Entry `i` of `xs` is kept under key `k` by the comprehension. */
  ghost predicate KeptAt<K, T>(xs: seq<T>, key: T -> K, keep: T -> bool, i: int, k: K) {
    0 <= i < |xs| && keep(xs[i]) && key(xs[i]) == k
  }

  /** A key is present exactly when some kept entry carries it. */
  lemma {:induction false} IndexByKeys<K, T>(xs: seq<T>, key: T -> K, keep: T -> bool, k: K)
    ensures k in IndexBy(xs, key, keep) <==> exists i :: KeptAt(xs, key, keep, i, k)
    decreases |xs|
  {
    if xs != [] {
      var n := |xs| - 1;
      var init := xs[..n];
      IndexByKeys(init, key, keep, k);
      if KeptAt(xs, key, keep, n, k) {
        assert k in IndexBy(xs, key, keep);
      } else {
        assert k in IndexBy(xs, key, keep) <==> k in IndexBy(init, key, keep);
        if k in IndexBy(init, key, keep) {
          var i :| KeptAt(init, key, keep, i, k);
          assert KeptAt(xs, key, keep, i, k);
        }
        if exists i :: KeptAt(xs, key, keep, i, k) {
          var i :| KeptAt(xs, key, keep, i, k);
          assert KeptAt(init, key, keep, i, k);
        }
      }
    }
  }

  /** A key maps to the last kept entry that carries it. */
  lemma {:induction false} IndexByLast<K, T>(xs: seq<T>, key: T -> K, keep: T -> bool, k: K, j: int)
    requires KeptAt(xs, key, keep, j, k)
    requires forall i :: j < i < |xs| ==> !KeptAt(xs, key, keep, i, k)
    ensures k in IndexBy(xs, key, keep) && IndexBy(xs, key, keep)[k] == xs[j]
    decreases |xs|
  {
    var n := |xs| - 1;
    if j < n {
      var init := xs[..n];
      assert !KeptAt(xs, key, keep, n, k);
      assert KeptAt(init, key, keep, j, k);
      forall i | j < i < |init|
        ensures !KeptAt(init, key, keep, i, k)
      {
        assert !KeptAt(xs, key, keep, i, k);
      }
      IndexByLast(init, key, keep, k, j);
    }
  }

  /**
   * A key is present exactly when some kept entry carries it, and it maps to
   * the last kept entry that carries it.
   */
  lemma IndexByLastWins<K, T>(xs: seq<T>, key: T -> K, keep: T -> bool, k: K)
    ensures k in IndexBy(xs, key, keep) <==> exists i :: KeptAt(xs, key, keep, i, k)
    ensures forall j :: KeptAt(xs, key, keep, j, k) && (forall i :: j < i < |xs| ==> !KeptAt(xs, key, keep, i, k))
                        ==> k in IndexBy(xs, key, keep) && IndexBy(xs, key, keep)[k] == xs[j]
  {
    IndexByKeys(xs, key, keep, k);
    forall j | KeptAt(xs, key, keep, j, k) && (forall i :: j < i < |xs| ==> !KeptAt(xs, key, keep, i, k))
      ensures k in IndexBy(xs, key, keep) && IndexBy(xs, key, keep)[k] == xs[j]
    {
      IndexByLast(xs, key, keep, k, j);
    }
  }

  /** Every value of the comprehension is a kept entry filed under its own key. */
  lemma {:induction false} IndexByValues<K, T>(xs: seq<T>, key: T -> K, keep: T -> bool)
    ensures forall k :: k in IndexBy(xs, key, keep) ==> keep(IndexBy(xs, key, keep)[k]) && key(IndexBy(xs, key, keep)[k]) == k
    decreases |xs|
  {
    if xs != [] {
      IndexByValues(xs[..|xs| - 1], key, keep);
    }
  }
}
