/**
 * JavaScript values as the library sees them, the own-property table of a
 * plain object, and the exceptions the library throws.
 *
 * Numbers are abstract: an integer, or any other number (a fraction, NaN,
 * +/-Infinity) carried together with the text JavaScript prints for it.
 * Functions are not values of this model.
 */
module JsValues {

  datatype Option<+T> = None | Some(value: T)

  /** A thrown exception: the error class and its message. */
  datatype Exception =
    | TypeError(message: string)
    | ValueError(message: string)
    | KeyError(message: string)
    | Error(message: string)

  datatype Result<+T> = Success(value: T) | Failure(error: Exception)

  datatype Number = Integer(i: int) | NonInteger(text: string)

  datatype Value =
    | Undefined
    | Null
    | Bool(b: bool)
    | Num(n: Number)
    | Str(s: string)
    | Arr(items: seq<Value>)
    | Obj(own: Entries)

  /**
   * The own enumerable properties of an object: the key names in
   * enumeration order and the value of each.
   */
  datatype Entries = Entries(keys: seq<string>, vals: map<string, Value>)
  {
    /** Every key is listed exactly once, and exactly the listed keys have a value. */
    ghost predicate Valid() {
      Distinct(keys) && forall k :: k in vals <==> k in keys
    }
  }

  const NoEntries := Entries([], map[])

  ghost predicate Distinct(s: seq<string>) {
    forall i, j :: 0 <= i < j < |s| ==> s[i] != s[j]
  }

  /** The own value of key k, if k is an own key. */
  function Lookup(e: Entries, k: string): Option<Value> {
    if k in e.vals then Some(e.vals[k]) else None
  }

  /**
   * `o[k] = v` on a plain object: an existing key keeps its place in the
   * enumeration order, a new key is appended.
   */
  function Set(e: Entries, k: string, v: Value): Entries {
    Entries(if k in e.keys then e.keys else e.keys + [k], e.vals[k := v])
  }

  /**
   * After `o[k] = v` the table is still well formed, k has value v, every
   * other key keeps its value, and only a new key changes the enumeration
   * order, by going last.
   */
  lemma SetSpec(e: Entries, k: string, v: Value)
    ensures e.Valid() ==> Set(e, k, v).Valid()
    ensures Lookup(Set(e, k, v), k) == Some(v)
    ensures forall j :: j != k ==> Lookup(Set(e, k, v), j) == Lookup(e, j)
    ensures k in e.keys ==> Set(e, k, v).keys == e.keys
    ensures k !in e.keys ==> Set(e, k, v).keys == e.keys + [k]
  {
    if e.Valid() && k !in e.keys {
      var s := e.keys + [k];
      forall i, j | 0 <= i < j < |s| ensures s[i] != s[j] {
        if j == |e.keys| {
          assert s[i] == e.keys[i];
        }
      }
    }
  }

  /** The sequence s with every occurrence of k taken out. */
  function RemoveKey(s: seq<string>, k: string): (r: seq<string>)
    ensures forall x :: x in r <==> x in s && x != k
    ensures Distinct(s) ==> Distinct(r)
    ensures k !in s ==> r == s
    ensures Distinct(s) && k in s ==> |r| == |s| - 1
  {
    if s == [] then []
    else if s[0] == k then RemoveKey(s[1..], k)
    else
      var rest := RemoveKey(s[1..], k);
      assert Distinct(s) ==> Distinct(s[1..]) && s[0] !in rest by {
        if Distinct(s) {
          forall i, j | 0 <= i < j < |s[1..]| ensures s[1..][i] != s[1..][j] {
            assert s[1..][i] == s[i + 1] && s[1..][j] == s[j + 1];
          }
        }
      }
      [s[0]] + rest
  }

  /** Taking out the first key of a duplicate-free sequence leaves the rest. */
  lemma RemoveHead(s: seq<string>)
    requires Distinct(s) && |s| > 0
    ensures RemoveKey(s, s[0]) == s[1..]
  {
    assert s[0] !in s[1..] by {
      forall i | 0 <= i < |s| - 1 ensures s[1..][i] != s[0] {
        assert s[1..][i] == s[i + 1];
      }
    }
  }

  /**
   * Taking out a key that sits at position p of a duplicate-free sequence
   * keeps every other key, in its order.
   */
  lemma {:induction false} RemoveKeyAt(s: seq<string>, k: string, p: nat)
    requires Distinct(s) && p < |s| && s[p] == k
    ensures RemoveKey(s, k) == s[..p] + s[p + 1..]
    decreases p
  {
    if p == 0 {
      RemoveHead(s);
    } else {
      var t := s[1..];
      forall i, j | 0 <= i < j < |t| ensures t[i] != t[j] {
        assert t[i] == s[i + 1] && t[j] == s[j + 1];
      }
      assert t[p - 1] == k;
      RemoveKeyAt(t, k, p - 1);
      assert s[0] != k;
      assert s[..p] + s[p + 1..] == [s[0]] + (t[..p - 1] + t[p..]);
    }
  }

  /** `delete o[k]` on a plain object. */
  function Remove(e: Entries, k: string): Entries {
    Entries(RemoveKey(e.keys, k), e.vals - {k})
  }

  /**
   * After `delete o[k]` the table is still well formed, k has no value,
   * every other key keeps its value, and an own key k leaves the order.
   */
  lemma RemoveSpec(e: Entries, k: string)
    ensures e.Valid() ==> Remove(e, k).Valid()
    ensures Lookup(Remove(e, k), k) == None
    ensures forall j :: j != k ==> Lookup(Remove(e, k), j) == Lookup(e, j)
    ensures e.Valid() && k in e.keys ==> |Remove(e, k).keys| == |e.keys| - 1
  {
  }

  /** The first n own entries of e, as an object that received only those. */
  function Prefix(e: Entries, n: nat): (r: Entries)
    requires e.Valid() && n <= |e.keys|
    ensures r.Valid()
  {
    Entries(e.keys[..n], map k | k in e.keys[..n] :: e.vals[k])
  }

  /** Writing the entries of e one by one, in order, builds e's prefixes. */
  lemma PrefixStep(e: Entries, n: nat)
    requires e.Valid() && n < |e.keys|
    ensures Set(Prefix(e, n), e.keys[n], e.vals[e.keys[n]]) == Prefix(e, n + 1)
  {
    var p, k := Prefix(e, n), e.keys[n];
    assert e.keys[..n + 1] == e.keys[..n] + [k];
    assert k !in e.keys[..n] by {
      forall i | 0 <= i < n ensures e.keys[..n][i] != k { }
    }
    var q := Set(p, k, e.vals[k]);
    assert q.keys == e.keys[..n + 1];
    assert q.vals == Prefix(e, n + 1).vals;
  }

  lemma PrefixAll(e: Entries)
    requires e.Valid()
    ensures Prefix(e, |e.keys|) == e
  {
    assert e.keys[..|e.keys|] == e.keys;
    assert Prefix(e, |e.keys|).vals == e.vals;
  }

  /** Decimal text of a natural number. */
  function NatToString(n: nat): (r: string)
  {
    if n < 10 then ["0123456789"[n]]
    else NatToString(n / 10) + ["0123456789"[n % 10]]
  }

  function IntToString(i: int): string {
    if i < 0 then "-" + NatToString(-i) else NatToString(i)
  }

  /**
   * JavaScript's ToString of a value used as a property key (`o[key]`).
   * An array prints as its elements joined by commas, undefined and null
   * elements printing as empty text. A plain object prints as
   * "[object Object]" unless it has an own "toString" entry: as functions are
   * not values here, that entry is not callable and conversion fails.
   */
  function PropertyKey(v: Value): (r: Result<string>)
    ensures v.Str? ==> r == Success(v.s)
    ensures r.Failure? ==> v.Arr? || v.Obj?
  {
    match v
    case Undefined => Success("undefined")
    case Null => Success("null")
    case Bool(b) => Success(if b then "true" else "false")
    case Num(Integer(i)) => Success(IntToString(i))
    case Num(NonInteger(t)) => Success(t)
    case Str(s) => Success(s)
    case Arr(items) =>
      JoinParts(seq(|items|, i requires 0 <= i < |items| =>
        if items[i].Undefined? || items[i].Null? then Success("") else PropertyKey(items[i])))
    case Obj(e) =>
      if "toString" in e.vals then Failure(TypeError("Cannot convert object to primitive value"))
      else Success("[object Object]")
  }

  /** Array.prototype.join(","): the first failing part is the one thrown. */
  function JoinParts(parts: seq<Result<string>>): Result<string> {
    if parts == [] then Success("")
    else if |parts| == 1 then parts[0]
    else if parts[0].Failure? then parts[0]
    else
      match JoinParts(parts[1..])
      case Failure(x) => Failure(x)
      case Success(rest) => Success(parts[0].value + "," + rest)
  }

  /**
   * A plain object updated in place: its own enumerable properties in
   * enumeration order (insertion order in this model).
   */
  class JsObject {
    var keys: seq<string>
    var vals: map<string, Value>

    ghost predicate Valid()
      reads this
    {
      View().Valid()
    }

    function View(): Entries
      reads this
    {
      Entries(keys, vals)
    }

    constructor ()
      ensures Valid() && View() == NoEntries
    {
      keys, vals := [], map[];
    }

    /** `this[k] = v` */
    method Put(k: string, v: Value)
      requires Valid()
      modifies this
      ensures Valid() && View() == Set(old(View()), k, v)
    {
      SetSpec(View(), k, v);
      if k !in keys {
        keys := keys + [k];
      }
      vals := vals[k := v];
    }

    /** `delete this[k]` */
    method Delete(k: string)
      requires Valid()
      modifies this
      ensures Valid() && View() == Remove(old(View()), k)
    {
      RemoveSpec(View(), k);
      keys := RemoveKey(keys, k);
      vals := vals - {k};
    }
  }
}
