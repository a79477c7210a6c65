/**
 * utils.js: classification of values (isLength, isArrayLike, isIterable,
 * getType), the snapshot iterator (iterate) and the property-copying merge
 * (assign).
 */
module Utils {
  import opened JsValues

  /** Number.MAX_SAFE_INTEGER, 2^53 - 1: the largest valid length. */
  const MaxSafeInteger: int := 9007199254740991

  // ---------------------------------------------------------------------
  // Classification
  // ---------------------------------------------------------------------

  /**
   * isLength: a number that is an integer (`value % 1 == 0`) greater than -1
   * and at most MaxSafeInteger. Fractions, NaN and the infinities are
   * NonInteger numbers and fail.
   */
  predicate IsLength(v: Value) {
    v.Num? && v.n.Integer? && v.n.i > -1 && v.n.i <= MaxSafeInteger
  }

  /**
   * `value.length` for a value that is neither undefined nor null: the
   * element count of a string or array, the own "length" entry of a plain
   * object, and undefined for booleans and numbers.
   */
  function LengthProperty(v: Value): Value {
    match v
    case Str(s) => Num(Integer(|s|))
    case Arr(items) => Num(Integer(|items|))
    case Obj(e) => if "length" in e.vals then e.vals["length"] else Undefined
    case _ => Undefined
  }

  /** isArrayLike: not undefined, not null, and its length passes isLength. */
  predicate IsArrayLike(v: Value) {
    !v.Undefined? && !v.Null? && IsLength(LengthProperty(v))
  }

  /** getType: the Object.prototype.toString tag of the value. */
  function GetType(v: Value): string {
    match v
    case Undefined => "[object Undefined]"
    case Null => "[object Null]"
    case Bool(_) => "[object Boolean]"
    case Num(_) => "[object Number]"
    case Str(_) => "[object String]"
    case Arr(_) => "[object Array]"
    case Obj(_) => "[object Object]"
  }

  /**
   * isIterable: a non-null object (typeof "object"), or an array-like
   * value. Functions, the other kind the code accepts, are not values here.
   */
  predicate IsIterable(v: Value) {
    var isValueAnObject := v.Arr? || v.Obj?;
    isValueAnObject || IsArrayLike(v)
  }

  /** The TypeError that iterate, update and dict throw for a non-iterable value. */
  function NotIterable(v: Value): Exception {
    TypeError(GetType(v) + " is not iterable")
  }

  lemma IsIterableCases(v: Value)
    ensures IsIterable(v) <==> v.Arr? || v.Obj? || (v.Str? && |v.s| <= MaxSafeInteger)
    ensures IsArrayLike(v) ==> IsIterable(v)
    ensures v.Undefined? || v.Null? || v.Bool? || v.Num? ==> !IsIterable(v) && !IsArrayLike(v)
  {
  }

  /** The length of an array-like value. */
  function ArrayLength(v: Value): nat
    requires IsArrayLike(v)
  {
    LengthProperty(v).n.i
  }

  /**
   * `Array.prototype.slice.call(v, 0)` of an array-like value: the characters
   * of a string as one-character strings, the items of an array, and for an
   * array-like object the entries "0" ... "length-1", where a missing entry
   * reads as undefined.
   */
  function Elements(v: Value): (r: seq<Value>)
    requires IsArrayLike(v)
    ensures |r| == ArrayLength(v)
  {
    if v.Str? then seq(|v.s|, i requires 0 <= i < |v.s| => Str([v.s[i]]))
    else if v.Arr? then v.items
    else
      var n, e := ArrayLength(v), v.own;
      seq(n, i requires 0 <= i < n => if IntToString(i) in e.vals then e.vals[IntToString(i)] else Undefined)
  }

  /**
   * `Object.keys(Object(v))` paired with the value of each key: the index
   * entries of a string or array, the own entries of a plain object, and
   * nothing for the other values.
   */
  function OwnEntries(v: Value): seq<(string, Value)> {
    match v
    case Str(s) => seq(|s|, i requires 0 <= i < |s| => (IntToString(i), Str([s[i]])))
    case Arr(items) => seq(|items|, i requires 0 <= i < |items| => (IntToString(i), items[i]))
    case Obj(e) =>
      seq(|e.keys|, i requires 0 <= i < |e.keys| =>
        (e.keys[i], if e.keys[i] in e.vals then e.vals[e.keys[i]] else Undefined))
    case _ => []
  }

  /** The key names of some entries, as string values. */
  function KeyNames(ps: seq<(string, Value)>): (r: seq<Value>)
    ensures |r| == |ps| && forall i :: 0 <= i < |ps| ==> r[i] == Str(ps[i].0)
  {
    seq(|ps|, i requires 0 <= i < |ps| => Str(ps[i].0))
  }

  /**
   * What an iterator over v walks: a positional copy of an array-like value,
   * otherwise the value's own key names.
   */
  function Snapshot(v: Value): seq<Value> {
    if IsArrayLike(v) then Elements(v) else KeyNames(OwnEntries(v))
  }

  /**
   * The iterator's length is fixed by its snapshot: the element count of an
   * array-like value, the number of own keys of any other iterable value.
   */
  lemma SnapshotLength(v: Value)
    requires IsIterable(v)
    ensures IsArrayLike(v) ==> |Snapshot(v)| == ArrayLength(v)
    ensures v.Obj? && !IsArrayLike(v) ==> Snapshot(v) == KeyNames(OwnEntries(v))
    ensures v.Obj? && !IsArrayLike(v) ==> |Snapshot(v)| == |v.own.keys|
  {
  }

  // ---------------------------------------------------------------------
  // The iterator
  // ---------------------------------------------------------------------

  datatype IterResult = IterResult(value: Value, done: bool, index: nat)

  /** The result of the k-th call of `next()` (counting from 0) over a snapshot. */
  function NextResult(items: seq<Value>, k: nat): IterResult {
    IterResult(if k < |items| then items[k] else Undefined, k >= |items|, k)
  }

  /** Once `next()` has reported done, every later call reports done with an undefined value. */
  lemma DoneStaysDone(items: seq<Value>, k: nat, j: nat)
    requires k <= j && NextResult(items, k).done
    ensures NextResult(items, j).done && NextResult(items, j).value == Undefined
  {
  }

  /**
   * The object iterate returns: a cursor over a snapshot taken at creation,
   * with a read-only length.
   */
  class Iterator {
    const items: seq<Value>
    const length: nat
    var index: nat

    /** The length property was set from the snapshot and can never change. */
    ghost predicate Valid() {
      length == |items|
    }

    constructor (items: seq<Value>)
      ensures Valid() && this.items == items && index == 0
    {
      this.items := items;
      this.length := |items|;
      this.index := 0;
    }

    /**
     * next(): reports the element at the current position (undefined once
     * past the end), whether the position is past the end, and the position;
     * then advances the position by one, also after the end.
     */
    method Next() returns (r: IterResult)
      modifies this
      ensures index == old(index) + 1
      ensures r == NextResult(items, old(index))
      ensures r.index == old(index) && r.done == (old(index) >= |items|)
      ensures !r.done ==> r.value == items[old(index)]
      ensures r.done ==> r.value == Undefined
    {
      var done := index >= |items|;
      r := IterResult(if done then Undefined else items[index], done, index);
      index := index + 1;
    }
  }

  /**
   * iterate(v): throws the "is not iterable" TypeError exactly when v is not
   * iterable; otherwise a fresh iterator at position 0 over v's snapshot.
   */
  method Iterate(v: Value) returns (r: Result<Iterator>)
    ensures r.Failure? <==> !IsIterable(v)
    ensures r.Failure? ==> r.error == NotIterable(v)
    ensures r.Success? ==> fresh(r.value) && r.value.Valid()
    ensures r.Success? ==> r.value.items == Snapshot(v) && r.value.index == 0
  {
    if !IsIterable(v) {
      return Failure(NotIterable(v));
    }
    var it := new Iterator(Snapshot(v));
    return Success(it);
  }

  // ---------------------------------------------------------------------
  // assign
  // ---------------------------------------------------------------------

  /** Writes the entries ps into e one after the other. */
  function SetAll(e: Entries, ps: seq<(string, Value)>): Entries
    decreases |ps|
  {
    if ps == [] then e
    else Set(SetAll(e, ps[..|ps| - 1]), ps[|ps| - 1].0, ps[|ps| - 1].1)
  }

  /** The value the last entry named k in ps carries, if any. */
  function LastValue(ps: seq<(string, Value)>, k: string): Option<Value>
    decreases |ps|
  {
    if ps == [] then None
    else if ps[|ps| - 1].0 == k then Some(ps[|ps| - 1].1)
    else LastValue(ps[..|ps| - 1], k)
  }

  /** `source[k]` for an own key k of source, as assign reads it. */
  function OwnGet(source: Value, k: string): Option<Value> {
    LastValue(OwnEntries(source), k)
  }

  /** The own entries of target after `assign(target, sources...)`. */
  function AssignEntries(e: Entries, sources: seq<Value>): Entries
    decreases |sources|
  {
    if sources == [] then e
    else
      var before := AssignEntries(e, sources[..|sources| - 1]);
      var next := sources[|sources| - 1];
      if next.Undefined? || next.Null? then before else SetAll(before, OwnEntries(next))
  }

  /**
   * assign(target, ...sources): a TypeError for an undefined or null target
   * (null here); otherwise the target itself, into which the own entries of
   * every source that is not undefined or null were written in order.
   */
  method Assign(target: JsObject?, sources: seq<Value>) returns (r: Result<JsObject>)
    requires target != null ==> target.Valid()
    modifies target
    ensures target == null ==> r == Failure(TypeError("Cannot convert first argument to object"))
    ensures target != null ==> r == Success(target) && target.Valid()
    ensures target != null ==> target.View() == AssignEntries(old(target.View()), sources)
  {
    if target == null {
      return Failure(TypeError("Cannot convert first argument to object"));
    }
    ghost var e0 := target.View();
    for i := 0 to |sources|
      invariant target.Valid()
      invariant target.View() == AssignEntries(e0, sources[..i])
    {
      var nextSource := sources[i];
      assert sources[..i + 1][..i] == sources[..i];
      if !(nextSource.Undefined? || nextSource.Null?) {
        // Object.keys(nextSource), each with nextSource[nextKey]
        var keysArray := OwnEntries(nextSource);
        for nextIndex := 0 to |keysArray|
          invariant target.Valid()
          invariant target.View() == SetAll(AssignEntries(e0, sources[..i]), keysArray[..nextIndex])
        {
          assert keysArray[..nextIndex + 1][..nextIndex] == keysArray[..nextIndex];
          target.Put(keysArray[nextIndex].0, keysArray[nextIndex].1);
        }
        assert keysArray[..|keysArray|] == keysArray;
      }
    }
    assert sources[..|sources|] == sources;
    return Success(target);
  }

  /** Writing entries keeps the table well formed and keeps the old keys first, in their order. */
  lemma {:induction false} SetAllKeepsOrder(e: Entries, ps: seq<(string, Value)>)
    requires e.Valid()
    ensures SetAll(e, ps).Valid()
    ensures |e.keys| <= |SetAll(e, ps).keys| && SetAll(e, ps).keys[..|e.keys|] == e.keys
    decreases |ps|
  {
    if ps != [] {
      SetAllKeepsOrder(e, ps[..|ps| - 1]);
    }
  }

  /** After writing ps, a key holds the value of its last entry in ps, or what it held before. */
  lemma {:induction false} SetAllLookup(e: Entries, ps: seq<(string, Value)>, k: string)
    ensures Lookup(SetAll(e, ps), k) == if LastValue(ps, k).Some? then LastValue(ps, k) else Lookup(e, k)
    decreases |ps|
  {
    if ps != [] {
      SetAllLookup(e, ps[..|ps| - 1], k);
    }
  }

  /** assign keeps the target well formed and its old keys first, in their order. */
  lemma {:induction false} AssignKeepsOrder(e: Entries, sources: seq<Value>)
    requires e.Valid()
    ensures AssignEntries(e, sources).Valid()
    ensures |e.keys| <= |AssignEntries(e, sources).keys|
    ensures AssignEntries(e, sources).keys[..|e.keys|] == e.keys
    decreases |sources|
  {
    if sources != [] {
      var before := AssignEntries(e, sources[..|sources| - 1]);
      AssignKeepsOrder(e, sources[..|sources| - 1]);
      SetAllKeepsOrder(before, OwnEntries(sources[|sources| - 1]));
    }
  }

  /** A key that the i-th source owns and no later source owns ends up with the i-th source's value. */
  lemma {:induction false} AssignLaterWins(e: Entries, sources: seq<Value>, i: nat, k: string)
    requires i < |sources| && OwnGet(sources[i], k).Some?
    requires forall j :: i < j < |sources| ==> OwnGet(sources[j], k).None?
    ensures Lookup(AssignEntries(e, sources), k) == OwnGet(sources[i], k)
    decreases |sources|
  {
    var n := |sources|;
    var before := AssignEntries(e, sources[..n - 1]);
    SetAllLookup(before, OwnEntries(sources[n - 1]), k);
    if i < n - 1 {
      AssignLaterWins(e, sources[..n - 1], i, k);
    }
  }

  /** A key no source owns keeps its value (or stays absent). */
  lemma {:induction false} AssignKeepsUnowned(e: Entries, sources: seq<Value>, k: string)
    requires forall j :: 0 <= j < |sources| ==> OwnGet(sources[j], k).None?
    ensures Lookup(AssignEntries(e, sources), k) == Lookup(e, k)
    decreases |sources|
  {
    if sources != [] {
      var n := |sources|;
      SetAllLookup(AssignEntries(e, sources[..n - 1]), OwnEntries(sources[n - 1]), k);
      AssignKeepsUnowned(e, sources[..n - 1], k);
    }
  }

  /** Writing the first n own entries of an object into an empty one gives its prefix of length n. */
  lemma {:induction false} SetAllPrefix(e: Entries, n: nat)
    requires e.Valid() && n <= |e.keys|
    ensures SetAll(NoEntries, OwnEntries(Obj(e))[..n]) == Prefix(e, n)
    decreases n
  {
    var ps := OwnEntries(Obj(e));
    if n == 0 {
      assert ps[..0] == [];
      assert Prefix(e, 0).vals == map[];
    } else {
      assert ps[..n][..n - 1] == ps[..n - 1];
      SetAllPrefix(e, n - 1);
      PrefixStep(e, n - 1);
    }
  }

  /** Assigning a well-formed object into an empty one copies it exactly, order included. */
  lemma AssignIntoEmpty(e: Entries)
    requires e.Valid()
    ensures AssignEntries(NoEntries, [Obj(e)]) == e
  {
    var ps := OwnEntries(Obj(e));
    assert [Obj(e)][..0] == [];
    assert ps[..|ps|] == ps;
    SetAllPrefix(e, |e.keys|);
    PrefixAll(e);
  }
}
