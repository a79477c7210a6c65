/**
 * index.js: the Python-style dictionary. A dictionary is a plain object
 * whose own entries are its items; its methods live on a shared prototype,
 * so they are never own entries and never listed, popped or found by get.
 */
module Dicts {
  import opened JsValues
  import opened Utils

  // ---------------------------------------------------------------------
  // Error messages
  // ---------------------------------------------------------------------

  function CannotConvert(i: nat): string {
    "cannot convert dictionary sequence element #" + NatToString(i) + " to a sequence"
  }

  function BadLength(i: nat, n: nat): string {
    "dictionary update sequence element #" + NatToString(i) + " has length " + NatToString(n) + "; 2 is required"
  }

  const EmptyDictionary := "popitem(): dictionary is empty"

  // ---------------------------------------------------------------------
  // The pair-ordering quirk
  // ---------------------------------------------------------------------

  /** `s.charCodeAt()`: the code of the first character; None stands for NaN (empty string). */
  function FirstCharCode(v: Value): Option<int> {
    if v.Str? && |v.s| > 0 then Some(v.s[0] as int) else None
  }

  /**
   * reverseAlphabet(a, b) = b.charCodeAt() - a.charCodeAt(); None stands for
   * NaN. Only the key names of an object ever reach it.
   */
  function ReverseAlphabet(a: Value, b: Value): Option<int> {
    if FirstCharCode(a).Some? && FirstCharCode(b).Some? then
      Some(FirstCharCode(b).value - FirstCharCode(a).value)
    else None
  }

  /**
   * `values.sort(reverseAlphabet)` on two values: the pair is swapped exactly
   * when the comparator is positive; a NaN comparison counts as equal.
   */
  function SortPair(values: seq<Value>): (r: seq<Value>)
    requires |values| == 2
    ensures |r| == 2
  {
    var c := ReverseAlphabet(values[0], values[1]);
    if c.Some? && c.value > 0 then [values[1]] + [values[0]] else values
  }

  /**
   * The sort is a permutation that leaves the first characters in
   * descending order, and it moves nothing unless the first character of
   * the first value has the smaller code.
   */
  lemma SortPairOrders(values: seq<Value>)
    requires |values| == 2
    ensures multiset(SortPair(values)) == multiset(values)
    ensures var r := SortPair(values);
            FirstCharCode(r[0]).Some? && FirstCharCode(r[1]).Some? ==>
              FirstCharCode(r[0]).value >= FirstCharCode(r[1]).value
    ensures SortPair(values) != values ==>
              && FirstCharCode(values[0]).Some? && FirstCharCode(values[1]).Some?
              && FirstCharCode(values[0]).value < FirstCharCode(values[1]).value
  {
    if SortPair(values) != values {
      assert values == [values[0]] + [values[1]];
      assert SortPair(values) == [values[1]] + [values[0]];
    }
  }

  // ---------------------------------------------------------------------
  // update, as a function of the entries before it
  // ---------------------------------------------------------------------

  /**
   * The [key, value] pair that update takes from element x at position i of
   * an array-like source, or the exception it throws for that element.
   */
  function PairAt(x: Value, i: nat): Result<(string, Value)> {
    if x.Undefined? || x.Null? then Failure(TypeError(CannotConvert(i)))
    else if !IsIterable(x) then Failure(NotIterable(x))
    else
      var items := Snapshot(x);
      if |items| != 2 then Failure(ValueError(BadLength(i, |items|)))
      else
        var values := if IsArrayLike(x) then items else SortPair(items);
        match PropertyKey(values[0])
        case Failure(err) => Failure(err)
        case Success(k) => Success((k, values[1]))
  }

  /** The entries after an update, with the exception it threw, if any. */
  datatype Outcome = Outcome(entries: Entries, error: Option<Exception>)

  /** The pair (or the exception) that each element of an array-like source yields, by position. */
  function PairsOf(elems: seq<Value>): (r: seq<Result<(string, Value)>>)
    ensures |r| == |elems| && forall i {:trigger r[i]} :: 0 <= i < |elems| ==> r[i] == PairAt(elems[i], i)
  {
    seq(|elems|, i requires 0 <= i < |elems| => PairAt(elems[i], i))
  }

  /**
   * The first n pairs stored into e in index order; the first element that
   * fails stops the update, and what was written before it stays.
   */
  function StorePairs(e: Entries, pairs: seq<Result<(string, Value)>>, n: nat): Outcome
    requires n <= |pairs|
    decreases n
  {
    if n == 0 then Outcome(e, None)
    else StorePair(StorePairs(e, pairs, n - 1), pairs[n - 1])
  }

  /** One element's step: after an exception nothing happens; otherwise the pair is written or its exception thrown. */
  function StorePair(prev: Outcome, pair: Result<(string, Value)>): Outcome {
    if prev.error.Some? then prev
    else
      match pair
      case Failure(x) => Outcome(prev.entries, Some(x))
      case Success(kv) => Outcome(Set(prev.entries, kv.0, kv.1), None)
  }

  /** `update(v)` applied to a dictionary whose own entries are e. */
  function UpdateSpec(e: Entries, v: Value): Outcome {
    if v.Undefined? then Outcome(e, None)
    else if !IsIterable(v) then Outcome(e, Some(NotIterable(v)))
    else if IsArrayLike(v) then
      if ArrayLength(v) == 0 then Outcome(e, None)
      else StorePairs(e, PairsOf(Elements(v)), ArrayLength(v))
    else Outcome(AssignEntries(e, [v]), None)
  }

  /** `dict(v)`: the own entries of the new dictionary, or the exception. */
  function DictSpec(v: Value): Result<Entries> {
    if v.Undefined? || v.Null? then Success(NoEntries)
    else if !IsIterable(v) then Failure(NotIterable(v))
    else
      var o := UpdateSpec(NoEntries, v);
      if o.error.Some? then Failure(o.error.value) else Success(o.entries)
  }

  // ---------------------------------------------------------------------
  // fromkeys, items, values, popitem as functions
  // ---------------------------------------------------------------------

  /** The property key (or the exception) that each iterated item converts to, by position. */
  function KeysOf(items: seq<Value>): (r: seq<Result<string>>)
    ensures |r| == |items| && forall i {:trigger r[i]} :: 0 <= i < |items| ==> r[i] == PropertyKey(items[i])
  {
    seq(|items|, i requires 0 <= i < |items| => PropertyKey(items[i]))
  }

  /** The first n converted keys written into e, each mapped to prop; the first failure stops it. */
  function StoreKeys(e: Entries, keys: seq<Result<string>>, prop: Value, n: nat): Result<Entries>
    requires n <= |keys|
    decreases n
  {
    if n == 0 then Success(e)
    else StoreKey(StoreKeys(e, keys, prop, n - 1), keys[n - 1], prop)
  }

  /** One item's step: after an exception nothing happens; otherwise the key is written or its exception thrown. */
  function StoreKey(prev: Result<Entries>, key: Result<string>, prop: Value): Result<Entries> {
    if prev.Failure? then prev
    else if key.Failure? then Failure(key.error)
    else Success(Set(prev.value, key.value, prop))
  }

  /** `fromkeys(src, prop)`: the own entries of the new dictionary, or the exception. */
  function FromKeysSpec(src: Value, prop: Value): Result<Entries> {
    if !IsIterable(src) then Failure(NotIterable(src))
    else StoreKeys(NoEntries, KeysOf(Snapshot(src)), prop, |Snapshot(src)|)
  }

  /** The array `[key, value]`. */
  function Pair(k: string, v: Value): Value {
    Arr([Str(k), v])
  }

  /** What items() returns: one [key, value] array per own key, in enumeration order. */
  function ItemsOf(e: Entries): seq<Value>
    requires e.Valid()
  {
    seq(|e.keys|, i requires 0 <= i < |e.keys| => Pair(e.keys[i], e.vals[e.keys[i]]))
  }

  /** What values() returns: the value of each own key, in enumeration order. */
  function ValuesOf(e: Entries): seq<Value>
    requires e.Valid()
  {
    seq(|e.keys|, i requires 0 <= i < |e.keys| => e.vals[e.keys[i]])
  }

  /** The entries after n successive popitem() calls, or None when one of them throws. */
  function PopItems(e: Entries, n: nat): Option<Entries>
    decreases n
  {
    if n == 0 then Some(e)
    else if e.keys == [] then None
    else PopItems(Remove(e, e.keys[0]), n - 1)
  }

  // ---------------------------------------------------------------------
  // The dictionary object
  // ---------------------------------------------------------------------

  /**
   * update's per-element step: reject undefined and null, iterate the
   * element, demand exactly two values, order an object's two key names by
   * reverseAlphabet, and convert the first value to a property key.
   */
  method ReadPair(x: Value, index: nat) returns (r: Result<(string, Value)>)
    ensures r == PairAt(x, index)
  {
    if x.Undefined? || x.Null? {
      return Failure(TypeError(CannotConvert(index)));
    }
    var iterated := Iterate(x);
    if iterated.Failure? {
      return Failure(iterated.error);
    }
    var it := iterated.value;
    assert it.items == Snapshot(x);
    if it.length < 2 || it.length > 2 {
      return Failure(ValueError(BadLength(index, it.length)));
    }
    var first := it.Next();
    var second := it.Next();
    var values := [first.value, second.value];
    if !IsArrayLike(x) {
      values := SortPair(values);
    }
    var key := PropertyKey(values[0]);
    if key.Failure? {
      return Failure(key.error);
    }
    return Success((key.value, values[1]));
  }

  class Dict {
    /** The dictionary's own properties. */
    const own: JsObject

    ghost predicate Valid()
      reads this, own
    {
      own.Valid()
    }

    function View(): Entries
      reads this, own
    {
      own.View()
    }

    /** The dictionary seen as a source value: a plain object with its own entries. */
    function ToValue(): Value
      reads this, own
    {
      Obj(own.View())
    }

    /** `Object.create(DictProto)`: a dictionary with no own entries. */
    constructor ()
      ensures Valid() && fresh(own) && View() == NoEntries
    {
      own := new JsObject();
    }

    /** clear(): deletes every own key, one by one. */
    method Clear()
      requires Valid()
      modifies own
      ensures Valid() && View() == NoEntries
    {
      var keys := own.keys;
      for i := 0 to |keys|
        invariant own.Valid()
        invariant own.keys == keys[i..]
      {
        RemoveHead(keys[i..]);
        assert keys[i..][1..] == keys[i + 1..];
        own.Delete(keys[i]);
      }
      assert own.vals == map[] by {
        assert forall k :: k !in own.vals;
      }
    }

    /** get(key, default): the own value of key, even when it is undefined; otherwise default. */
    function Get(key: string, default: Value): (r: Value)
      reads this, own
      requires Valid()
      ensures Lookup(View(), key).Some? ==> Lookup(View(), key) == Some(r)
      ensures Lookup(View(), key).None? ==> r == default
    {
      if key in own.vals then own.vals[key] else default
    }

    /** items(): walks the own keys in order, pushing [key, value] for each. */
    method Items() returns (r: seq<Value>)
      requires Valid()
      ensures r == ItemsOf(View())
    {
      r := [];
      var keys := own.keys;
      for i := 0 to |keys|
        invariant r == ItemsOf(View())[..i]
      {
        r := r + [Pair(keys[i], own.vals[keys[i]])];
      }
    }

    /** values(): walks the own keys in order, pushing each value. */
    method Values() returns (r: seq<Value>)
      requires Valid()
      ensures r == ValuesOf(View())
    {
      r := [];
      var keys := own.keys;
      for i := 0 to |keys|
        invariant r == ValuesOf(View())[..i]
      {
        r := r + [own.vals[keys[i]]];
      }
    }

    /**
     * keys(): every own key exactly once, in the enumeration order that
     * items() and values() also follow.
     */
    function Keys(): (r: seq<string>)
      reads this, own
      requires Valid()
      ensures Distinct(r) && forall k :: k in r <==> Lookup(View(), k).Some?
      ensures |r| == |ItemsOf(View())| == |ValuesOf(View())|
      ensures forall i :: 0 <= i < |r| ==> ItemsOf(View())[i] == Pair(r[i], ValuesOf(View())[i])
    {
      own.keys
    }

    /**
     * pop(key, default): removes and returns an own value; for a key that is
     * not owned, returns default unless it is undefined, in which case it
     * throws `Error("KeyError: " + key)`.
     */
    method Pop(key: string, default: Value) returns (r: Result<Value>)
      requires Valid()
      modifies own
      ensures Valid()
      ensures key in old(View()).vals ==>
                r == Success(old(View()).vals[key]) && View() == Remove(old(View()), key)
      ensures key !in old(View()).vals ==> View() == old(View())
      ensures key !in old(View()).vals && !default.Undefined? ==> r == Success(default)
      ensures key !in old(View()).vals && default.Undefined? ==> r == Failure(Error("KeyError: " + key))
      ensures forall p :: 0 <= p < |old(View()).keys| && old(View()).keys[p] == key ==>
                View().keys == old(View()).keys[..p] + old(View()).keys[p + 1..]
    {
      if key in own.vals {
        ghost var keys := own.keys;
        forall p | 0 <= p < |keys| && keys[p] == key
          ensures RemoveKey(keys, key) == keys[..p] + keys[p + 1..]
        {
          RemoveKeyAt(keys, key, p);
        }
        var value := own.vals[key];
        own.Delete(key);
        return Success(value);
      } else if default.Undefined? {
        return Failure(Error("KeyError: " + key));
      }
      return Success(default);
    }

    /**
     * popitem(): the for-in walk meets the own keys first, so it removes and
     * returns [key, value] for the first own key; with no own key it throws
     * KeyError.
     */
    method PopItem() returns (r: Result<Value>)
      requires Valid()
      modifies own
      ensures Valid()
      ensures old(View()).keys == [] ==>
                r == Failure(KeyError(EmptyDictionary)) && View() == old(View())
      ensures old(View()).keys != [] ==>
                r == Success(Pair(old(View()).keys[0], old(View()).vals[old(View()).keys[0]]))
      ensures old(View()).keys != [] ==> View() == Remove(old(View()), old(View()).keys[0])
    {
      if own.keys == [] {
        return Failure(KeyError(EmptyDictionary));
      }
      var key := own.keys[0];
      r := Success(Pair(key, own.vals[key]));
      own.Delete(key);
    }

    /** setdefault(key, default): the own value if key is owned; otherwise stores default and returns it. */
    method SetDefault(key: string, default: Value) returns (r: Value)
      requires Valid()
      modifies own
      ensures Valid()
      ensures key in old(View()).vals ==> r == old(View()).vals[key] && View() == old(View())
      ensures key !in old(View()).vals ==> r == default && View() == Set(old(View()), key, default)
    {
      if key in own.vals {
        r := own.vals[key];
      } else {
        own.Put(key, default);
        r := default;
      }
    }

    /** update's step for the element x at position index: store its pair, or report its exception. */
    method PutPair(x: Value, index: nat) returns (err: Option<Exception>)
      requires Valid()
      modifies own
      ensures Valid()
      ensures Outcome(View(), err) == StorePair(Outcome(old(View()), None), PairAt(x, index))
    {
      var pair := ReadPair(x, index);
      if pair.Failure? {
        return Some(pair.error);
      }
      own.Put(pair.value.0, pair.value.1);
      return None;
    }

    /**
     * update's loop over an array-like source: stores the pair of each
     * element in index order and stops at the first element that fails,
     * keeping what was stored before it.
     */
    method PutPairs(elements: seq<Value>) returns (err: Option<Exception>)
      requires Valid()
      modifies own
      ensures Valid()
      ensures Outcome(View(), err) == StorePairs(old(View()), PairsOf(elements), |elements|)
    {
      ghost var e0 := View();
      ghost var pairs := PairsOf(elements);
      for index := 0 to |elements|
        invariant Valid()
        invariant StorePairs(e0, pairs, index) == Outcome(View(), None)
      {
        ghost var before := View();
        err := PutPair(elements[index], index);
        StoreNextElement(e0, elements, index, before);
        if err.Some? {
          FailureIsFinal(e0, pairs, index + 1, |elements|);
          return;
        }
      }
      return None;
    }

    /**
     * update(value): nothing for undefined; the "is not iterable" TypeError
     * for other non-iterable values; an array-like source stores the pair of
     * each element in index order, stopping at the first element that
     * fails; any other source is merged with assign.
     */
    method Update(value: Value) returns (err: Option<Exception>)
      requires Valid()
      modifies own
      ensures Valid()
      ensures Outcome(View(), err) == UpdateSpec(old(View()), value)
    {
      if value.Undefined? {
        return None;
      }
      if !IsIterable(value) {
        return Some(NotIterable(value));
      }
      var isArray := IsArrayLike(value);
      if isArray {
        var length := ArrayLength(value);
        if length == 0 {
          return None;
        }
        err := PutPairs(Elements(value));
        return;
      }
      var merged := Assign(own, [value]);
      return None;
    }

    /** copy(): a new dictionary into which this one's own entries were assigned. */
    method Copy() returns (c: Dict)
      requires Valid()
      ensures fresh(c) && fresh(c.own) && c.Valid() && c.View() == View()
    {
      c := new Dict();
      var copied := Assign(c.own, [ToValue()]);
      AssignIntoEmpty(View());
    }

    /** fromkeys' step: `this[value] = prop`, which throws when value does not convert to a property key. */
    method PutKey(value: Value, prop: Value) returns (err: Option<Exception>)
      requires Valid()
      modifies own
      ensures Valid()
      ensures StoreKey(Success(old(View())), PropertyKey(value), prop) ==
                if err.None? then Success(View()) else Failure(err.value)
    {
      var key := PropertyKey(value);
      if key.Failure? {
        return Some(key.error);
      }
      own.Put(key.value, prop);
      return None;
    }

    /**
     * fromkeys' loop: writes every value the cursor still yields as a key
     * mapped to prop; the first value that does not convert to a property
     * key stops it.
     */
    method PutEach(it: Iterator, prop: Value) returns (err: Option<Exception>)
      requires Valid() && it.index == 0
      modifies own, it
      ensures Valid()
      ensures err.None? ==> StoreKeys(old(View()), KeysOf(it.items), prop, |it.items|) == Success(View())
      ensures err.Some? ==> StoreKeys(old(View()), KeysOf(it.items), prop, |it.items|) == Failure(err.value)
    {
      ghost var e0 := View();
      var next := it.Next();
      while !next.done
        invariant Valid() && it.index == next.index + 1
        invariant next.done == (next.index >= |it.items|) && (!next.done ==> next.value == it.items[next.index])
        invariant next.index <= |it.items|
        invariant StoreKeys(e0, KeysOf(it.items), prop, next.index) == Success(View())
        decreases |it.items| - next.index
      {
        ghost var before := View();
        err := PutKey(next.value, prop);
        ghost var stored := if err.None? then Success(View()) else Failure(err.value);
        StoreNextKey(e0, it.items, prop, next.index, before, stored);
        if err.Some? {
          assert StoreKeys(e0, KeysOf(it.items), prop, |it.items|) == Failure(err.value);
          return;
        }
        assert StoreKeys(e0, KeysOf(it.items), prop, next.index + 1) == Success(View());
        next := it.Next();
      }
      return None;
    }

    /**
     * fromkeys(keys, prop): a new dictionary that maps every value iterated
     * from keys (array items, string characters, object key names) to prop.
     * It does not read this dictionary.
     */
    static method FromKeys(keys: Value, prop: Value) returns (r: Result<Dict>)
      ensures FromKeysSpec(keys, prop).Failure? ==> r == Failure(FromKeysSpec(keys, prop).error)
      ensures FromKeysSpec(keys, prop).Success? ==> r.Success? && fresh(r.value) && fresh(r.value.own)
      ensures FromKeysSpec(keys, prop).Success? ==> r.value.Valid() && r.value.View() == FromKeysSpec(keys, prop).value
    {
      var iterated := Iterate(keys);
      if iterated.Failure? {
        return Failure(iterated.error);
      }
      var result := new Dict();
      var err := result.PutEach(iterated.value, prop);
      if err.Some? {
        return Failure(err.value);
      }
      return Success(result);
    }
  }

  /**
   * dict(value): an empty dictionary for undefined and null, the "is not
   * iterable" TypeError for other non-iterable values, otherwise an empty
   * dictionary updated with value (the exception update throws, if any).
   */
  method NewDict(value: Value) returns (r: Result<Dict>)
    ensures DictSpec(value).Failure? ==> r == Failure(DictSpec(value).error)
    ensures DictSpec(value).Success? ==> r.Success? && fresh(r.value) && fresh(r.value.own)
    ensures DictSpec(value).Success? ==> r.value.Valid() && r.value.View() == DictSpec(value).value
  {
    var result := new Dict();
    if value.Undefined? || value.Null? {
      return Success(result);
    }
    if !IsIterable(value) {
      return Failure(NotIterable(value));
    }
    var err := result.Update(value);
    if err.Some? {
      return Failure(err.value);
    }
    return Success(result);
  }

  // ---------------------------------------------------------------------
  // Properties of update
  // ---------------------------------------------------------------------

  /** Storing one more element of an array-like source is one StorePair step with that element's pair. */
  lemma StoreNextElement(e: Entries, elements: seq<Value>, index: nat, d: Entries)
    requires index < |elements| && StorePairs(e, PairsOf(elements), index) == Outcome(d, None)
    ensures StorePairs(e, PairsOf(elements), index + 1) == StorePair(Outcome(d, None), PairAt(elements[index], index))
  {
  }

  /** Once an element has failed, the later elements change nothing. */
  lemma {:induction false} FailureIsFinal(e: Entries, pairs: seq<Result<(string, Value)>>, i: nat, n: nat)
    requires i <= n <= |pairs| && StorePairs(e, pairs, i).error.Some?
    ensures StorePairs(e, pairs, n) == StorePairs(e, pairs, i)
    decreases n
  {
    if n > i {
      FailureIsFinal(e, pairs, i, n - 1);
    }
  }

  /**
   * When element i is the first to fail, update throws that element's
   * exception and the entries written for elements 0 .. i-1 stay written.
   */
  lemma FailedUpdateKeepsEarlierWrites(e: Entries, pairs: seq<Result<(string, Value)>>, i: nat)
    requires i < |pairs| && StorePairs(e, pairs, i).error.None? && pairs[i].Failure?
    ensures StorePairs(e, pairs, |pairs|) == Outcome(StorePairs(e, pairs, i).entries, Some(pairs[i].error))
  {
    FailureIsFinal(e, pairs, i + 1, |pairs|);
  }

  /** An update stores all n elements without an exception exactly when every element yields a pair. */
  lemma {:induction false} StoreSucceedsIffAllPairs(e: Entries, pairs: seq<Result<(string, Value)>>, n: nat)
    requires n <= |pairs|
    ensures StorePairs(e, pairs, n).error.None? <==> forall i :: 0 <= i < n ==> pairs[i].Success?
    decreases n
  {
    if n > 0 {
      StoreSucceedsIffAllPairs(e, pairs, n - 1);
      var prev := StorePairs(e, pairs, n - 1);
      assert StorePairs(e, pairs, n).error.None? <==> prev.error.None? && pairs[n - 1].Success?;
    }
  }

  /** A stored pair whose key no later element repeats holds in the result; later pairs overwrite earlier ones. */
  lemma {:induction false} LastPairWins(e: Entries, pairs: seq<Result<(string, Value)>>, n: nat, i: nat, k: string, x: Value)
    requires i < n <= |pairs|
    requires forall j :: 0 <= j < n ==> pairs[j].Success?
    requires pairs[i] == Success((k, x))
    requires forall j :: i < j < n ==> pairs[j].value.0 != k
    ensures Lookup(StorePairs(e, pairs, n).entries, k) == Some(x)
    decreases n
  {
    StoreSucceedsIffAllPairs(e, pairs, n - 1);
    var prev := StorePairs(e, pairs, n - 1).entries;
    var last := pairs[n - 1].value;
    assert StorePairs(e, pairs, n).entries == Set(prev, last.0, last.1);
    if i < n - 1 {
      LastPairWins(e, pairs, n - 1, i, k, x);
      assert last.0 != k;
    }
  }

  /** A key that no element's pair names keeps its value from before the update. */
  lemma {:induction false} UnpairedKeyUnchanged(e: Entries, pairs: seq<Result<(string, Value)>>, n: nat, k: string)
    requires n <= |pairs|
    requires forall j :: 0 <= j < n && pairs[j].Success? ==> pairs[j].value.0 != k
    ensures Lookup(StorePairs(e, pairs, n).entries, k) == Lookup(e, k)
    decreases n
  {
    if n > 0 {
      UnpairedKeyUnchanged(e, pairs, n - 1, k);
    }
  }

  /** Updating keeps the own-entry table well formed. */
  lemma {:induction false} StoreKeepsValid(e: Entries, pairs: seq<Result<(string, Value)>>, n: nat)
    requires e.Valid() && n <= |pairs|
    ensures StorePairs(e, pairs, n).entries.Valid()
    decreases n
  {
    if n > 0 {
      StoreKeepsValid(e, pairs, n - 1);
    }
  }

  lemma UpdateKeepsValid(e: Entries, v: Value)
    requires e.Valid()
    ensures UpdateSpec(e, v).entries.Valid()
  {
    if IsIterable(v) && IsArrayLike(v) && ArrayLength(v) > 0 {
      StoreKeepsValid(e, PairsOf(Elements(v)), ArrayLength(v));
    } else if IsIterable(v) && !IsArrayLike(v) {
      AssignKeepsOrder(e, [v]);
    }
  }

  /**
   * The cases of update that do not read pairs: undefined is a no-op, any
   * other non-iterable value (null included) throws the "is not iterable"
   * TypeError, an empty array-like source is a no-op and a keyed source is
   * merged with assign.
   */
  lemma UpdateNonPairCases(e: Entries, v: Value)
    ensures v.Undefined? ==> UpdateSpec(e, v) == Outcome(e, None)
    ensures !v.Undefined? && !IsIterable(v) ==> UpdateSpec(e, v) == Outcome(e, Some(NotIterable(v)))
    ensures v.Null? ==> UpdateSpec(e, v) == Outcome(e, Some(TypeError("[object Null] is not iterable")))
    ensures IsArrayLike(v) && ArrayLength(v) == 0 ==> UpdateSpec(e, v) == Outcome(e, None)
    ensures IsIterable(v) && !IsArrayLike(v) ==> UpdateSpec(e, v) == Outcome(AssignEntries(e, [v]), None)
  {
    if v.Null? {
      assert GetType(v) + " is not iterable" == "[object Null] is not iterable";
    }
  }

  /**
   * The pair of an array-like element of length 2 is its two elements in
   * order, the first converted to a property key.
   */
  lemma ArrayLikePairInOrder(x: Value, i: nat)
    requires IsArrayLike(x) && ArrayLength(x) == 2
    ensures PropertyKey(Elements(x)[0]).Success? ==>
              PairAt(x, i) == Success((PropertyKey(Elements(x)[0]).value, Elements(x)[1]))
    ensures PropertyKey(Elements(x)[0]).Failure? ==> PairAt(x, i) == Failure(PropertyKey(Elements(x)[0]).error)
  {
  }

  /**
   * The pair of a two-key object that is not array-like: of its two key
   * names, the one whose first character has the larger code becomes the
   * key and the other the value; on a tie (or an empty name) the first
   * enumerated name is the key.
   */
  lemma TwoKeyObjectPair(x: Value, i: nat)
    requires x.Obj? && !IsArrayLike(x) && |x.own.keys| == 2
    ensures var a, b := x.own.keys[0], x.own.keys[1];
            PairAt(x, i) ==
              if |a| > 0 && |b| > 0 && a[0] < b[0] then Success((b, Str(a))) else Success((a, Str(b)))
  {
    var a, b := x.own.keys[0], x.own.keys[1];
    assert Snapshot(x) == [Str(a), Str(b)];
  }

  /** An element that is iterable but does not iterate to exactly two values raises the length ValueError. */
  lemma WrongLengthPair(x: Value, i: nat)
    requires !x.Undefined? && !x.Null? && IsIterable(x) && |Snapshot(x)| != 2
    ensures PairAt(x, i) == Failure(ValueError(BadLength(i, |Snapshot(x)|)))
  {
  }

  /** The pair of an items() entry is exactly its key and value. */
  lemma ItemPair(k: string, v: Value, i: nat)
    ensures PairAt(Pair(k, v), i) == Success((k, v))
  {
    var x := Pair(k, v);
    assert IsArrayLike(x);
    assert Snapshot(x) == [Str(k), v];
  }

  /** Storing the items of e, in order, into an empty dictionary rebuilds e's prefixes. */
  lemma StoreItemsPrefix(e: Entries, n: nat)
    requires e.Valid() && n <= |e.keys|
    ensures StorePairs(NoEntries, PairsOf(ItemsOf(e)), n) == Outcome(Prefix(e, n), None)
  {
    var pairs := PairsOf(ItemsOf(e));
    forall i | 0 <= i < n ensures pairs[i] == Success((e.keys[i], e.vals[e.keys[i]])) {
      ItemPair(e.keys[i], e.vals[e.keys[i]], i);
    }
    StoreEntriesPrefix(e, pairs, n);
  }

  /** Storing pairs that list the entries of e in order builds e's prefixes. */
  lemma {:induction false} StoreEntriesPrefix(e: Entries, pairs: seq<Result<(string, Value)>>, n: nat)
    requires e.Valid() && n <= |e.keys| && n <= |pairs|
    requires forall i :: 0 <= i < n ==> pairs[i] == Success((e.keys[i], e.vals[e.keys[i]]))
    ensures StorePairs(NoEntries, pairs, n) == Outcome(Prefix(e, n), None)
    decreases n
  {
    if n == 0 {
      assert Prefix(e, 0).vals == map[];
    } else {
      StoreEntriesPrefix(e, pairs, n - 1);
      StoreEntryStep(e, pairs, n);
    }
  }

  /** Storing the n-th entry of e after its first n - 1 gives the n-entry prefix. */
  lemma StoreEntryStep(e: Entries, pairs: seq<Result<(string, Value)>>, n: nat)
    requires e.Valid() && 0 < n <= |e.keys| && n <= |pairs|
    requires StorePairs(NoEntries, pairs, n - 1) == Outcome(Prefix(e, n - 1), None)
    requires pairs[n - 1] == Success((e.keys[n - 1], e.vals[e.keys[n - 1]]))
    ensures StorePairs(NoEntries, pairs, n) == Outcome(Prefix(e, n), None)
  {
    PrefixStep(e, n - 1);
  }

  /** The items() array is an array-like source whose elements are the items themselves. */
  lemma ItemsAreArrayLike(e: Entries)
    requires e.Valid() && |e.keys| <= MaxSafeInteger
    ensures IsIterable(Arr(ItemsOf(e))) && IsArrayLike(Arr(ItemsOf(e)))
    ensures ArrayLength(Arr(ItemsOf(e))) == |e.keys| && Elements(Arr(ItemsOf(e))) == ItemsOf(e)
  {
  }

  /** Round trip: `dict(d.items())` has the same entries, in the same order, as d. */
  lemma DictOfItems(e: Entries)
    requires e.Valid() && |e.keys| <= MaxSafeInteger
    ensures DictSpec(Arr(ItemsOf(e))) == Success(e)
  {
    ItemsAreArrayLike(e);
    StoreItemsPrefix(e, |e.keys|);
    PrefixAll(e);
    if |e.keys| == 0 {
      assert e.vals == map[] by {
        assert forall k :: k !in e.vals;
      }
    }
  }

  /**
   * dict: undefined and null give an empty dictionary, other non-iterable
   * values the "is not iterable" TypeError, and any other value the result
   * of update on an empty dictionary. For a value that is not null, dict's
   * own iterability check (index.js:349-352) is the one update repeats
   * (index.js:238-241), so dict(v) is update(v) on an empty dictionary,
   * exception included.
   */
  lemma DictIsUpdateOfEmpty(v: Value)
    ensures v.Undefined? || v.Null? ==> DictSpec(v) == Success(NoEntries)
    ensures !v.Undefined? && !v.Null? && !IsIterable(v) ==> DictSpec(v) == Failure(NotIterable(v))
    ensures !v.Null? && UpdateSpec(NoEntries, v).error.None? ==>
              DictSpec(v) == Success(UpdateSpec(NoEntries, v).entries)
    ensures !v.Null? && UpdateSpec(NoEntries, v).error.Some? ==>
              DictSpec(v) == Failure(UpdateSpec(NoEntries, v).error.value)
  {
  }

  // ---------------------------------------------------------------------
  // Properties of fromkeys and popitem
  // ---------------------------------------------------------------------

  /** Storing the key of one more iterated item is one StoreKey step with that item's key. */
  lemma StoreNextKey(e: Entries, items: seq<Value>, prop: Value, i: nat, d: Entries, r: Result<Entries>)
    requires i < |items| && StoreKeys(e, KeysOf(items), prop, i) == Success(d)
    requires StoreKey(Success(d), PropertyKey(items[i]), prop) == r
    ensures StoreKeys(e, KeysOf(items), prop, i + 1) == r
    ensures r.Failure? ==> StoreKeys(e, KeysOf(items), prop, |items|) == r
  {
    assert StoreKeys(e, KeysOf(items), prop, i + 1) == r;
    if r.Failure? {
      StoreKeysFailureIsFinal(e, KeysOf(items), prop, i + 1, |items|);
    }
  }

  lemma {:induction false} StoreKeysFailureIsFinal(e: Entries, keys: seq<Result<string>>, prop: Value, i: nat, n: nat)
    requires i <= n <= |keys| && StoreKeys(e, keys, prop, i).Failure?
    ensures StoreKeys(e, keys, prop, n).Failure?
    ensures StoreKeys(e, keys, prop, n).error == StoreKeys(e, keys, prop, i).error
    decreases n
  {
    if n > i {
      StoreKeysFailureIsFinal(e, keys, prop, i, n - 1);
      assert StoreKeys(e, keys, prop, n) == StoreKey(StoreKeys(e, keys, prop, n - 1), keys[n - 1], prop);
    }
  }

  /** Storing n converted keys succeeds exactly when each conversion succeeded. */
  lemma {:induction false} StoreKeysSucceedsIffAllKeys(e: Entries, keys: seq<Result<string>>, prop: Value, n: nat)
    requires n <= |keys|
    ensures StoreKeys(e, keys, prop, n).Success? <==> forall i :: 0 <= i < n ==> keys[i].Success?
    decreases n
  {
    if n > 0 {
      StoreKeysSucceedsIffAllKeys(e, keys, prop, n - 1);
      var prev := StoreKeys(e, keys, prop, n - 1);
      assert StoreKeys(e, keys, prop, n).Success? <==> prev.Success? && keys[n - 1].Success?;
    }
  }

  /** A successful store keeps the table well formed. */
  lemma {:induction false} StoreKeysKeepsValid(e: Entries, keys: seq<Result<string>>, prop: Value, n: nat)
    requires e.Valid() && n <= |keys| && StoreKeys(e, keys, prop, n).Success?
    ensures StoreKeys(e, keys, prop, n).value.Valid()
    decreases n
  {
    if n > 0 {
      StoreKeysKeepsValid(e, keys, prop, n - 1);
    }
  }

  /** A successful store maps every converted key to prop. */
  lemma {:induction false} StoreKeysMapsEach(e: Entries, keys: seq<Result<string>>, prop: Value, n: nat)
    requires n <= |keys| && StoreKeys(e, keys, prop, n).Success?
    ensures forall i :: 0 <= i < n ==>
              keys[i].Success? && Lookup(StoreKeys(e, keys, prop, n).value, keys[i].value) == Some(prop)
    decreases n
  {
    if n > 0 {
      StoreKeysSucceedsIffAllKeys(e, keys, prop, n);
      StoreKeysMapsEach(e, keys, prop, n - 1);
      var d := StoreKeys(e, keys, prop, n - 1).value;
      var k := keys[n - 1].value;
      assert StoreKeys(e, keys, prop, n).value == Set(d, k, prop);
      forall i | 0 <= i < n
        ensures keys[i].Success? && Lookup(Set(d, k, prop), keys[i].value) == Some(prop)
      {
        if i < n - 1 && keys[i].value != k {
          assert Lookup(d, keys[i].value) == Some(prop);
        }
      }
    }
  }

  /** A successful store adds no key other than the converted ones. */
  lemma {:induction false} StoreKeysAddsOnlyThese(e: Entries, keys: seq<Result<string>>, prop: Value, n: nat)
    requires n <= |keys| && StoreKeys(e, keys, prop, n).Success?
    ensures forall k :: Lookup(StoreKeys(e, keys, prop, n).value, k).Some? && Lookup(e, k).None? ==>
              exists i :: 0 <= i < n && keys[i] == Success(k)
    decreases n
  {
    if n > 0 {
      StoreKeysAddsOnlyThese(e, keys, prop, n - 1);
      var d := StoreKeys(e, keys, prop, n - 1).value;
      var k := keys[n - 1].value;
      assert StoreKeys(e, keys, prop, n).value == Set(d, k, prop);
      forall k' | Lookup(Set(d, k, prop), k').Some? && Lookup(e, k').None?
        ensures exists i :: 0 <= i < n && keys[i] == Success(k')
      {
        if k' == k {
          assert keys[n - 1] == Success(k');
        } else {
          assert Lookup(d, k').Some?;
          var i :| 0 <= i < n - 1 && keys[i] == Success(k');
        }
      }
    }
  }

  /**
   * fromkeys(src, prop) on an empty dictionary: every iterated value
   * becomes a key mapped to prop, and nothing else is a key.
   */
  lemma FromKeysMapsEach(src: Value, prop: Value)
    requires FromKeysSpec(src, prop).Success?
    ensures IsIterable(src)
    ensures var d := FromKeysSpec(src, prop).value;
            && d.Valid()
            && (forall i :: 0 <= i < |Snapshot(src)| ==>
                  PropertyKey(Snapshot(src)[i]).Success? && Lookup(d, PropertyKey(Snapshot(src)[i]).value) == Some(prop))
            && (forall k :: k in d.vals ==> exists i :: 0 <= i < |Snapshot(src)| && PropertyKey(Snapshot(src)[i]) == Success(k))
  {
    var items := Snapshot(src);
    var keys := KeysOf(items);
    var d := FromKeysSpec(src, prop).value;
    StoreKeysKeepsValid(NoEntries, keys, prop, |keys|);
    StoreKeysMapsEach(NoEntries, keys, prop, |keys|);
    StoreKeysAddsOnlyThese(NoEntries, keys, prop, |keys|);
    forall i | 0 <= i < |items|
      ensures PropertyKey(items[i]).Success? && Lookup(d, PropertyKey(items[i]).value) == Some(prop)
    {
      assert keys[i] == PropertyKey(items[i]);
    }
    forall k | k in d.vals
      ensures exists i :: 0 <= i < |items| && PropertyKey(items[i]) == Success(k)
    {
      assert Lookup(d, k).Some?;
      var i :| 0 <= i < |keys| && keys[i] == Success(k);
      assert PropertyKey(items[i]) == Success(k);
    }
  }

  /** popitem() on a non-empty table removes exactly its first key. */
  lemma PopFirstKey(e: Entries)
    requires e.Valid() && e.keys != []
    ensures Remove(e, e.keys[0]).Valid()
    ensures Remove(e, e.keys[0]).keys == e.keys[1..]
  {
    RemoveHead(e.keys);
  }

  /** After i successful popitem() calls, the next one removes the first remaining key, or throws when none is left. */
  lemma {:induction false} PopItemsStep(e: Entries, i: nat)
    requires PopItems(e, i).Some?
    ensures var d := PopItems(e, i).value;
            PopItems(e, i + 1) == if d.keys == [] then None else Some(Remove(d, d.keys[0]))
    decreases i
  {
    if i > 0 {
      PopItemsStep(Remove(e, e.keys[0]), i - 1);
    }
  }

  /** A dictionary with n own entries allows exactly n successful popitem() calls, which empty it. */
  lemma {:induction false} PopItemsDrain(e: Entries)
    requires e.Valid()
    ensures PopItems(e, |e.keys|) == Some(NoEntries)
    ensures PopItems(e, |e.keys| + 1) == None
    decreases |e.keys|
  {
    if e.keys == [] {
      assert e.vals == map[] by {
        assert forall k :: k !in e.vals;
      }
      assert e == NoEntries;
    } else {
      var rest := Remove(e, e.keys[0]);
      PopFirstKey(e);
      assert |rest.keys| == |e.keys| - 1;
      PopItemsDrain(rest);
      assert PopItems(e, |e.keys|) == PopItems(rest, |rest.keys|);
      assert PopItems(e, |e.keys| + 1) == PopItems(rest, |rest.keys| + 1);
    }
  }
}
