/**
 * Concrete cases of the classification helpers, of dict and of fromkeys,
 * as the repository's test suite (test/test.js) exercises them.
 */
module Examples {
  import opened JsValues
  import opened Utils
  import opened Dicts

  const NaN := Num(NonInteger("NaN"))
  const Infinity := Num(NonInteger("Infinity"))

  /** isIterable: strings, objects and arrays are iterable; null, undefined, booleans, NaN and Infinity are not. */
  lemma IsIterableCasesFromTests()
    ensures IsIterable(Str("")) && IsIterable(Obj(NoEntries)) && IsIterable(Arr([]))
    ensures !IsIterable(Null) && !IsIterable(Undefined)
    ensures !IsIterable(Bool(false)) && !IsIterable(Bool(true))
    ensures !IsIterable(NaN) && !IsIterable(Infinity)
  {
  }

  /** isArrayLike: a string, an array and `{0: 0, length: 1}` are array-like; `{0: 0}` and `{}` are not. */
  lemma IsArrayLikeCasesFromTests()
    ensures IsArrayLike(Str("")) && IsArrayLike(Arr([]))
    ensures IsArrayLike(Obj(Entries(["0", "length"], map["0" := Num(Integer(0)), "length" := Num(Integer(1))])))
    ensures !IsArrayLike(Obj(Entries(["0"], map["0" := Num(Integer(0))])))
    ensures !IsArrayLike(Obj(NoEntries)) && !IsArrayLike(Null) && !IsArrayLike(Undefined)
    ensures !IsArrayLike(Bool(false)) && !IsArrayLike(Bool(true))
    ensures !IsArrayLike(NaN) && !IsArrayLike(Infinity)
  {
  }

  /** `dict('')` and `dict([])` do not throw: both give an empty dictionary. */
  lemma DictOfEmptySources()
    ensures DictSpec(Str("")) == Success(NoEntries)
    ensures DictSpec(Arr([])) == Success(NoEntries)
  {
  }

  /** dict of a one-element array whose element yields the pair (k, v) has the single entry k: v. */
  lemma DictOfOnePair(x: Value, k: string, v: Value)
    requires PairAt(x, 0) == Success((k, v))
    ensures DictSpec(Arr([x])) == Success(Entries([k], map[k := v]))
  {
    assert IsArrayLike(Arr([x])) && ArrayLength(Arr([x])) == 1 && Elements(Arr([x])) == [x];
    assert PairsOf([x])[0] == Success((k, v));
    assert StorePairs(NoEntries, PairsOf([x]), 1) == Outcome(Set(NoEntries, k, v), None);
    assert Set(NoEntries, k, v).keys == [k];
    assert Set(NoEntries, k, v).vals == map[k := v];
  }

  /** `dict(['hi'])`: the two characters of a string are a key and its value. */
  lemma DictOfString()
    ensures DictSpec(Arr([Str("hi")])) == Success(Entries(["h"], map["h" := Str("i")]))
  {
    var x := Str("hi");
    assert Snapshot(x) == [Str("h"), Str("i")];
    assert PairAt(x, 0) == Success(("h", Str("i")));
    DictOfOnePair(x, "h", Str("i"));
  }

  /** `dict([[1, 2]])`: the number 1 becomes the key "1". */
  lemma DictOfNumberPair()
    ensures DictSpec(Arr([Arr([Num(Integer(1)), Num(Integer(2))])])) ==
            Success(Entries(["1"], map["1" := Num(Integer(2))]))
  {
    var x := Arr([Num(Integer(1)), Num(Integer(2))]);
    assert Snapshot(x) == [Num(Integer(1)), Num(Integer(2))];
    assert PropertyKey(Num(Integer(1))) == Success("1");
    assert PairAt(x, 0) == Success(("1", Num(Integer(2))));
    DictOfOnePair(x, "1", Num(Integer(2)));
  }

  /** dict of a one-element array whose element fails throws that element's exception. */
  lemma DictOfOneFailure(x: Value)
    requires PairAt(x, 0).Failure?
    ensures DictSpec(Arr([x])) == Failure(PairAt(x, 0).error)
  {
    assert IsArrayLike(Arr([x])) && ArrayLength(Arr([x])) == 1 && Elements(Arr([x])) == [x];
    assert PairsOf([x])[0] == PairAt(x, 0);
    assert StorePairs(NoEntries, PairsOf([x]), 1) == Outcome(NoEntries, Some(PairAt(x, 0).error));
  }

  /**
   * `dict([{name: 'John', age: 20}])`: an object element contributes its two
   * key names; "name" sorts before "age" ('n' has the larger code), so the
   * entry is name: 'age'.
   */
  lemma DictOfTwoKeyObject()
    ensures var person := Obj(Entries(["name", "age"], map["name" := Str("John"), "age" := Num(Integer(20))]));
            DictSpec(Arr([person])) == Success(Entries(["name"], map["name" := Str("age")]))
  {
    var person := Obj(Entries(["name", "age"], map["name" := Str("John"), "age" := Num(Integer(20))]));
    assert !IsArrayLike(person);
    assert OwnEntries(person) == [("name", Str("John")), ("age", Num(Integer(20)))];
    assert Snapshot(person) == [Str("name"), Str("age")];
    assert SortPair([Str("name"), Str("age")]) == [Str("name"), Str("age")];
    assert PairAt(person, 0) == Success(("name", Str("age")));
    DictOfOnePair(person, "name", Str("age"));
  }

  /** The messages the tests match, written out. */
  lemma CannotConvertMessage()
    ensures CannotConvert(0) == "cannot convert dictionary sequence element #0 to a sequence"
  {
    assert NatToString(0) == "0";
  }

  lemma BadLengthOneMessage()
    ensures BadLength(0, 1) == "dictionary update sequence element #0 has length 1; 2 is required"
  {
    var prefix, middle, suffix := "dictionary update sequence element #", " has length ", "; 2 is required";
    assert NatToString(0) == "0" && NatToString(1) == "1";
    assert BadLength(0, 1) == prefix + "0" + middle + "1" + suffix;
  }

  lemma BadLengthThreeMessage()
    ensures BadLength(0, 3) == "dictionary update sequence element #0 has length 3; 2 is required"
  {
    var prefix, middle, suffix := "dictionary update sequence element #", " has length ", "; 2 is required";
    assert NatToString(0) == "0" && NatToString(3) == "3";
    assert BadLength(0, 3) == prefix + "0" + middle + "3" + suffix;
  }

  /** `dict([null])` throws the TypeError for element #0. */
  lemma DictOfNull()
    ensures DictSpec(Arr([Null])) == Failure(TypeError(CannotConvert(0)))
  {
    DictOfOneFailure(Null);
  }

  /** `dict([['name']])` throws the ValueError for a length-1 element. */
  lemma DictOfOneItemArray()
    ensures DictSpec(Arr([Arr([Str("name")])])) == Failure(ValueError(BadLength(0, 1)))
  {
    assert Snapshot(Arr([Str("name")])) == [Str("name")];
    DictOfOneFailure(Arr([Str("name")]));
  }

  /** `dict([[null]])` throws the same ValueError: null inside the element does not matter. */
  lemma DictOfOneNullArray()
    ensures DictSpec(Arr([Arr([Null])])) == Failure(ValueError(BadLength(0, 1)))
  {
    assert Snapshot(Arr([Null])) == [Null];
    DictOfOneFailure(Arr([Null]));
  }

  /** `dict([{name: 'Johnny', age: 20, likes: ['oranges']}])` throws the ValueError for a length-3 element. */
  lemma DictOfThreeKeyObject()
    ensures var person := Obj(Entries(["name", "age", "likes"],
              map["name" := Str("Johnny"), "age" := Num(Integer(20)), "likes" := Arr([Str("oranges")])]));
            DictSpec(Arr([person])) == Failure(ValueError(BadLength(0, 3)))
  {
    var person := Obj(Entries(["name", "age", "likes"],
      map["name" := Str("Johnny"), "age" := Num(Integer(20)), "likes" := Arr([Str("oranges")])]));
    assert !IsArrayLike(person);
    assert |Snapshot(person)| == 3;
    DictOfOneFailure(person);
  }

  /** `fromkeys([1, 2, 3], 1)`: the keys "1", "2", "3", each mapped to 1. */
  lemma FromKeysOfNumbers()
    ensures var one := Num(Integer(1));
            FromKeysSpec(Arr([one, Num(Integer(2)), Num(Integer(3))]), one) ==
            Success(Entries(["1", "2", "3"], map["1" := one, "2" := one, "3" := one]))
  {
    var one := Num(Integer(1));
    var items := [one, Num(Integer(2)), Num(Integer(3))];
    assert Snapshot(Arr(items)) == items;
    assert NatToString(1) == "1" && NatToString(2) == "2" && NatToString(3) == "3";
    var keys := KeysOf(items);
    assert keys[0] == Success("1") && keys[1] == Success("2") && keys[2] == Success("3");
    assert [] + ["1"] == ["1"] && ["1"] + ["2"] == ["1", "2"] && ["1", "2"] + ["3"] == ["1", "2", "3"];
    assert StoreKeys(NoEntries, keys, one, 1) == Success(Entries(["1"], map["1" := one]));
    assert StoreKeys(NoEntries, keys, one, 2) == Success(Entries(["1", "2"], map["1" := one, "2" := one]));
  }

  /** `fromkeys({one: 1, two: 2, three: 3}, v)`: an object's key names become the keys, in order. */
  lemma FromKeysOfObject(v: Value)
    ensures var numbers := Obj(Entries(["one", "two", "three"],
              map["one" := Num(Integer(1)), "two" := Num(Integer(2)), "three" := Num(Integer(3))]));
            FromKeysSpec(numbers, v) == Success(Entries(["one", "two", "three"], map["one" := v, "two" := v, "three" := v]))
  {
    var numbers := Obj(Entries(["one", "two", "three"],
      map["one" := Num(Integer(1)), "two" := Num(Integer(2)), "three" := Num(Integer(3))]));
    assert !IsArrayLike(numbers);
    var items := [Str("one"), Str("two"), Str("three")];
    assert Snapshot(numbers) == items;
    var keys := KeysOf(items);
    assert keys[0] == Success("one") && keys[1] == Success("two") && keys[2] == Success("three");
    assert [] + ["one"] == ["one"] && ["one"] + ["two"] == ["one", "two"];
    assert ["one", "two"] + ["three"] == ["one", "two", "three"];
    assert StoreKeys(NoEntries, keys, v, 1) == Success(Entries(["one"], map["one" := v]));
    assert StoreKeys(NoEntries, keys, v, 2) == Success(Entries(["one", "two"], map["one" := v, "two" := v]));
  }

  /** The dictionary the tests start from: `dict({name: 'John', id: 1, age: 20})`. */
  const Person := Entries(["name", "id", "age"],
    map["name" := Str("John"), "id" := Num(Integer(1)), "age" := Num(Integer(20))])

  /** popitem() succeeds three times on it, then throws "dictionary is empty". */
  lemma PopItemThreeTimes()
    ensures PopItems(Person, 3) == Some(NoEntries) && PopItems(Person, 4) == None
  {
    assert Person.Valid();
    PopItemsDrain(Person);
  }

  /**
   * The popitem test as a client of the dictionary object: on
   * `dict({name: 'John', id: 1, age: 20})` the first popitem() returns
   * ['name', 'John'], and the fourth throws "dictionary is empty".
   */
  method PopItemClient() returns (first: Result<Value>, fourth: Result<Value>)
    ensures first == Success(Pair("name", Str("John")))
    ensures fourth == Failure(KeyError("popitem(): dictionary is empty"))
  {
    assert Person.Valid();
    AssignIntoEmpty(Person);
    var created := NewDict(Obj(Person));
    var d := created.value;
    PopFirstKey(Person);
    first := d.PopItem();
    PopFirstKey(d.View());
    var second := d.PopItem();
    PopFirstKey(d.View());
    var third := d.PopItem();
    fourth := d.PopItem();
  }

  /**
   * popitem() called once per own entry of any dictionary: each call is the
   * next step of PopItems, so the dictionary ends empty and one more call
   * throws "dictionary is empty".
   */
  method PopItemUntilEmpty(d: Dict) returns (count: nat, last: Result<Value>)
    requires d.Valid()
    modifies d.own
    ensures d.Valid() && d.View() == NoEntries
    ensures count == |old(d.View()).keys| && PopItems(old(d.View()), count) == Some(NoEntries)
    ensures last == Failure(KeyError(EmptyDictionary))
  {
    ghost var e0 := d.View();
    count := 0;
    while d.own.keys != []
      invariant d.Valid() && PopItems(e0, count) == Some(d.View())
      invariant count + |d.View().keys| == |e0.keys|
      decreases |d.View().keys|
    {
      PopItemsStep(e0, count);
      PopFirstKey(d.View());
      var item := d.PopItem();
      count := count + 1;
    }
    PopItemsDrain(e0);
    last := d.PopItem();
  }

  /** The tests' `beforeEach`: `dict({name: 'John', id: 1, age: 20})`. */
  method NewPerson() returns (d: Dict)
    ensures fresh(d) && fresh(d.own) && d.Valid() && d.View() == Person
  {
    assert Person.Valid();
    AssignIntoEmpty(Person);
    var created := NewDict(Obj(Person));
    d := created.value;
  }

  /** get: an own key gives its value; a missing key gives the default. */
  method GetClient() returns (age: Value, missing: Value)
    ensures age == Num(Integer(20)) && missing == Arr([])
  {
    var d := NewPerson();
    age := d.Get("age", Undefined);
    missing := d.Get("nope", Arr([]));
  }

  /** setdefault: an own key keeps its value; a missing key is set to the default, which is returned. */
  method SetDefaultClient() returns (kept: Value, added: Value, stored: Value)
    ensures kept == Num(Integer(20)) && added == Num(Integer(123)) && stored == Num(Integer(123))
  {
    var d := NewPerson();
    kept := d.SetDefault("age", Num(Integer(123)));
    added := d.SetDefault("nope", Num(Integer(123)));
    stored := d.Get("nope", Undefined);
  }

  /**
   * pop: removes an own key; a missing key without a default throws
   * "KeyError: nope"; "clear", a prototype method, is not an own key.
   */
  method PopClient() returns (age: Result<Value>, missing: Result<Value>, notOwn: Result<Value>, keys: seq<string>)
    ensures age == Success(Num(Integer(20)))
    ensures missing == Failure(Error("KeyError: nope")) && notOwn == Success(Arr([]))
    ensures "age" !in keys && "name" in keys && "id" in keys
  {
    var d := NewPerson();
    age := d.Pop("age", Undefined);
    missing := d.Pop("nope", Undefined);
    assert "KeyError: " + "nope" == "KeyError: nope";
    notOwn := d.Pop("clear", Arr([]));
    keys := d.Keys();
  }

  /** update with `{gender: 'male'}` adds the key gender after the existing ones. */
  method UpdateClient() returns (err: Option<Exception>, keys: seq<string>)
    ensures err == None && keys == ["name", "id", "age", "gender"]
  {
    var d := NewPerson();
    var gender := Entries(["gender"], map["gender" := Str("male")]);
    assert !IsArrayLike(Obj(gender)) && [Obj(gender)][..0] == [];
    var ps := OwnEntries(Obj(gender));
    assert ps == [("gender", Str("male"))] && ps[..0] == [];
    assert SetAll(Person, ps) == Set(SetAll(Person, ps[..0]), "gender", Str("male"));
    assert AssignEntries(Person, [Obj(gender)]) == SetAll(AssignEntries(Person, []), ps);
    assert ["name", "id", "age"] + ["gender"] == ["name", "id", "age", "gender"];
    err := d.Update(Obj(gender));
    keys := d.Keys();
  }

  /** items() lists [key, value] in insertion order; values() the values alone. */
  method ItemsClient() returns (items: seq<Value>, values: seq<Value>)
    ensures items == [Pair("name", Str("John")), Pair("id", Num(Integer(1))), Pair("age", Num(Integer(20)))]
    ensures values == [Str("John"), Num(Integer(1)), Num(Integer(20))]
  {
    var d := NewPerson();
    items := d.Items();
    values := d.Values();
  }

  /** copy() has the same entries; clear() leaves no key, and the copy keeps its own. */
  method CopyClearClient() returns (copied: seq<string>, cleared: seq<string>)
    ensures copied == ["name", "id", "age"] && cleared == []
  {
    var d := NewPerson();
    var c := d.Copy();
    d.Clear();
    copied := c.Keys();
    cleared := d.Keys();
  }

  /** `fromkeys([1, 2, 3], 1)` through the dictionary object: keys "1", "2", "3", each 1. */
  method FromKeysClient() returns (keys: seq<string>, two: Value)
    ensures keys == ["1", "2", "3"] && two == Num(Integer(1))
  {
    FromKeysOfNumbers();
    var made := Dict.FromKeys(Arr([Num(Integer(1)), Num(Integer(2)), Num(Integer(3))]), Num(Integer(1)));
    var d := made.value;
    keys := d.Keys();
    two := d.Get("2", Undefined);
  }
}
