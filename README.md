# dict — a Python-style dictionary over plain JavaScript objects, modelled in Dafny

KindaSwiss/dict makes a "dictionary" out of a plain JavaScript object. Its own
enumerable properties are the dictionary's entries. Its methods (`clear`,
`get`, `items`, `values`, `keys`, `pop`, `popitem`, `setdefault`, `update`,
`copy`, `fromkeys`) live on a shared prototype, so they are never entries
themselves. `dict(value)` builds one from:

- a plain mapping,
- an array of `[key, value]` pairs,
- an array of two-character strings (the first character is the key, the second the value),
- an array of two-key objects, ordered by the `reverseAlphabet` quirk.

The helpers in `utils.js` decide how a value is treated:

- `isLength`, `isArrayLike`, `isIterable` classify it;
- `getType` gives the tag used in error messages;
- `iterate` walks a snapshot of it;
- `assign` merges objects.

The model has four modules:

- `values.dfy`, module `JsValues`:
  - the JavaScript values the library handles (`Value`), with numbers kept abstract as an integer or as non-integer text;
  - the own-property table of a plain object (`Entries`: keys in enumeration order, plus a map from key to value), and the writes `Set` and `Remove`;
  - JavaScript's conversion of a value to a property key (`PropertyKey`);
  - the mutable object `JsObject`;
  - the four exception kinds.
- `utils.dfy`, module `Utils`:
  - the classification predicates;
  - the snapshot an iterator walks, and the cursor class `Iterator` with `Next` and `Iterate`;
  - `assign`, as the method `Assign` with nested loops, specified by the function `AssignEntries`.
- `dict.dfy`, module `Dicts`:
  - `reverseAlphabet` and the two-element sort;
  - the pair that `update` extracts from each element (`PairAt`, and the method `ReadPair` that reads it through an iterator);
  - `update`, `dict` and `fromkeys` as functions of the entries before the call (`UpdateSpec`, `DictSpec`, `FromKeysSpec`);
  - the class `Dict`, whose methods change its own-property object in place and are proved against those functions;
  - the lemmas relating them.
- `examples.dfy`, module `Examples`: the concrete cases of `test/test.js`, stated on the functions and as client methods of `Dict`.

Three behaviours of the code are easy to misread, and the model keeps them
as written:

- `pop` on a missing key with no default throws a plain `Error` whose message is `"KeyError: " + key` (index.js:160-162). Only `popitem` throws an exception of the KeyError class (index.js:188).
- `update(null)` throws. Only `undefined` is skipped (index.js:234-236); `null` fails the iterability check and throws `"[object Null] is not iterable"` (index.js:238-241).
- `isIterable` accepts every non-null object, whatever its `length` property holds (utils.js:45-47). An object with an invalid length is iterable but not array-like.

## Model

| member | source | states |
|---|---|---|
| JsValues.Lookup | index.js:87-92 | `owns(this, key)` together with `this[key]`: the own value of key, or nothing when key is not an own key |
| JsValues.Set | index.js:282 | the own-property table after `o[k] = v`: k maps to v; an existing key keeps its place, a new key is appended last |
| JsValues.Remove | index.js:157 | the own-property table after `delete o[k]`: k is taken out of the key order and of the values |
| JsValues.SetSpec | index.js:282 | `o[k] = v` keeps the table well formed, gives k the value v, leaves every other key's value unchanged, keeps the order of an existing key, and appends a new key last |
| JsValues.RemoveKey | index.js:157 | removing k from a key list leaves exactly the other keys, keeps them distinct, is the identity when k is absent, and shortens a distinct list holding k by one |
| JsValues.RemoveKeyAt | index.js:157 | `delete o[k]` of a key at position p of the key order leaves the other keys in their order: the keys before p, then the keys after it |
| JsValues.RemoveHead | index.js:191 | removing the first key of a duplicate-free key list leaves its tail |
| JsValues.RemoveSpec | index.js:157 | `delete o[k]` keeps the table well formed, makes k absent, leaves every other key's value unchanged, and shrinks the key list by one when k was owned |
| JsValues.Prefix | index.js:255-283 | the first n entries of a well-formed table form a well-formed table: the state update's pair loop reaches after n elements of an items() array |
| JsValues.PrefixStep | utils.js:113-118 | writing the (n+1)-th entry of a table into its n-entry prefix gives its (n+1)-entry prefix |
| JsValues.PrefixAll | utils.js:112-119 | the prefix of full length is the table itself |
| JsValues.PropertyKey | index.js:279-282 | a string converts to itself as a property key; only an array or an object can fail to convert |
| JsValues.JsObject.Put | index.js:282 | the object's own entries after `this[k] = v` are `Set` of the entries before, still well formed |
| JsValues.JsObject.Delete | index.js:157 | the object's own entries after `delete this[k]` are `Remove` of the entries before, still well formed |
| JsValues.JsObject.constructor | index.js:343 | a new plain object has no own entries |
| Utils.IsLength | utils.js:16-18 | a valid length is an integer number greater than -1 and at most 2^53 - 1; non-integer numbers (fractions, NaN, the infinities) and non-numbers fail |
| Utils.IsArrayLike | utils.js:25-27 | a value is array-like when it is neither undefined nor null and its `length` passes isLength; `length` is the size of a string or array, the own "length" entry of an object, and undefined for booleans and numbers |
| Utils.GetType | utils.js:34-36 | the `Object.prototype.toString` tag of each kind of value, from "[object Undefined]" to "[object Object]" |
| Utils.IsIterable | utils.js:44-52 | a value is iterable when it is an array or a non-null object, or when it is array-like |
| Utils.IsIterableCases | utils.js:44-52 | a value is iterable iff it is an array, an object or a string of valid length; array-like implies iterable; undefined, null, booleans and numbers are neither |
| Utils.Elements | utils.js:72 | the positional copy of an array-like value has exactly its length |
| Utils.Snapshot | utils.js:71-72 | an iterator walks a positional copy of an array-like value, and otherwise the key names `Object.keys` gives |
| Utils.SnapshotLength | utils.js:71-74 | an iterator's length is the element count of an array-like value, and otherwise the number of own keys |
| Utils.NextResult | utils.js:77-89 | the k-th `next()` result holds the k-th snapshot element (undefined past the end), `done` exactly when k is past the end, and index k |
| Utils.DoneStaysDone | utils.js:77-89 | once `next()` reports done, every later call reports done with an undefined value |
| Utils.Iterator.constructor | utils.js:71-74 | a new iterator is at position 0 over its snapshot, and its length equals the snapshot's size |
| Utils.Iterator.Next | utils.js:77-89 | `next()` returns the element at the current position (undefined once past the end), `done` exactly when past the end, and the position; then advances by one |
| Utils.Iterate | utils.js:63-96 | throws the "is not iterable" TypeError exactly for non-iterable values; otherwise returns a fresh iterator at position 0 over the value's snapshot |
| Utils.AssignEntries | utils.js:98-122 | the target's entries after assign: for each source that is not undefined or null, in argument order, its own entries are written in key order |
| Utils.Assign | utils.js:98-122 | a null target throws "Cannot convert first argument to object"; otherwise the target's entries become `AssignEntries` of its old entries and the sources, and the target is returned |
| Utils.SetAllKeepsOrder | utils.js:113-118 | writing entries keeps the table well formed and its old keys first, in their order |
| Utils.SetAllLookup | utils.js:113-118 | after writing a list of entries, a key holds the value of its last entry in the list, or its old value |
| Utils.AssignKeepsOrder | utils.js:98-122 | assign keeps the target well formed and its old keys first, in their order |
| Utils.AssignLaterWins | utils.js:105-120 | a key owned by source i and by no later source ends up with source i's value |
| Utils.AssignKeepsUnowned | utils.js:105-120 | a key no source owns keeps its old value or stays absent |
| Utils.SetAllPrefix | utils.js:112-118 | writing the first n own entries of an object into an empty one gives its n-entry prefix |
| Utils.AssignIntoEmpty | index.js:298-304 | assigning a well-formed object into an empty one reproduces its entries exactly, order included |
| Dicts.ReverseAlphabet | index.js:53-55 | the comparator is the first-character code of b minus that of a, and NaN (None) when either string is empty |
| Dicts.SortPair | index.js:273-277 | sorting two values yields two values |
| Dicts.SortPairOrders | index.js:53-55 | the sort with `reverseAlphabet` is a permutation, leaves first-character codes in descending order, and swaps only when the first value's code is strictly smaller |
| Dicts.PairAt | index.js:256-282 | the pair update takes from element i: undefined or null throws the "cannot convert" TypeError; a non-iterable element throws "is not iterable"; a snapshot whose length is not 2 throws the length ValueError; otherwise the two values, sorted by reverseAlphabet unless the element is array-like, with the first converted to a key |
| Dicts.UpdateSpec | index.js:230-288 | update: undefined changes nothing; a non-iterable value throws; an empty array-like source changes nothing; another array-like source stores the pair of each element in index order and stops at the first failing element; any other source is merged with assign |
| Dicts.DictSpec | index.js:342-357 | dict: undefined and null give no entries; a non-iterable value throws; otherwise the entries (or the exception) of update on an empty dictionary |
| Dicts.FromKeysSpec | index.js:315-328 | fromkeys: a non-iterable source throws; otherwise each value the iterator yields, in order, is converted to a key mapped to prop, and the first failing conversion is thrown |
| Dicts.ItemsOf | index.js:102-110 | items(): one `[key, value]` array per own key, in enumeration order |
| Dicts.ValuesOf | index.js:120-128 | values(): the value of each own key, in enumeration order |
| Dicts.PopItems | index.js:176-193 | n successive popitem() calls: each removes the first own key, and a call on an empty table throws (None) |
| Dicts.ReadPair | index.js:256-280 | reading element x at position i through an iterator gives exactly `PairAt(x, i)`: the null/undefined TypeError, the not-iterable TypeError, the length ValueError, the key-conversion exception, or the pair |
| Dicts.Dict.constructor | index.js:343 | `Object.create(DictProto)` gives a dictionary with no own entries |
| Dicts.Dict.Clear | index.js:66-72 | after clear() the dictionary has no own entries |
| Dicts.Dict.Get | index.js:87-92 | get returns the own value of an owned key (even undefined) and the default otherwise |
| Dicts.Dict.Items | index.js:102-110 | items() is one `[key, value]` array per own key, in enumeration order |
| Dicts.Dict.Values | index.js:120-128 | values() is the value of each own key, in enumeration order |
| Dicts.Dict.Keys | index.js:138-140 | keys() lists every own key exactly once, and position i of items() is keys()[i] paired with values()[i] |
| Dicts.Dict.Pop | index.js:152-165 | an owned key is removed and its value returned, and the other keys keep their order; otherwise nothing changes and the result is the default, or `Error("KeyError: " + key)` when the default is undefined |
| Dicts.Dict.PopItem | index.js:176-193 | an empty dictionary throws KeyError "popitem(): dictionary is empty" and is unchanged; otherwise the first own key is removed and `[key, value]` is returned |
| Dicts.Dict.SetDefault | index.js:208-219 | an owned key returns its value and changes nothing; a missing key is set to the default, which is returned |
| Dicts.Dict.PutPair | index.js:256-282 | one loop step of update: the entries and the exception are one `StorePair` step with element x's pair |
| Dicts.Dict.PutPairs | index.js:255-283 | update's loop leaves the entries and the exception that `StorePairs` gives for all elements, stopping at the first failing element |
| Dicts.Dict.Update | index.js:230-288 | the entries and exception after update(value) are exactly `UpdateSpec` of the entries before |
| Dicts.Dict.Copy | index.js:298-304 | copy() is a fresh dictionary with the same entries in the same order |
| Dicts.Dict.PutKey | index.js:324 | fromkeys' step `result[value] = prop` is one `StoreKey` step: the key is written, or its conversion exception reported |
| Dicts.Dict.PutEach | index.js:323-325 | fromkeys' loop gives the entries (or the exception) that `StoreKeys` gives for every iterated value |
| Dicts.Dict.FromKeys | index.js:315-328 | fromkeys returns a fresh dictionary whose entries are `FromKeysSpec`, or that function's exception |
| Dicts.NewDict | index.js:342-357 | dict(value) returns a fresh dictionary whose entries are `DictSpec(value)`, or that function's exception |
| Dicts.StoreNextElement | index.js:255-283 | storing one more element is one `StorePair` step with that element's pair |
| Dicts.FailureIsFinal | index.js:265-266 | once an element has thrown, later elements change nothing |
| Dicts.FailedUpdateKeepsEarlierWrites | index.js:255-283 | when element i is the first to fail, update throws its exception and keeps what elements 0..i-1 wrote |
| Dicts.StoreSucceedsIffAllPairs | index.js:255-283 | the store succeeds iff every element yields a pair |
| Dicts.LastPairWins | index.js:282 | a key whose last pair is at position i holds that pair's value afterwards |
| Dicts.UnpairedKeyUnchanged | index.js:282 | a key that no pair names keeps its old value |
| Dicts.StoreKeepsValid | index.js:282 | storing pairs keeps the own-entry table well formed |
| Dicts.UpdateKeepsValid | index.js:230-288 | update keeps the own-entry table well formed, whatever the source |
| Dicts.UpdateNonPairCases | index.js:234-250 | undefined is a no-op; a non-iterable value (null included) throws "<tag> is not iterable"; an empty array-like source is a no-op; a keyed source is merged with assign |
| Dicts.ArrayLikePairInOrder | index.js:273-282 | an array-like element of length 2 gives its two elements in order, the first converted to the key |
| Dicts.TwoKeyObjectPair | index.js:269-279 | a two-key object gives its key name with the larger first-character code as the key and the other name as the value; on a tie the first name is the key |
| Dicts.WrongLengthPair | index.js:263-267 | an iterable element whose snapshot is not of length 2 throws the length ValueError |
| Dicts.ItemPair | index.js:102-110 | the pair read from an items() entry is its key and value |
| Dicts.StoreItemsPrefix | index.js:102-110 | storing the first n items of a table into an empty dictionary gives its n-entry prefix |
| Dicts.StoreEntriesPrefix | index.js:255-283 | storing, in order, n pairs that list a table's first n entries into an empty dictionary gives its n-entry prefix, with no exception |
| Dicts.StoreEntryStep | index.js:255-283 | storing the n-th entry after the first n - 1 entries extends the (n - 1)-entry prefix to the n-entry prefix |
| Dicts.ItemsAreArrayLike | index.js:243-247 | the items() array is an array-like source whose elements are the items themselves |
| Dicts.DictOfItems | index.js:342-357 | round trip: `dict(d.items())` has the same entries as d, in the same order |
| Dicts.DictIsUpdateOfEmpty | index.js:342-357 | dict(undefined) and dict(null) are empty; other non-iterables throw; otherwise dict(v) is update(v) on an empty dictionary |
| Dicts.StoreNextKey | index.js:323-325 | storing one more iterated key is one `StoreKey` step, and a failing step is final |
| Dicts.StoreKeysFailureIsFinal | index.js:323-325 | once a key conversion has thrown, later values change nothing |
| Dicts.StoreKeysSucceedsIffAllKeys | index.js:323-325 | fromkeys' store succeeds iff every iterated value converts to a property key |
| Dicts.StoreKeysKeepsValid | index.js:324 | storing keys keeps the own-entry table well formed |
| Dicts.StoreKeysMapsEach | index.js:324 | after a successful store, every converted key maps to prop |
| Dicts.StoreKeysAddsOnlyThese | index.js:324 | a successful store adds no key other than the converted ones |
| Dicts.FromKeysMapsEach | index.js:315-328 | a successful fromkeys maps each iterated value's key to prop, and has no other keys |
| Dicts.PopFirstKey | index.js:176-193 | popitem on a non-empty table removes exactly the first key |
| Dicts.PopItemsStep | index.js:176-193 | after i successful popitem() calls, the next one removes the first remaining key, or throws when none is left |
| Dicts.PopItemsDrain | index.js:176-193 | a dictionary with n own entries allows exactly n popitem() calls, which empty it; the next one throws |
| Examples.IsIterableCasesFromTests | test/test.js:12-22 | '', {} and [] are iterable; null, undefined, false, true, NaN and Infinity are not |
| Examples.IsArrayLikeCasesFromTests | test/test.js:28-41 | '', [] and {0: 0, length: 1} are array-like; {0: 0}, {}, null, undefined, the booleans, NaN and Infinity are not |
| Examples.DictOfEmptySources | test/test.js:74-79 | dict('') and dict([]) are empty and do not throw |
| Examples.DictOfOnePair | index.js:255-283 | a one-element array whose element yields (k, v) gives the single entry k: v |
| Examples.DictOfOneFailure | index.js:255-283 | a one-element array whose element fails throws that element's exception |
| Examples.DictOfString | test/test.js:88-90 | dict(['hi']) is {h: 'i'} |
| Examples.DictOfNumberPair | test/test.js:91-93 | dict([[1, 2]]) is {'1': 2} |
| Examples.DictOfTwoKeyObject | test/test.js:81-85 | dict([{name: 'John', age: 20}]) is {name: 'age'} |
| Examples.CannotConvertMessage | test/test.js:96-100 | the element-0 TypeError message reads "cannot convert dictionary sequence element #0 to a sequence" |
| Examples.BadLengthOneMessage | test/test.js:102-110 | the length-1 ValueError message for element 0 is spelled out |
| Examples.BadLengthThreeMessage | test/test.js:112-116 | the length-3 ValueError message for element 0 is spelled out |
| Examples.DictOfNull | test/test.js:96-100 | dict([null]) throws the TypeError for element #0 |
| Examples.DictOfOneItemArray | test/test.js:103-105 | dict([['name']]) throws the length-1 ValueError |
| Examples.DictOfOneNullArray | test/test.js:107-109 | dict([[null]]) throws the same length-1 ValueError |
| Examples.DictOfThreeKeyObject | test/test.js:112-116 | dict([{name, age, likes}]) throws the length-3 ValueError |
| Examples.FromKeysOfNumbers | test/test.js:338-346 | fromkeys([1, 2, 3], 1) is {'1': 1, '2': 1, '3': 1} |
| Examples.FromKeysOfObject | test/test.js:348-357 | fromkeys({one, two, three}, v) maps the key names one, two, three to v, in that order |
| Examples.PopItemThreeTimes | test/test.js:257-266 | popitem succeeds three times on the three-entry test dictionary, then throws |
| Examples.PopItemUntilEmpty | index.js:176-193 | calling popitem() on any dictionary until it is empty takes exactly as many calls as it has entries, each being the next step of `PopItems`, and one more call throws "popitem(): dictionary is empty" |
| Examples.NewPerson | test/test.js:62-64 | dict({name: 'John', id: 1, age: 20}) is a fresh dictionary with exactly those entries |
| Examples.PopItemClient | test/test.js:249-266 | on the test dictionary, the first popitem() returns ['name', 'John'] and the fourth throws "popitem(): dictionary is empty" |
| Examples.GetClient | test/test.js:128-145 | get('age') is 20, and get('nope', []) is the default |
| Examples.SetDefaultClient | test/test.js:270-304 | setdefault('age', 123) is 20; setdefault('nope', 123) returns 123 and stores it |
| Examples.PopClient | test/test.js:209-245 | pop('age') returns 20 and removes the key; pop('nope') throws "KeyError: nope"; pop('clear', []) returns the default |
| Examples.UpdateClient | test/test.js:306-320 | update({gender: 'male'}) appends the key gender after name, id, age |
| Examples.ItemsClient | test/test.js:147-191 | items() and values() list name, id, age in insertion order |
| Examples.CopyClearClient | test/test.js:118-126 | a copy keeps name, id, age after the original is cleared; the cleared dictionary has no keys |
| Examples.FromKeysClient | test/test.js:338-346 | the dictionary returned by fromkeys([1, 2, 3], 1) has keys "1", "2", "3", and get('2') is 1 |

## Left out

- Function values: the code treats functions as iterable (they pass `typeof value === 'function'`), but a function is not a `Value` here. Calling a non-callable `toString` is modelled as the conversion TypeError.
- Floating point: numbers other than integers are opaque text (`NonInteger`). `isLength` therefore rejects every fraction, NaN and infinity. Arithmetic on them, and the text JavaScript prints for them, are not modelled. Integers are unbounded, and `PropertyKey` prints each in full decimal: JavaScript prints integers of magnitude 10^21 and above in exponent form ("1e+21"), and integers beyond 2^53 are not exactly representable as JavaScript numbers at all.
- Integer-like keys: JavaScript enumerates own keys that look like array indices first, in ascending numeric order. The model enumerates every key in insertion order.
- Prototypes, property descriptors and `__proto__`: a dictionary's own entries are a plain table. Inherited, non-enumerable and accessor properties are not modelled, and neither is `__proto__` as a key. `assign`'s `desc.enumerable` check always holds for the sources modelled.
- Primitive and array targets of `assign`: the target is a `JsObject` or null. Wrapping a primitive target with `Object(target)` is not modelled.
- Aliasing: a dictionary never shares its own-property object with another. `dict(d)`, where d is a dictionary, is modelled by its entries (`Dict.ToValue`). Likewise the source of `update` (index.js:234-287), and any dictionary inside it, is read as its entries at the time of the call: JavaScript reads `value[index]` live while the loop writes into `this` (index.js:256, 282), so `d.update([['c', 'd'], d])` there sees d already holding c and stores c: 'a' for d = {a: 'b'}, whereas the model sees d as {a} and throws the length ValueError for element #1.
- Strings are sequences of characters. UTF-16 code units versus code points, and `charCodeAt` on surrogate pairs, are not distinguished.
- `Dicts.Dict.Get`, `Dicts.Dict.Pop`, `Dicts.Dict.SetDefault`: their key is a string. A non-string key, converted with ToString by JavaScript, is not modelled for these three; `update` and `fromkeys` do convert their keys (`PropertyKey`).
- `fromkeys` assigns to an undeclared `next`, which creates a global variable. That global side effect is not modelled.
- The `util` module import (index.js:2) is not part of this model.
- index.js reads fourteen helpers from utils.js (index.js:5-22) that utils.js does not export (utils.js:124-131), so each of them is undefined. `ArrayHas`, `ArrayHasItems`, `ArrayRemove`, `ArrayRemoveItems`, `getIndex`, `all`, `any`, `isNumber`, `isObject` and `len` are never called. `owns`, `ObjectWalk`, `extend` and `iterator` are called by get, items, values, pop, popitem, setdefault, update, copy and fromkeys (index.js:88, 105, 123, 155, 180, 211, 263, 286, 301, 320); with the files as they stand, each of those calls throws TypeError "... is not a function", so that `dict({name: 'John', id: 1, age: 20})` of test/test.js:63 already throws at `extend` (index.js:286). The model does not reproduce these TypeErrors; it gives the four called helpers the meaning their names and call sites intend:
  - `owns` as the own-key test;
  - `ObjectWalk` as a walk over the own keys in order;
  - `extend` as `assign`;
  - `iterator(v, true)` as `iterate(v)`.
- The error classes (`KeyError` and `ValueError` built on `Error.prototype`) are the constructors of the `Exception` datatype. Their `name`/`message` fields and the prototype chain are not modelled.
- The second argument of `iterator(v, true)` (index.js:263, 320), by its look a request to reuse one result object: `iterate` in utils.js takes a single argument, so the flag has no effect in the model.
- `Utils.Elements`, `Utils.Snapshot`, `Utils.Iterate`, `Dicts.PairAt`, `Dicts.FromKeysSpec`: `Array.prototype.slice.call(value, 0)` (utils.js:72) throws a RangeError when an array-like object's length is above 2^32 - 1, the largest array length. The model has no RangeError and gives such a value a snapshot of its full length instead, so where JavaScript throws the RangeError (iterate, fromkeys, and update for such an element at index.js:263) the model iterates, or throws the length ValueError.
- `Dicts.SortPair`: its own contract states only the length; what the sort promises (permutation, order, when it swaps) is stated by `Dicts.SortPairOrders`.
