/** The pure helpers of the application's utility module: a recursive merge of
    nested key/value trees, the parameter-map steps of the two URL query
    builders, and the image-size lookup with its fallback. */
module Utils {
  import opened Wrappers

  // ---------------------------------------------------------------------------
  // Deep merge
  // ---------------------------------------------------------------------------

  /** A JSON-like value. Arrays are out of scope (the model has no array
      constructor); numbers are integers. */
  datatype Value = Null | Bool(b: bool) | Num(n: int) | Str(s: string) | Obj(fields: Fields)

  /** The own enumerable properties of an object. */
  type Fields = map<string, Value>

  /** `v && typeof v === "object"`: true exactly for non-null objects, since
      null has type "object" but is falsy and every object is truthy. */
  predicate IsObject(v: Value) {
    v.Obj?
  }

  /** Both sides hold a non-null object under `key`, so the merge recurses. */
  predicate BothObjects(obj1: Fields, obj2: Fields, key: string) {
    key in obj1 && IsObject(obj1[key]) && key in obj2 && IsObject(obj2[key])
  }

  /** Reference definition of merging two non-null objects, key by key:
      a key only in `obj2` keeps its value, a key where both sides are objects
      holds their recursive merge, and every other key of `obj1` takes
      `obj1`'s value. */
  function Merge(obj1: Fields, obj2: Fields): Fields
    decreases Obj(obj1)
  {
    map key | key in obj1.Keys + obj2.Keys ::
      if key !in obj1 then obj2[key]
      else if BothObjects(obj1, obj2, key) then Obj(Merge(obj1[key].fields, obj2[key].fields))
      else obj1[key]
  }

  /** The body of `deepMergeObjects` once `obj2` is known to be present:
      start from a shallow copy of `obj2`, then visit the own keys of `obj1`
      and overwrite each one, recursing where both sides are objects. */
  method MergeObjectFields(obj1: Fields, obj2: Fields) returns (output: Fields)
    ensures output == Merge(obj1, obj2)
    decreases Obj(obj1)
  {
    output := obj2;
    var pending := obj1.Keys;
    while pending != {}
      invariant pending <= obj1.Keys
      invariant output.Keys == obj2.Keys + (obj1.Keys - pending)
      invariant forall key :: key in output ==>
                  output[key] == if key in pending then obj2[key] else Merge(obj1, obj2)[key]
      decreases pending
    {
      var key :| key in pending;
      var value1 := obj1[key];
      if IsObject(value1) && key in obj2 && IsObject(obj2[key]) {
        var sub := MergeObjectFields(value1.fields, obj2[key].fields);
        output := output[key := Obj(sub)];
      } else {
        output := output[key := value1];
      }
      pending := pending - {key};
    }
  }

  /** `deepMergeObjects(obj1, obj2)` where either argument may be null or
      undefined (`None`). An absent `obj2` returns `obj1` itself; an absent
      `obj1` contributes no keys, because a for-in loop over null visits
      nothing. */
  method DeepMergeObjects(obj1: Option<Fields>, obj2: Option<Fields>) returns (r: Option<Fields>)
    ensures obj2.None? ==> r == obj1
    ensures obj2.Some? ==> r == Some(Merge(obj1.GetOr(map[]), obj2.value))
  {
    if obj2.None? {
      return obj1;
    }
    var output := MergeObjectFields(obj1.GetOr(map[]), obj2.value);
    r := Some(output);
  }

  /** The merged object has exactly the keys of both arguments. */
  lemma MergeKeys(obj1: Fields, obj2: Fields)
    ensures Merge(obj1, obj2).Keys == obj1.Keys + obj2.Keys
  {
  }

  /** A key that only `obj2` has keeps `obj2`'s value. */
  lemma MergeSecondOnly(obj1: Fields, obj2: Fields, key: string)
    requires key in obj2 && key !in obj1
    ensures key in Merge(obj1, obj2) && Merge(obj1, obj2)[key] == obj2[key]
  {
  }

  /** Where the two sides are not both objects, `obj1`'s value wins, falsy
      ones (`Null`, `Num(0)`, `Bool(false)`, `Str("")`) included, and even
      when `obj2` holds an object there. */
  lemma MergeFirstWins(obj1: Fields, obj2: Fields, key: string)
    requires key in obj1 && !BothObjects(obj1, obj2, key)
    ensures key in Merge(obj1, obj2) && Merge(obj1, obj2)[key] == obj1[key]
  {
  }

  /** Where both sides are objects, the result holds their recursive merge. */
  lemma MergeRecurses(obj1: Fields, obj2: Fields, key: string)
    requires BothObjects(obj1, obj2, key)
    ensures key in Merge(obj1, obj2)
    ensures Merge(obj1, obj2)[key] == Obj(Merge(obj1[key].fields, obj2[key].fields))
  {
  }

  /** Merging into an absent or empty first object copies `obj2`. */
  lemma MergeIntoEmpty(obj2: Fields)
    ensures Merge(map[], obj2) == obj2
  {
  }

  /** With no key in common, the deep merge is the plain shallow union. */
  lemma MergeDisjoint(obj1: Fields, obj2: Fields)
    requires obj1.Keys !! obj2.Keys
    ensures Merge(obj1, obj2) == obj1 + obj2
  {
  }

  /** Merging an object with itself gives that object back. */
  lemma {:induction false} MergeSelf(obj: Fields)
    ensures Merge(obj, obj) == obj
    decreases Obj(obj)
  {
    forall key | key in obj && IsObject(obj[key])
      ensures Merge(obj[key].fields, obj[key].fields) == obj[key].fields
    {
      MergeSelf(obj[key].fields);
    }
  }

  /** Merging the same second object again changes nothing. */
  lemma {:induction false} MergeIdempotent(obj1: Fields, obj2: Fields)
    ensures Merge(Merge(obj1, obj2), obj2) == Merge(obj1, obj2)
    decreases Obj(obj1)
  {
    var m := Merge(obj1, obj2);
    forall key | key in m
      ensures Merge(m, obj2)[key] == m[key]
    {
      if BothObjects(obj1, obj2, key) {
        MergeIdempotent(obj1[key].fields, obj2[key].fields);
      } else if key !in obj1 && IsObject(obj2[key]) {
        MergeSelf(obj2[key].fields);
      }
    }
  }

  /** Merging the first object over the merged result changes nothing. */
  lemma {:induction false} MergeAbsorbs(obj1: Fields, obj2: Fields)
    ensures Merge(obj1, Merge(obj1, obj2)) == Merge(obj1, obj2)
    decreases Obj(obj1)
  {
    var m := Merge(obj1, obj2);
    forall key | key in m
      ensures Merge(obj1, m)[key] == m[key]
    {
      if BothObjects(obj1, obj2, key) {
        MergeAbsorbs(obj1[key].fields, obj2[key].fields);
      } else if key in obj1 && IsObject(obj1[key]) {
        MergeSelf(obj1[key].fields);
      }
    }
  }

  /** Every leaf of `obj` sits at the same path in `result`, and every object
      of `obj` is matched by an object in `result`. */
  ghost predicate Preserves(result: Fields, obj: Fields)
    decreases Obj(obj)
  {
    forall key | key in obj ::
      && key in result
      && if IsObject(obj[key])
         then IsObject(result[key]) && Preserves(result[key].fields, obj[key].fields)
         else result[key] == obj[key]
  }

  /** `Preserves` is reflexive. */
  lemma {:induction false} PreservesItself(obj: Fields)
    ensures Preserves(obj, obj)
    decreases Obj(obj)
  {
    forall key | key in obj && IsObject(obj[key])
      ensures Preserves(obj[key].fields, obj[key].fields)
    {
      PreservesItself(obj[key].fields);
    }
  }

  /** The first object wins at every depth: all of its leaves survive the
      merge unchanged. */
  lemma {:induction false} MergePreservesFirst(obj1: Fields, obj2: Fields)
    ensures Preserves(Merge(obj1, obj2), obj1)
    decreases Obj(obj1)
  {
    var m := Merge(obj1, obj2);
    forall key | key in obj1 && IsObject(obj1[key])
      ensures IsObject(m[key]) && Preserves(m[key].fields, obj1[key].fields)
    {
      if BothObjects(obj1, obj2, key) {
        MergePreservesFirst(obj1[key].fields, obj2[key].fields);
      } else {
        PreservesItself(obj1[key].fields);
      }
    }
  }

  // ---------------------------------------------------------------------------
  // URL query parameter maps
  // ---------------------------------------------------------------------------

  /** `Object.fromEntries(searchParams.entries())`: the entries in order, a
      later entry overwriting an earlier one with the same key. */
  function FromEntries(entries: seq<(string, string)>): map<string, string>
  {
    if |entries| == 0 then map[]
    else
      var last := entries[|entries| - 1];
      FromEntries(entries[..|entries| - 1])[last.0 := last.1]
  }

  /** A key is in the parameter object exactly when some entry carries it. */
  lemma {:induction false} FromEntriesKey(entries: seq<(string, string)>, key: string)
    ensures key in FromEntries(entries) <==> exists i :: 0 <= i < |entries| && entries[i].0 == key
  {
    if |entries| > 0 {
      var init := entries[..|entries| - 1];
      FromEntriesKey(init, key);
      if key in FromEntries(init) {
        var i :| 0 <= i < |init| && init[i].0 == key;
        assert entries[i].0 == key;
      }
      forall i | 0 <= i < |entries| - 1 && entries[i].0 == key
        ensures key in FromEntries(init)
      {
        assert init[i].0 == key;
      }
    }
  }

  /** The value of a key is that of the last entry carrying it. */
  lemma {:induction false} FromEntriesLastWins(entries: seq<(string, string)>, i: int)
    requires 0 <= i < |entries|
    requires forall j :: i < j < |entries| ==> entries[j].0 != entries[i].0
    ensures entries[i].0 in FromEntries(entries)
    ensures FromEntries(entries)[entries[i].0] == entries[i].1
  {
    if i < |entries| - 1 {
      var init := entries[..|entries| - 1];
      assert init[i] == entries[i];
      forall j | i < j < |init|
        ensures init[j].0 != init[i].0
      {
        assert init[j] == entries[j];
      }
      FromEntriesLastWins(init, i);
    }
  }

  /** A query parameter value as the URL builder accepts it. */
  datatype ParamValue = Text(text: string) | Number(number: int) | Flag(flag: bool)

  /** `{ ...params, [key]: value }`. */
  function SetParam<V>(params: map<string, V>, key: string, value: V): map<string, V>
  {
    params[key := value]
  }

  /** Delete every key of `keys` from `params`. */
  function DropKeys<V>(params: map<string, V>, keys: seq<string>): map<string, V>
  {
    params - set k | k in keys
  }

  /** The parameter object that `formUrlQuery` hands to the query-string
      serializer: the current parameters with `key` set to `value`. */
  function FormUrlQuery(searchParams: seq<(string, string)>, key: string, value: ParamValue): (updated: map<string, ParamValue>)
    ensures updated.Keys == FromEntries(searchParams).Keys + {key}
    ensures updated[key] == value
    ensures forall k :: k in updated && k != key ==> updated[k] == Text(FromEntries(searchParams)[k])
  {
    var current := FromEntries(searchParams);
    SetParam(map k | k in current :: Text(current[k]), key, value)
  }

  /** The parameter object that `removeKeysFromQuery` hands to the
      query-string serializer: each listed key is deleted in turn. The
      following pass that deletes null or undefined values never fires here,
      because every value read from the search parameters is a string. */
  method RemoveKeysFromQuery(searchParams: seq<(string, string)>, keysToRemove: seq<string>)
    returns (current: map<string, string>)
    ensures current.Keys == FromEntries(searchParams).Keys - set k | k in keysToRemove
    ensures forall k :: k in current ==> current[k] == FromEntries(searchParams)[k]
  {
    var original := FromEntries(searchParams);
    current := original;
    var i := 0;
    while i < |keysToRemove|
      invariant 0 <= i <= |keysToRemove|
      invariant current.Keys == original.Keys - set k | k in keysToRemove[..i]
      invariant forall k :: k in current ==> current[k] == original[k]
    {
      assert keysToRemove[..i + 1] == keysToRemove[..i] + [keysToRemove[i]];
      current := current - {keysToRemove[i]};
      i := i + 1;
    }
    assert keysToRemove[..i] == keysToRemove;
  }

  /** The removal is the set difference the reference `DropKeys` describes. */
  lemma RemoveIsDropKeys(params: map<string, string>, keys: seq<string>, removed: map<string, string>)
    requires removed.Keys == params.Keys - set k | k in keys
    requires forall k :: k in removed ==> removed[k] == params[k]
    ensures removed == DropKeys(params, keys)
  {
  }

  /** Setting a parameter twice keeps only the last value. */
  lemma SetParamLastWins<V>(params: map<string, V>, key: string, first: V, second: V)
    ensures SetParam(SetParam(params, key, first), key, second) == SetParam(params, key, second)
  {
  }

  /** Removing a key undoes setting it. */
  lemma DropUndoesSet<V>(params: map<string, V>, key: string, value: V)
    ensures DropKeys(SetParam(params, key, value), [key]) == DropKeys(params, [key])
  {
  }

  /** Removing the same keys again changes nothing. */
  lemma DropKeysIdempotent<V>(params: map<string, V>, keys: seq<string>)
    ensures DropKeys(DropKeys(params, keys), keys) == DropKeys(params, keys)
  {
  }

  // ---------------------------------------------------------------------------
  // Image size
  // ---------------------------------------------------------------------------

  datatype Dimension = Width | Height

  /** The optional dimensions stored with an image. */
  datatype ImageDimensions = ImageDimensions(width: Option<int>, height: Option<int>, aspectRatio: Option<string>)

  /** One entry of the aspect-ratio table. */
  datatype AspectRatioOption = AspectRatioOption(width: int, height: int)

  function Measure(image: ImageDimensions, dimension: Dimension): Option<int> {
    match dimension
    case Width => image.width
    case Height => image.height
  }

  /** `table[ratio]?.[dimension]`: absent when the key is not in the table.
      A missing ratio is used as the property name "undefined". */
  function TableMeasure(table: map<string, AspectRatioOption>, ratio: Option<string>, dimension: Dimension): Option<int> {
    var name := ratio.GetOr("undefined");
    if name in table then
      var option := table[name];
      Some(match dimension case Width => option.width case Height => option.height)
    else None
  }

  /** `x || 1000` on an optional number: missing and 0 are falsy. */
  function OrDefaultSize(x: Option<int>): int {
    if x.Some? && x.value != 0 then x.value else 1000
  }

  /** The dimension looked up by `getImageSize`: in the aspect-ratio table for
      the "fill" transformation, in the image itself otherwise. */
  function SizeSource(table: map<string, AspectRatioOption>, transformation: string, image: ImageDimensions, dimension: Dimension): Option<int> {
    if transformation == "fill" then TableMeasure(table, image.aspectRatio, dimension)
    else Measure(image, dimension)
  }

  function GetImageSize(table: map<string, AspectRatioOption>, transformation: string, image: ImageDimensions, dimension: Dimension): (size: int)
    ensures size != 0
    ensures var found := SizeSource(table, transformation, image, dimension);
            (found.None? || found == Some(0)) ==> size == 1000
    ensures var found := SizeSource(table, transformation, image, dimension);
            found.Some? && found.value != 0 ==> size == found.value
  {
    if transformation == "fill" then OrDefaultSize(TableMeasure(table, image.aspectRatio, dimension))
    else OrDefaultSize(Measure(image, dimension))
  }

  /** Outside "fill", the aspect-ratio table plays no part. */
  lemma ImageSizeIgnoresTable(table1: map<string, AspectRatioOption>, table2: map<string, AspectRatioOption>,
                              transformation: string, image: ImageDimensions, dimension: Dimension)
    requires transformation != "fill"
    ensures GetImageSize(table1, transformation, image, dimension) == GetImageSize(table2, transformation, image, dimension)
  {
  }

  /** For "fill", only the image's aspect ratio matters, not its own width
      or height. */
  lemma FillIgnoresImageDimensions(table: map<string, AspectRatioOption>, image1: ImageDimensions, image2: ImageDimensions, dimension: Dimension)
    requires image1.aspectRatio == image2.aspectRatio
    ensures GetImageSize(table, "fill", image1, dimension) == GetImageSize(table, "fill", image2, dimension)
  {
  }
}
