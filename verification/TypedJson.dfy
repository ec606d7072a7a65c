// The typed JSON codec: objects are written with their type and module, and a
// hook that sees every JSON object, innermost first, puts them back.
module TypedJson {
  import opened Common

  datatype Atom = Null | Bool(b: bool) | Int(i: int) | Float(r: real) | Str(s: string)

  datatype Field<T> = Field(key: string, value: T)

  /** Values the encoder walks: an Obj is an instance of a BaseType class with its attributes. */
  datatype Value =
    | Leaf(atom: Atom)
    | List(items: seq<Value>)
    | Tuple(items: seq<Value>)
    | Dict(entries: seq<Field<Value>>)
    | Obj(module_: string, class_: string, entries: seq<Field<Value>>)

  datatype Json = JLeaf(atom: Atom) | JList(items: seq<Json>) | JDict(entries: seq<Field<Json>>)

  function TypeName(a: Atom): string {
    match a
    case Null => "NoneType"
    case Bool(_) => "bool"
    case Int(_) => "int"
    case Float(_) => "float"
    case Str(_) => "str"
  }

  /** lstrip("_") */
  function Stripped(s: string): string {
    if s != "" && s[0] == '_' then Stripped(s[1..]) else s
  }

  function Keys<T>(fields: seq<Field<T>>): seq<string> {
    seq(|fields|, i requires 0 <= i < |fields| => fields[i].key)
  }

  function IndexOf<T>(fields: seq<Field<T>>, key: string): (k: nat)
    ensures k <= |fields|
    ensures k < |fields| ==> fields[k].key == key
    ensures forall i :: 0 <= i < k ==> fields[i].key != key
  {
    if fields == [] || fields[0].key == key then 0 else 1 + IndexOf(fields[1..], key)
  }

  predicate HasKey<T>(fields: seq<Field<T>>, key: string) {
    IndexOf(fields, key) < |fields|
  }

  function Get<T>(fields: seq<Field<T>>, key: string): T
    requires HasKey(fields, key)
  {
    fields[IndexOf(fields, key)].value
  }

  /** Writing a key of a dictionary: in place if it is there. */
  function Put<T>(fields: seq<Field<T>>, f: Field<T>): seq<Field<T>> {
    if HasKey(fields, f.key) then fields[IndexOf(fields, f.key) := f] else fields + [f]
  }

  /** Writing the fields one after the other into an empty dictionary. */
  function Collapsed<T>(fields: seq<Field<T>>): seq<Field<T>> {
    if fields == [] then [] else Put(Collapsed(fields[..|fields| - 1]), fields[|fields| - 1])
  }

  // ------------------------------------------------------------------
  // Encoding
  // ------------------------------------------------------------------

  function Typed(name: string, data: Json, module_: Atom): Json {
    JDict([Field("type", JLeaf(Str(name))), Field("data", data), Field("module", JLeaf(module_))])
  }

  /** An object's attributes under the names they are written with. */
  function Named(fs: seq<Field<Value>>): (r: seq<Field<Value>>)
    ensures |r| == |fs| && forall i :: 0 <= i < |fs| ==> r[i] == Field(Stripped(fs[i].key), fs[i].value)
  {
    seq(|fs|, i requires 0 <= i < |fs| => Field(Stripped(fs[i].key), fs[i].value))
  }

  /** to_dict_with_type. */
  function Encode(v: Value): Json {
    match v
    case Leaf(a) => Typed(TypeName(a), JLeaf(a), Null)
    case List(items) => Typed("list", JList(seq(|items|, i requires 0 <= i < |items| => Encode(items[i]))), Null)
    case Tuple(items) => Typed("tuple", JList(seq(|items|, i requires 0 <= i < |items| => Encode(items[i]))), Null)
    case Dict(fs) => Typed("dict", JDict(seq(|fs|, i requires 0 <= i < |fs| => Field(fs[i].key, Encode(fs[i].value)))), Null)
    case Obj(m, c, fs) =>
      Typed(c, JDict(Collapsed(seq(|fs|, i requires 0 <= i < |fs| => Field(Stripped(fs[i].key), Encode(fs[i].value))))), Str(m))
  }

  function EncodedItems(items: seq<Value>): (r: seq<Json>)
    ensures |r| == |items| && forall i :: 0 <= i < |items| ==> r[i] == Encode(items[i])
  {
    seq(|items|, i requires 0 <= i < |items| => Encode(items[i]))
  }

  /** The fields as JSON. */
  function Encoded(fs: seq<Field<Value>>): (r: seq<Field<Json>>)
    ensures |r| == |fs| && forall i :: 0 <= i < |fs| ==> r[i] == Field(fs[i].key, Encode(fs[i].value))
  {
    seq(|fs|, i requires 0 <= i < |fs| => Field(fs[i].key, Encode(fs[i].value)))
  }

  lemma EncodeParts(v: Value)
    ensures v.List? ==> Encode(v) == Typed("list", JList(EncodedItems(v.items)), Null)
    ensures v.Tuple? ==> Encode(v) == Typed("tuple", JList(EncodedItems(v.items)), Null)
    ensures v.Dict? ==> Encode(v) == Typed("dict", JDict(Encoded(v.entries)), Null)
    ensures v.Obj? ==> Encode(v) == Typed(v.class_, JDict(Collapsed(Encoded(Named(v.entries)))), Str(v.module_))
  {
    if v.Obj? {
      var fs := v.entries;
      assert Encoded(Named(fs)) == seq(|fs|, i requires 0 <= i < |fs| => Field(Stripped(fs[i].key), Encode(fs[i].value)));
    }
  }

  /** The name under which each kind of value is written. */
  lemma TypeNames(v: Value)
    ensures Encode(v).JDict? && |Encode(v).entries| == 3
    ensures Keys(Encode(v).entries) == ["type", "data", "module"]
    ensures var name := Encode(v).entries[0].value;
      && (v == Leaf(Null) ==> name == JLeaf(Str("NoneType"))) && (v.Leaf? && v.atom.Bool? ==> name == JLeaf(Str("bool")))
      && (v.Leaf? && v.atom.Int? ==> name == JLeaf(Str("int"))) && (v.Leaf? && v.atom.Float? ==> name == JLeaf(Str("float")))
      && (v.Leaf? && v.atom.Str? ==> name == JLeaf(Str("str"))) && (v.List? ==> name == JLeaf(Str("list")))
      && (v.Tuple? ==> name == JLeaf(Str("tuple"))) && (v.Dict? ==> name == JLeaf(Str("dict")))
      && (v.Obj? ==> name == JLeaf(Str(v.class_)))
  {
    EncodeParts(v);
  }

  /** The same walk as the source takes it: lists and dictionaries are filled in loops. */
  method ToDictWithType(v: Value) returns (j: Json)
    ensures j == Encode(v)
    decreases v, 1
  {
    EncodeParts(v);
    match v
    case Leaf(a) =>
      j := Typed(TypeName(a), JLeaf(a), Null);
    case List(items) =>
      var data := EncodeItems(v, items);
      j := Typed("list", JList(data), Null);
    case Tuple(items) =>
      var data := EncodeItems(v, items);
      j := Typed("tuple", JList(data), Null);
    case Dict(fs) =>
      var data := EncodeEntries(v, fs);
      j := Typed("dict", JDict(data), Null);
    case Obj(m, c, fs) =>
      var data := EncodeAttributes(v, fs);
      j := Typed(c, JDict(data), Str(m));
  }

  method EncodeItems(ghost whole: Value, items: seq<Value>) returns (data: seq<Json>)
    requires forall i :: 0 <= i < |items| ==> items[i] < whole
    ensures data == EncodedItems(items)
    decreases whole, 0
  {
    hide Encode;
    data := [];
    for i := 0 to |items|
      invariant |data| == i && forall k :: 0 <= k < i ==> data[k] == Encode(items[k])
    {
      var d := ToDictWithType(items[i]);
      data := data + [d];
    }
  }

  method EncodeEntries(ghost whole: Value, fs: seq<Field<Value>>) returns (data: seq<Field<Json>>)
    requires forall i :: 0 <= i < |fs| ==> fs[i].value < whole
    ensures data == Encoded(fs)
    decreases whole, 0
  {
    hide Encode;
    data := [];
    for i := 0 to |fs|
      invariant |data| == i && forall k :: 0 <= k < i ==> data[k] == Field(fs[k].key, Encode(fs[k].value))
    {
      var d := ToDictWithType(fs[i].value);
      data := data + [Field(fs[i].key, d)];
    }
  }

  method EncodeAttributes(ghost whole: Value, fs: seq<Field<Value>>) returns (data: seq<Field<Json>>)
    requires forall i :: 0 <= i < |fs| ==> fs[i].value < whole
    ensures data == Collapsed(Encoded(Named(fs)))
    decreases whole, 0
  {
    hide Encode;
    data := [];
    ghost var all := Encoded(Named(fs));
    assert all[..0] == [];
    for i := 0 to |fs|
      invariant data == Collapsed(all[..i])
    {
      var d := ToDictWithType(fs[i].value);
      assert all[..i + 1][..i] == all[..i];
      data := Put(data, Field(Stripped(fs[i].key), d));
    }
    assert all[..|fs|] == all;
  }

  // ------------------------------------------------------------------
  // Decoding
  // ------------------------------------------------------------------

  function AllValues(opts: seq<Option<Value>>): Option<seq<Value>> {
    if forall i :: 0 <= i < |opts| ==> opts[i].Some?
    then Some(seq(|opts|, i requires 0 <= i < |opts| => opts[i].value))
    else None
  }

  /** from_dict_hook; None is an exception: no "module", or a class call with something else than keywords. */
  function Hook(fields: seq<Field<Value>>): Option<Value> {
    if HasKey(fields, "type") && HasKey(fields, "data") then
      if !HasKey(fields, "module") then None
      else if Get(fields, "module") == Leaf(Null) then Some(Get(fields, "data"))
      else
        match (Get(fields, "module"), Get(fields, "type"), Get(fields, "data"))
        case (Leaf(Str(m)), Leaf(Str(t)), Dict(fs)) => Some(Obj(m, t, fs))
        case _ => None
    else Some(Dict(fields))
  }

  function WithKeys<T>(fields: seq<Field<T>>, values: seq<Value>): seq<Field<Value>>
    requires |fields| == |values|
  {
    seq(|fields|, i requires 0 <= i < |fields| => Field(fields[i].key, values[i]))
  }

  /** json_loads with the hook, applied bottom up. */
  function Decode(j: Json): Option<Value> {
    match j
    case JLeaf(a) => Some(Leaf(a))
    case JList(items) =>
      (match AllValues(seq(|items|, i requires 0 <= i < |items| => Decode(items[i])))
       case None => None
       case Some(values) => Some(List(values)))
    case JDict(fs) =>
      (match AllValues(seq(|fs|, i requires 0 <= i < |fs| => Decode(fs[i].value)))
       case None => None
       case Some(values) => if |values| == |fs| then Hook(WithKeys(fs, values)) else None)
  }

  /** What comes back at best: tuples as lists, attribute names without leading underscores. */
  function Normal(v: Value): Value {
    match v
    case Leaf(_) => v
    case List(items) => List(seq(|items|, i requires 0 <= i < |items| => Normal(items[i])))
    case Tuple(items) => List(seq(|items|, i requires 0 <= i < |items| => Normal(items[i])))
    case Dict(fs) => Dict(seq(|fs|, i requires 0 <= i < |fs| => Field(fs[i].key, Normal(fs[i].value))))
    case Obj(m, c, fs) => Obj(m, c, seq(|fs|, i requires 0 <= i < |fs| => Field(Stripped(fs[i].key), Normal(fs[i].value))))
  }

  predicate DistinctKeys<T>(fields: seq<Field<T>>) {
    forall i, j :: 0 <= i < j < |fields| ==> fields[i].key != fields[j].key
  }

  /** A dictionary the hook takes for a typed value. */
  predicate LooksTyped<T>(fields: seq<Field<T>>) {
    HasKey(fields, "type") && HasKey(fields, "data")
  }

  /** No dictionary and no attribute set inside looks typed, and no two attributes share a written name. */
  ghost predicate Clean(v: Value) {
    match v
    case Leaf(_) => true
    case List(items) => forall i :: 0 <= i < |items| ==> Clean(items[i])
    case Tuple(items) => forall i :: 0 <= i < |items| ==> Clean(items[i])
    case Dict(fs) => !LooksTyped(fs) && forall i :: 0 <= i < |fs| ==> Clean(fs[i].value)
    case Obj(_, _, fs) =>
      DistinctKeys(Named(fs)) && !LooksTyped(Named(fs)) && forall i :: 0 <= i < |fs| ==> Clean(fs[i].value)
  }

  // ------------------------------------------------------------------
  // What comes back
  // ------------------------------------------------------------------

  function Back(v: Value): Option<Value> {
    Decode(Encode(v))
  }

  function Backs(items: seq<Value>): (r: seq<Option<Value>>)
    ensures |r| == |items| && forall i :: 0 <= i < |items| ==> r[i] == Back(items[i])
  {
    seq(|items|, i requires 0 <= i < |items| => Back(items[i]))
  }

  function Values(fs: seq<Field<Value>>): (r: seq<Value>)
    ensures |r| == |fs| && forall i :: 0 <= i < |fs| ==> r[i] == fs[i].value
  {
    seq(|fs|, i requires 0 <= i < |fs| => fs[i].value)
  }

  lemma AllValuesIs(opts: seq<Option<Value>>)
    ensures AllValues(opts).Some? <==> forall i :: 0 <= i < |opts| ==> opts[i].Some?
    ensures AllValues(opts).Some? ==> |AllValues(opts).value| == |opts|
    ensures AllValues(opts).Some? ==> forall i :: 0 <= i < |opts| ==> opts[i] == Some(AllValues(opts).value[i])
  {
  }

  lemma DecodeThree(f: Field<Json>, g: Field<Json>, h: Field<Json>)
    ensures Decode(JDict([f, g, h])) ==
      if Decode(f.value).Some? && Decode(g.value).Some? && Decode(h.value).Some?
      then Hook([Field(f.key, Decode(f.value).value), Field(g.key, Decode(g.value).value), Field(h.key, Decode(h.value).value)])
      else None
  {
    hide Hook;
    var fs := [f, g, h];
    var opts := seq(3, i requires 0 <= i < 3 => Decode(fs[i].value));
    assert opts == [Decode(f.value), Decode(g.value), Decode(h.value)];
    AllValuesIs(opts);
    if AllValues(opts).Some? {
      assert WithKeys(fs, AllValues(opts).value)
        == [Field(f.key, opts[0].value), Field(g.key, opts[1].value), Field(h.key, opts[2].value)];
      assert opts[0].Some? && opts[1].Some? && opts[2].Some?;
    }
  }

  /** The wrapper: without a module the data comes back, with one an object built from the data's fields. */
  lemma DecodeTyped(name: string, data: Json, module_: Atom)
    requires module_.Null? || module_.Str?
    ensures Decode(Typed(name, data, module_)) ==
      match Decode(data)
      case None => None
      case Some(x) => if module_.Null? then Some(x) else if x.Dict? then Some(Obj(module_.s, name, x.entries)) else None
  {
    DecodeThree(Field("type", JLeaf(Str(name))), Field("data", data), Field("module", JLeaf(module_)));
    assert Decode(JLeaf(Str(name))) == Some(Leaf(Str(name))) && Decode(JLeaf(module_)) == Some(Leaf(module_));
    hide Decode;
    if Decode(data).Some? {
      ThreeKeys([Field("type", Leaf(Str(name))), Field("data", Decode(data).value), Field("module", Leaf(module_))]);
    }
  }

  lemma ThreeKeys(fs: seq<Field<Value>>)
    requires |fs| == 3 && fs[0].key == "type" && fs[1].key == "data" && fs[2].key == "module"
    ensures IndexOf(fs, "type") == 0 && IndexOf(fs, "data") == 1 && IndexOf(fs, "module") == 2
  {
    assert fs[0].key != fs[1].key && fs[0].key != fs[2].key && fs[1].key != fs[2].key by {
      assert |fs[0].key| == 4 && |fs[1].key| == 4 && fs[0].key[0] == 't' && fs[1].key[0] == 'd' && |fs[2].key| == 6;
    }
  }

  lemma BackList(items: seq<Value>)
    ensures Back(List(items)) == Back(Tuple(items))
    ensures Back(List(items)) ==
      match AllValues(Backs(items))
      case None => None
      case Some(values) => Some(List(values))
  {
    var js := seq(|items|, i requires 0 <= i < |items| => Encode(items[i]));
    assert seq(|js|, i requires 0 <= i < |js| => Decode(js[i])) == Backs(items);
    DecodeTyped("list", JList(js), Null);
    DecodeTyped("tuple", JList(js), Null);
  }

  lemma DecodeFields(fs: seq<Field<Value>>)
    ensures Decode(JDict(Encoded(fs))) ==
      match AllValues(Backs(Values(fs)))
      case None => None
      case Some(values) => if |values| == |fs| then Hook(WithKeys(fs, values)) else None
  {
    var js := Encoded(fs);
    var opts := seq(|js|, i requires 0 <= i < |js| => Decode(js[i].value));
    assert opts == Backs(Values(fs));
    AllValuesIs(opts);
    if AllValues(opts).Some? {
      assert WithKeys(js, AllValues(opts).value) == WithKeys(fs, AllValues(opts).value);
    }
  }

  lemma BackDict(fs: seq<Field<Value>>)
    ensures Back(Dict(fs)) == Decode(JDict(Encoded(fs)))
  {
    DecodeTyped("dict", JDict(Encoded(fs)), Null);
  }

  lemma {:induction false} CollapsedEncoded(fs: seq<Field<Value>>)
    ensures Collapsed(Encoded(fs)) == Encoded(Collapsed(fs))
  {
    if fs != [] {
      var front, last := fs[..|fs| - 1], fs[|fs| - 1];
      CollapsedEncoded(front);
      assert Encoded(fs)[..|fs| - 1] == Encoded(front);
      var done := Collapsed(front);
      SameIndex(done, Encoded(done), last.key);
      var f := Field(last.key, Encode(last.value));
      assert Put(Encoded(done), f) == Encoded(Put(done, last));
    } else {
      assert Encoded(fs) == [];
    }
  }

  lemma {:induction false} SameIndex<T, U>(fs: seq<Field<T>>, gs: seq<Field<U>>, key: string)
    requires |fs| == |gs| && forall i :: 0 <= i < |fs| ==> fs[i].key == gs[i].key
    ensures IndexOf(fs, key) == IndexOf(gs, key)
  {
    if fs != [] && fs[0].key != key {
      SameIndex(fs[1..], gs[1..], key);
    }
  }

  lemma EncodeObj(m: string, c: string, fs: seq<Field<Value>>)
    ensures Encode(Obj(m, c, fs)) == Typed(c, JDict(Encoded(Collapsed(Named(fs)))), Str(m))
  {
    EncodeParts(Obj(m, c, fs));
    CollapsedEncoded(Named(fs));
  }

  lemma BackObj(m: string, c: string, fs: seq<Field<Value>>)
    ensures Back(Obj(m, c, fs)) ==
      match Back(Dict(Collapsed(Named(fs))))
      case None => None
      case Some(x) => if x.Dict? then Some(Obj(m, c, x.entries)) else None
  {
    hide Encode, Decode, Typed, Collapsed, Named, Encoded;
    EncodeObj(m, c, fs);
    BackDict(Collapsed(Named(fs)));
    DecodeTyped(c, JDict(Encoded(Collapsed(Named(fs)))), Str(m));
  }

  // ------------------------------------------------------------------
  // Collapsing
  // ------------------------------------------------------------------

  lemma {:induction false} KeyOf<T>(fs: seq<Field<T>>, key: string)
    ensures HasKey(fs, key) <==> exists i :: 0 <= i < |fs| && fs[i].key == key
  {
  }

  lemma PutFacts(c: seq<Field<Value>>, f: Field<Value>)
    requires DistinctKeys(c)
    ensures DistinctKeys(Put(c, f))
    ensures |Put(c, f)| == if HasKey(c, f.key) then |c| else |c| + 1
    ensures forall i :: 0 <= i < |Put(c, f)| ==> Put(c, f)[i] == f || Put(c, f)[i] in c
    ensures forall key :: HasKey(Put(c, f), key) <==> HasKey(c, key) || key == f.key
  {
    forall key ensures HasKey(Put(c, f), key) <==> HasKey(c, key) || key == f.key {
      KeyOf(c, key);
      KeyOf(Put(c, f), key);
      if i :| 0 <= i < |c| && c[i].key == key {
        assert Put(c, f)[i].key == key;
      }
      assert key == f.key ==> Put(c, f)[IndexOf(c, key)] == f;
    }
  }

  lemma {:induction false} CollapsedFacts(fs: seq<Field<Value>>)
    ensures var c := Collapsed(fs);
      && DistinctKeys(c) && |c| <= |fs|
      && (forall i :: 0 <= i < |c| ==> c[i] in fs)
      && (forall key :: HasKey(c, key) <==> HasKey(fs, key))
  {
    hide IndexOf;
    if fs != [] {
      var front, last := fs[..|fs| - 1], fs[|fs| - 1];
      CollapsedFacts(front);
      PutFacts(Collapsed(front), last);
      forall key ensures HasKey(fs, key) <==> HasKey(front, key) || key == last.key {
        KeyOf(fs, key);
        KeyOf(front, key);
        if i :| 0 <= i < |front| && front[i].key == key {
          assert fs[i].key == key;
        }
      }
    }
  }

  lemma DistinctFront(fs: seq<Field<Value>>)
    requires fs != []
    ensures var front, last := fs[..|fs| - 1], fs[|fs| - 1];
      DistinctKeys(fs) <==> DistinctKeys(front) && !HasKey(front, last.key)
  {
    var front, last := fs[..|fs| - 1], fs[|fs| - 1];
    KeyOf(front, last.key);
    if DistinctKeys(front) && !HasKey(front, last.key) {
      forall i, j | 0 <= i < j < |fs| ensures fs[i].key != fs[j].key {
        assert front[i].key == fs[i].key;
      }
    }
    if DistinctKeys(fs) {
      forall i | 0 <= i < |front| ensures front[i].key != last.key {
        assert fs[i].key != fs[|fs| - 1].key;
      }
    }
  }

  /** Nothing is lost exactly when the keys are distinct. */
  lemma {:induction false} CollapsedSame(fs: seq<Field<Value>>)
    ensures DistinctKeys(fs) ==> Collapsed(fs) == fs
    ensures !DistinctKeys(fs) ==> |Collapsed(fs)| < |fs|
  {
    hide DistinctKeys, HasKey, Put;
    if fs != [] {
      var front, last := fs[..|fs| - 1], fs[|fs| - 1];
      CollapsedSame(front);
      DistinctFront(fs);
      PutLength(Collapsed(front), last);
      assert front + [last] == fs;
    } else {
      NoKeys();
    }
  }

  lemma PutLength(c: seq<Field<Value>>, f: Field<Value>)
    ensures !HasKey(c, f.key) ==> Put(c, f) == c + [f]
    ensures |Put(c, f)| == if HasKey(c, f.key) then |c| else |c| + 1
  {
  }

  lemma NoKeys()
    ensures DistinctKeys<Value>([])
  {
  }

  // ------------------------------------------------------------------
  // Depth
  // ------------------------------------------------------------------

  function Max(s: seq<nat>): (m: nat)
    ensures forall i :: 0 <= i < |s| ==> s[i] <= m
  {
    if s == [] then 0
    else
      var m := Max(s[..|s| - 1]);
      if s[|s| - 1] > m then s[|s| - 1] else m
  }

  lemma {:induction false} MaxBelow(s: seq<nat>, bound: nat)
    requires forall i :: 0 <= i < |s| ==> s[i] <= bound
    ensures Max(s) <= bound
  {
    if s != [] {
      MaxBelow(s[..|s| - 1], bound);
    }
  }

  function Depth(v: Value): nat {
    match v
    case Leaf(_) => 0
    case List(items) => 1 + Max(seq(|items|, i requires 0 <= i < |items| => Depth(items[i])))
    case Tuple(items) => 1 + Max(seq(|items|, i requires 0 <= i < |items| => Depth(items[i])))
    case Dict(fs) => 1 + Max(seq(|fs|, i requires 0 <= i < |fs| => Depth(fs[i].value)))
    case Obj(_, _, fs) => 1 + Max(seq(|fs|, i requires 0 <= i < |fs| => Depth(fs[i].value)))
  }

  lemma DeeperThanField(fs: seq<Field<Value>>, i: nat)
    requires i < |fs|
    ensures Depth(fs[i].value) < Depth(Dict(fs))
  {
    var ds := seq(|fs|, k requires 0 <= k < |fs| => Depth(fs[k].value));
    assert ds[i] <= Max(ds);
  }

  lemma FieldsBelow(fs: seq<Field<Value>>, bound: nat)
    requires forall i :: 0 <= i < |fs| ==> Depth(fs[i].value) < bound
    requires bound > 0
    ensures Depth(Dict(fs)) <= bound
  {
    var ds := seq(|fs|, k requires 0 <= k < |fs| => Depth(fs[k].value));
    MaxBelow(ds, bound - 1);
  }

  lemma ItemsBelow(items: seq<Value>, bound: nat)
    requires forall i :: 0 <= i < |items| ==> Depth(items[i]) < bound
    requires bound > 0
    ensures Depth(List(items)) <= bound
  {
    var ds := seq(|items|, k requires 0 <= k < |items| => Depth(items[k]));
    MaxBelow(ds, bound - 1);
  }

  lemma DeeperThanItem(items: seq<Value>, i: nat)
    requires i < |items|
    ensures Depth(items[i]) < Depth(List(items))
  {
    var ds := seq(|items|, k requires 0 <= k < |items| => Depth(items[k]));
    assert ds[i] <= Max(ds);
  }

  lemma ObjDepth(m: string, c: string, fs: seq<Field<Value>>)
    ensures Depth(Obj(m, c, fs)) == Depth(Dict(fs))
  {
  }

  /** A misread dictionary loses at least one level. */
  lemma HookShape(fs: seq<Field<Value>>)
    ensures !LooksTyped(fs) ==> Hook(fs) == Some(Dict(fs))
    ensures LooksTyped(fs) && Hook(fs).Some? ==> Depth(Hook(fs).value) < Depth(Dict(fs))
  {
    if LooksTyped(fs) && Hook(fs).Some? {
      DeeperThanField(fs, IndexOf(fs, "data"));
      if Hook(fs).value.Obj? && Get(fs, "data").Dict? {
        ObjDepth(Hook(fs).value.module_, Hook(fs).value.class_, Get(fs, "data").entries);
      }
    }
  }

  // ------------------------------------------------------------------
  // The round trip
  // ------------------------------------------------------------------

  /** What is known of a value's parts: nothing comes back deeper, and it comes back whole exactly when it is clean. */
  ghost predicate Settled(v: Value) {
    && (Back(v).Some? ==> Depth(Back(v).value) <= Depth(Normal(v)))
    && (Back(v) == Some(Normal(v)) <==> Clean(v))
  }

  function NormalFields(fs: seq<Field<Value>>): (r: seq<Field<Value>>)
    ensures |r| == |fs| && forall i :: 0 <= i < |fs| ==> r[i] == Field(fs[i].key, Normal(fs[i].value))
  {
    seq(|fs|, i requires 0 <= i < |fs| => Field(fs[i].key, Normal(fs[i].value)))
  }

  /** The decoded fields of a dictionary are no deeper than the normal ones. */
  lemma FieldsShrink(fs: seq<Field<Value>>, whole: seq<Field<Value>>, values: seq<Value>)
    requires |values| == |fs| && forall i :: 0 <= i < |fs| ==> Settled(fs[i].value) && Back(fs[i].value) == Some(values[i])
    requires forall i :: 0 <= i < |fs| ==> fs[i] in whole
    ensures Depth(Dict(WithKeys(fs, values))) <= Depth(Dict(NormalFields(whole)))
  {
    var bound := Depth(Dict(NormalFields(whole)));
    forall i | 0 <= i < |fs| ensures Depth(values[i]) < bound {
      var k :| 0 <= k < |whole| && whole[k] == fs[i];
      DeeperThanField(NormalFields(whole), k);
    }
    FieldsBelow(WithKeys(fs, values), bound);
  }

  /** A dictionary read as part of a larger attribute set: never deeper, and equal to the whole only if it is the
      whole, does not look typed, and every value came back whole. */
  lemma FieldsBack(fs: seq<Field<Value>>, whole: seq<Field<Value>>)
    requires forall i :: 0 <= i < |fs| ==> Settled(fs[i].value) && fs[i] in whole
    ensures Back(Dict(fs)).Some? ==> Depth(Back(Dict(fs)).value) <= Depth(Dict(NormalFields(whole)))
    ensures Back(Dict(fs)) == Some(Dict(NormalFields(whole))) ==>
      !LooksTyped(fs) && |fs| == |whole| && forall i :: 0 <= i < |fs| ==> Back(fs[i].value) == Some(Normal(whole[i].value))
  {
    hide Decode, Encode, Hook, Depth;
    BackDict(fs);
    DecodeFields(fs);
    var opts := Backs(Values(fs));
    AllValuesIs(opts);
    if AllValues(opts).Some? {
      var values := AllValues(opts).value;
      forall i | 0 <= i < |fs| ensures Back(fs[i].value) == Some(values[i]) {
        assert opts[i] == Back(Values(fs)[i]);
      }
      FieldsShrink(fs, whole, values);
      var decoded := WithKeys(fs, values);
      HookShape(decoded);
      SameIndex(fs, decoded, "type");
      SameIndex(fs, decoded, "data");
      if Back(Dict(fs)) == Some(Dict(NormalFields(whole))) {
        assert decoded == NormalFields(whole);
        forall i | 0 <= i < |fs| ensures Back(fs[i].value) == Some(Normal(whole[i].value)) {
          assert decoded[i].value == NormalFields(whole)[i].value;
        }
      }
    }
  }

  /** All values whole and nothing that looks typed: the dictionary comes back whole. */
  lemma DictBack(fs: seq<Field<Value>>)
    requires !LooksTyped(fs) && forall i :: 0 <= i < |fs| ==> Back(fs[i].value) == Some(Normal(fs[i].value))
    ensures Back(Dict(fs)) == Some(Dict(NormalFields(fs)))
  {
    hide Decode, Encode, Hook, Depth;
    BackDict(fs);
    DecodeFields(fs);
    var opts := Backs(Values(fs));
    AllValuesIs(opts);
    forall i | 0 <= i < |opts| ensures opts[i] == Some(Normal(fs[i].value)) {
      assert opts[i] == Back(Values(fs)[i]);
    }
    var decoded := WithKeys(fs, AllValues(opts).value);
    assert decoded == NormalFields(fs);
    HookShape(decoded);
    SameIndex(fs, decoded, "type");
    SameIndex(fs, decoded, "data");
  }

  lemma ListSettled(items: seq<Value>)
    requires forall i :: 0 <= i < |items| ==> Settled(items[i])
    ensures Settled(List(items)) && Settled(Tuple(items))
  {
    hide Decode, Encode, Hook, Depth;
    BackList(items);
    var opts, whole := Backs(items), Normal(List(items)).items;
    AllValuesIs(opts);
    if AllValues(opts).Some? {
      var values := AllValues(opts).value;
      forall i | 0 <= i < |values| ensures Depth(values[i]) < Depth(List(whole)) {
        DeeperThanItem(whole, i);
        assert opts[i] == Some(values[i]) && Settled(items[i]);
      }
      TallList(whole);
      ItemsBelow(values, Depth(List(whole)));
      assert values == whole <==> forall i :: 0 <= i < |items| ==> opts[i] == Some(whole[i]);
    }
  }

  lemma TallList(items: seq<Value>)
    ensures Depth(List(items)) > 0
  {
  }

  lemma DictSettled(fs: seq<Field<Value>>)
    requires forall i :: 0 <= i < |fs| ==> Settled(fs[i].value)
    ensures Settled(Dict(fs))
  {
    hide Decode, Encode, Hook, Depth;
    assert Normal(Dict(fs)) == Dict(NormalFields(fs));
    FieldsBack(fs, fs);
    if Clean(Dict(fs)) {
      DictBack(fs);
    }
  }

  lemma ObjSettled(m: string, c: string, fs: seq<Field<Value>>)
    requires forall i :: 0 <= i < |fs| ==> Settled(fs[i].value)
    ensures Settled(Obj(m, c, fs))
  {
    hide Decode, Encode, Hook, Depth, Collapsed, LooksTyped, DistinctKeys;
    var named := Named(fs);
    var done := Collapsed(named);
    assert Normal(Obj(m, c, fs)) == Obj(m, c, NormalFields(named));
    CollapsedFacts(named);
    CollapsedSame(named);
    forall i | 0 <= i < |done| ensures Settled(done[i].value) {
      var k :| 0 <= k < |named| && named[k] == done[i];
    }
    BackObj(m, c, fs);
    FieldsBack(done, named);
    ObjDepth(m, c, NormalFields(named));
    if Back(Dict(done)).Some? && Back(Dict(done)).value.Dict? {
      ObjDepth(m, c, Back(Dict(done)).value.entries);
    }
    if Clean(Obj(m, c, fs)) {
      DictBack(named);
    }
  }

  lemma {:induction false} AllSettled(v: Value)
    ensures Settled(v)
    decreases v
  {
    match v
    case Leaf(a) =>
      DecodeTyped(TypeName(a), JLeaf(a), Null);
    case List(items) =>
      forall i | 0 <= i < |items| ensures Settled(items[i]) {
        AllSettled(items[i]);
      }
      ListSettled(items);
    case Tuple(items) =>
      forall i | 0 <= i < |items| ensures Settled(items[i]) {
        AllSettled(items[i]);
      }
      ListSettled(items);
    case Dict(fs) =>
      forall i | 0 <= i < |fs| ensures Settled(fs[i].value) {
        AllSettled(fs[i].value);
      }
      DictSettled(fs);
    case Obj(m, c, fs) =>
      forall i | 0 <= i < |fs| ensures Settled(fs[i].value) {
        AllSettled(fs[i].value);
      }
      ObjSettled(m, c, fs);
  }

  /** Decoding undoes encoding, up to tuples and leading underscores, exactly when no dictionary and no attribute set
      anywhere inside holds both "type" and "data" and written attribute names do not clash. */
  lemma RoundTripIff(v: Value)
    ensures Decode(Encode(v)) == Some(Normal(v)) <==> Clean(v)
  {
    AllSettled(v);
  }

  // ------------------------------------------------------------------
  // Values that do not survive
  // ------------------------------------------------------------------

  /** A dictionary of clean values comes back as whatever the hook makes of it. */
  lemma CleanFieldsBack(fs: seq<Field<Value>>)
    requires forall i :: 0 <= i < |fs| ==> Clean(fs[i].value)
    ensures Back(Dict(fs)) == Hook(NormalFields(fs))
  {
    hide Decode, Encode, Hook, Clean;
    BackDict(fs);
    DecodeFields(fs);
    var opts := Backs(Values(fs));
    AllValuesIs(opts);
    forall i | 0 <= i < |opts| ensures opts[i] == Some(Normal(fs[i].value)) {
      assert opts[i] == Back(Values(fs)[i]);
      AllSettled(fs[i].value);
    }
    assert WithKeys(fs, AllValues(opts).value) == NormalFields(fs);
  }

  /** A dictionary with "type", "data" and a null "module" comes back as its data alone; without "module" decoding
      raises. */
  lemma LookalikesAreLost(t: string, x: Value)
    requires Clean(x)
    ensures var two := [Field("type", Leaf(Str(t))), Field("data", x)];
      Back(Dict(two)) == None && Back(Dict(two + [Field("module", Leaf(Null))])) == Some(Normal(x))
  {
    var two := [Field("type", Leaf(Str(t))), Field("data", x)];
    var three := two + [Field("module", Leaf(Null))];
    CleanFieldsBack(two);
    CleanFieldsBack(three);
    hide Decode, Encode, Clean;
    ThreeKeys(NormalFields(three));
    NoModule(NormalFields(two));
  }

  lemma NoModule(fs: seq<Field<Value>>)
    requires |fs| == 2 && fs[0].key == "type" && fs[1].key == "data"
    ensures Hook(fs) == None
  {
    KeyOf(fs, "type");
    KeyOf(fs, "data");
    KeyOf(fs, "module");
    hide IndexOf;
    assert |fs[0].key| == 4 && |fs[1].key| == 4 && |"module"| == 6;
  }

  /** Of two attributes that are written under one name the later one survives. */
  lemma ClashingAttributes(m: string, c: string, x: Value, y: Value)
    requires Clean(x) && Clean(y)
    ensures Back(Obj(m, c, [Field("_x", x), Field("x", y)])) == Some(Obj(m, c, [Field("x", Normal(y))]))
  {
    var fs := [Field("_x", x), Field("x", y)];
    BackObj(m, c, fs);
    ClashCollapses(x, y);
    CleanFieldsBack([Field("x", y)]);
    assert NormalFields([Field("x", y)]) == [Field("x", Normal(y))];
    HookShape([Field("x", Normal(y))]);
    KeyOf([Field("x", Normal(y))], "type");
  }

  lemma ClashCollapses(x: Value, y: Value)
    ensures Collapsed(Named([Field("_x", x), Field("x", y)])) == [Field("x", y)]
  {
    var named := Named([Field("_x", x), Field("x", y)]);
    assert "_x"[1..] == "x";
    assert Stripped("x") == "x" && Stripped("_x") == "x";
    assert named == [Field("x", x), Field("x", y)];
    assert named[..1] == [Field("x", x)] && named[..1][..0] == [];
    assert Collapsed(named[..1]) == [Field("x", x)];
    assert IndexOf([Field("x", x)], "x") == 0;
  }
}
