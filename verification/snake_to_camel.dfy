/** `SnakeToCamelJson`: the recursive renaming of object keys. */
module SnakeToCamel {
  import opened Wrappers
  import opened JsonTrees

  // ---- One key

  predicate IsLower(c: char) { 'a' <= c <= 'z' }

  function ToUpper(c: char): (u: char)
    requires IsLower(c)
    ensures 'A' <= u <= 'Z'
  {
    (c as int - 32) as char
  }

  /** How many underscores a key starts with. */
  function Leading(key: string): (n: nat)
    ensures n <= |key|
    ensures forall i :: 0 <= i < n ==> key[i] == '_'
    ensures n < |key| ==> key[n] != '_'
  {
    if key != [] && key[0] == '_' then 1 + Leading(key[1..]) else 0
  }

  predicate IsBoundary(s: string, i: nat) {
    i + 1 < |s| && s[i] == '_' && IsLower(s[i + 1])
  }

  function Camel(s: string): string {
    if s == [] then []
    else if IsBoundary(s, 0) then [ToUpper(s[1])] + Camel(s[2..])
    else [s[0]] + Camel(s[1..])
  }

  function CamelKey(key: string): string {
    var n := Leading(key);
    key[..n] + Camel(key[n..])
  }

  lemma CamelStep(s: string, i: nat)
    requires i < |s|
    ensures IsBoundary(s, i) ==> Camel(s[i..]) == [ToUpper(s[i + 1])] + Camel(s[i + 2..])
    ensures !IsBoundary(s, i) ==> Camel(s[i..]) == [s[i]] + Camel(s[i + 1..])
  {
    hide ToUpper;
    assert IsBoundary(s[i..], 0) <==> IsBoundary(s, i);
    assert s[i..][1..] == s[i + 1..];
    if IsBoundary(s, i) {
      assert s[i..][2..] == s[i + 2..];
    }
  }

  method ToCamel(key: string) returns (r: string)
    ensures r == CamelKey(key)
    ensures CamelKey(r) == r
  {
    hide Camel, CamelKey, ToUpper, IsLower;
    var leading := 0;
    while leading < |key| && key[leading] == '_'
      invariant leading <= |key|
      invariant Leading(key) == leading + Leading(key[leading..])
    {
      assert key[leading..][1..] == key[leading + 1..];
      leading := leading + 1;
    }
    var prefix := key[..leading];
    var rest := key[leading..];
    var camelCased := "";
    var i := 0;
    while i < |rest|
      invariant i <= |rest|
      invariant Camel(rest) == camelCased + Camel(rest[i..])
    {
      CamelStep(rest, i);
      var c := rest[i];
      if c == '_' && i + 1 < |rest| && IsLower(rest[i + 1]) {
        camelCased := camelCased + [ToUpper(rest[i + 1])];
        i := i + 2;
      } else {
        camelCased := camelCased + [c];
        i := i + 1;
      }
    }
    assert rest[i..] == [];
    CamelOfParts(key, leading, camelCased);
    ImagesAreFixed(key);
    r := prefix + camelCased;
  }

  lemma CamelOfParts(key: string, leading: nat, camelCased: string)
    requires leading <= |key| && leading == Leading(key)
    requires Camel(key[leading..]) == camelCased + Camel([])
    ensures CamelKey(key) == key[..leading] + camelCased
  {
  }

  predicate HasNoBoundary(s: string) {
    forall i :: 0 <= i < |s| ==> !IsBoundary(s, i)
  }

  lemma {:induction false} CamelHasNoBoundary(s: string)
    ensures HasNoBoundary(Camel(s))
    ensures s != [] && !IsLower(s[0]) ==> Camel(s) != [] && !IsLower(Camel(s)[0])
  {
    if s != [] {
      var tail := if IsBoundary(s, 0) then s[2..] else s[1..];
      var head := if IsBoundary(s, 0) then ToUpper(s[1]) else s[0];
      CamelHasNoBoundary(tail);
      assert Camel(s) == [head] + Camel(tail);
      forall i | 0 <= i < |Camel(s)|
        ensures !IsBoundary(Camel(s), i)
      {
        if i > 0 {
          assert !IsBoundary(Camel(tail), i - 1);
        }
      }
    }
  }

  lemma {:induction false} CamelOfNoBoundary(s: string)
    requires HasNoBoundary(s)
    ensures Camel(s) == s
  {
    if s != [] {
      assert !IsBoundary(s, 0);
      forall i | 0 <= i < |s[1..]|
        ensures !IsBoundary(s[1..], i)
      {
        assert !IsBoundary(s, i + 1);
      }
      CamelOfNoBoundary(s[1..]);
      assert s == [s[0]] + s[1..];
    }
  }

  lemma {:induction false} LeadingOfConcat(n: nat, s: string, t: string)
    requires |s| == n && (forall i :: 0 <= i < n ==> s[i] == '_')
    requires t != [] ==> t[0] != '_'
    ensures Leading(s + t) == n
  {
    if n == 0 {
      assert s + t == t;
    } else {
      assert (s + t)[1..] == s[1..] + t;
      LeadingOfConcat(n - 1, s[1..], t);
    }
  }

  /** The keys the renaming leaves alone are those without a word boundary after their leading underscores. */
  lemma FixedKeys(key: string)
    ensures CamelKey(key) == key <==> HasNoBoundary(key[Leading(key)..])
  {
    hide Camel, HasNoBoundary, Leading;
    var n := Leading(key);
    var rest := key[n..];
    CamelHasNoBoundary(rest);
    if HasNoBoundary(rest) {
      CamelOfNoBoundary(rest);
      assert key == key[..n] + rest;
    }
    if CamelKey(key) == key {
      assert Camel(rest) == CamelKey(key)[n..];
    }
  }

  /** Every renamed key is such a key, so renaming twice is renaming once. */
  lemma ImagesAreFixed(key: string)
    ensures CamelKey(CamelKey(key)) == CamelKey(key)
  {
    var n := Leading(key);
    var rest := key[n..];
    CamelHasNoBoundary(rest);
    assert Camel(rest) != [] ==> Camel(rest)[0] == rest[0];
    LeadingOfConcat(n, key[..n], Camel(rest));
    assert CamelKey(key)[n..] == Camel(rest) && CamelKey(key)[..n] == key[..n];
    CamelOfNoBoundary(Camel(rest));
  }

  // ---- Whole trees

  function Convert(t: Json): Json
    decreases t, 1
  {
    match t
    case Scalar(_, _) => t
    case Arr(items) => Arr(ConvertItems(items))
    case Obj(fields) => Obj(ConvertFields(fields, []))
  }

  function ConvertItems(items: seq<Json>): (r: seq<Json>)
    ensures |r| == |items|
    decreases items, 0
  {
    if items == [] then [] else [Convert(items[0])] + ConvertItems(items[1..])
  }

  /** Sets the renamed fields one after another on what was built so far. */
  function ConvertFields(fields: seq<Field>, built: seq<Field>): seq<Field>
    decreases fields, 0
  {
    if fields == [] then built
    else ConvertFields(fields[1..], SetField(built, CamelKey(fields[0].key), Convert(fields[0].value)))
  }

  /** No two of the keys, and none of those already used, have the same image. */
  predicate KeysStayApart(fields: seq<Field>, used: set<string>) {
    fields != [] ==>
      && CamelKey(fields[0].key) !in used
      && KeysStayApart(fields[1..], used + {CamelKey(fields[0].key)})
  }

  /** The pairwise reading of the same condition. */
  lemma {:induction false} KeysStayApartPairwise(fields: seq<Field>, used: set<string>)
    ensures KeysStayApart(fields, used) <==>
            && (forall i :: 0 <= i < |fields| ==> CamelKey(fields[i].key) !in used)
            && (forall i, j :: 0 <= i < j < |fields| ==> CamelKey(fields[i].key) != CamelKey(fields[j].key))
  {
    hide CamelKey;
    if fields != [] {
      var tail, more := fields[1..], used + {CamelKey(fields[0].key)};
      KeysStayApartPairwise(tail, more);
      if KeysStayApart(fields, used) {
        forall i, j | 0 <= i < j < |fields|
          ensures CamelKey(fields[i].key) != CamelKey(fields[j].key)
        {
          assert fields[j] == tail[j - 1];
          assert i > 0 ==> fields[i] == tail[i - 1];
        }
        forall i | 0 <= i < |fields|
          ensures CamelKey(fields[i].key) !in used
        {
          assert i > 0 ==> fields[i] == tail[i - 1];
        }
      } else if CamelKey(fields[0].key) !in used {
        assert !KeysStayApart(tail, more);
        if i :| 0 <= i < |tail| && CamelKey(tail[i].key) in more {
          assert tail[i] == fields[i + 1];
        } else {
          var i, j :| 0 <= i < j < |tail| && CamelKey(tail[i].key) == CamelKey(tail[j].key);
          assert tail[i] == fields[i + 1] && tail[j] == fields[j + 1];
        }
      }
    }
  }

  /** Renaming is injective on the keys of every object of the tree. */
  predicate Injective(t: Json)
    decreases t, 1
  {
    match t
    case Scalar(_, _) => true
    case Arr(items) => AllInjective(items)
    case Obj(fields) => KeysStayApart(fields, {}) && ValuesInjective(fields)
  }

  predicate AllInjective(items: seq<Json>)
    decreases items, 0
  {
    items != [] ==> Injective(items[0]) && AllInjective(items[1..])
  }

  predicate ValuesInjective(fields: seq<Field>)
    decreases fields, 0
  {
    fields != [] ==> Injective(fields[0].value) && ValuesInjective(fields[1..])
  }

  function MapFields(fields: seq<Field>): (r: seq<Field>)
    ensures |r| == |fields|
  {
    if fields == [] then []
    else [Field(CamelKey(fields[0].key), Convert(fields[0].value))] + MapFields(fields[1..])
  }

  lemma {:induction false} ConvertFieldsApart(fields: seq<Field>, built: seq<Field>)
    requires KeysStayApart(fields, Keys(built))
    ensures ConvertFields(fields, built) == built + MapFields(fields)
    decreases fields
  {
    hide CamelKey, Convert;
    if fields == [] {
      assert built + [] == built;
    } else {
      var f := Field(CamelKey(fields[0].key), Convert(fields[0].value));
      ConvertFieldsApart(fields[1..], SetField(built, f.key, f.value));
      assert (built + [f]) + MapFields(fields[1..]) == built + ([f] + MapFields(fields[1..]));
    }
  }

  // ---- Idempotence

  /** A field list whose keys are distinct and fixed and whose values are converted. */
  predicate Settled(fields: seq<Field>) {
    fields != [] ==>
      && fields[0].key !in Keys(fields[1..])
      && CamelKey(fields[0].key) == fields[0].key
      && Convert(fields[0].value) == fields[0].value
      && Settled(fields[1..])
  }

  lemma {:induction false} SetFieldSettled(fields: seq<Field>, key: string, value: Json)
    requires Settled(fields) && CamelKey(key) == key && Convert(value) == value
    ensures Settled(SetField(fields, key, value))
  {
    hide CamelKey, Convert;
    if fields != [] && fields[0].key != key {
      SetFieldSettled(fields[1..], key, value);
      assert SetField(fields, key, value)[1..] == SetField(fields[1..], key, value);
    } else if fields != [] {
      assert SetField(fields, key, value)[1..] == fields[1..];
    }
  }

  lemma {:induction false} SettledStaysApart(fields: seq<Field>, used: set<string>)
    requires Settled(fields) && Keys(fields) !! used
    ensures KeysStayApart(fields, used)
    ensures MapFields(fields) == fields
  {
    hide CamelKey, Convert;
    if fields != [] {
      SettledStaysApart(fields[1..], used + {fields[0].key});
      assert fields == [fields[0]] + fields[1..];
    }
  }

  /** Converting twice is converting once, for every tree, colliding keys included. */
  lemma {:induction false} ConvertIsIdempotent(t: Json)
    ensures Convert(Convert(t)) == Convert(t)
    decreases t, 1
  {
    hide CamelKey;
    match t {
      case Scalar(_, _) =>
      case Arr(items) =>
        ItemsAreIdempotent(items);
      case Obj(fields) =>
        FieldsSettle(fields, []);
        var converted := ConvertFields(fields, []);
        SettledStaysApart(converted, {});
        ConvertFieldsApart(converted, []);
        assert [] + converted == converted;
    }
  }

  lemma {:induction false} ItemsAreIdempotent(items: seq<Json>)
    ensures ConvertItems(ConvertItems(items)) == ConvertItems(items)
    decreases items, 0
  {
    if items != [] {
      ConvertIsIdempotent(items[0]);
      ItemsAreIdempotent(items[1..]);
      assert ConvertItems(items)[1..] == ConvertItems(items[1..]);
    }
  }

  lemma {:induction false} FieldsSettle(fields: seq<Field>, built: seq<Field>)
    requires Settled(built)
    ensures Settled(ConvertFields(fields, built))
    decreases fields, 0
  {
    hide CamelKey, SetField;
    if fields != [] {
      ConvertIsIdempotent(fields[0].value);
      ImagesAreFixed(fields[0].key);
      SetFieldSettled(built, CamelKey(fields[0].key), Convert(fields[0].value));
      FieldsSettle(fields[1..], SetField(built, CamelKey(fields[0].key), Convert(fields[0].value)));
    }
  }

  // ---- Nothing moves, when keys stay apart

  datatype PathStep = Key(key: string) | Index(i: nat)

  function At(t: Json, path: seq<PathStep>): Option<Json>
    decreases path
  {
    if path == [] then Some(t)
    else
      var child :=
        match (t, path[0])
        case (Arr(items), Index(i)) => if i < |items| then Some(items[i]) else None
        case (Obj(fields), Key(key)) => Lookup(fields, key)
        case _ => None;
      if child.None? then None else At(child.value, path[1..])
  }

  function Renamed(path: seq<PathStep>): seq<PathStep> {
    if path == [] then []
    else [match path[0] { case Key(key) => Key(CamelKey(key)) case Index(i) => Index(i) }] + Renamed(path[1..])
  }

  lemma {:induction false} LookupMapped(fields: seq<Field>, used: set<string>, key: string)
    requires KeysStayApart(fields, used) && Lookup(fields, key).Some?
    ensures Lookup(MapFields(fields), CamelKey(key)) == Some(Convert(Lookup(fields, key).value))
    ensures CamelKey(key) !in used
  {
    hide CamelKey, Convert;
    if fields[0].key != key {
      LookupMapped(fields[1..], used + {CamelKey(fields[0].key)}, key);
      assert MapFields(fields)[1..] == MapFields(fields[1..]);
    }
  }

  lemma {:induction false} ValueInjective(fields: seq<Field>, key: string)
    requires ValuesInjective(fields) && Lookup(fields, key).Some?
    ensures Injective(Lookup(fields, key).value)
  {
    if fields[0].key != key {
      ValueInjective(fields[1..], key);
    }
  }

  lemma {:induction false} ItemConverted(items: seq<Json>, i: nat)
    requires i < |items|
    ensures ConvertItems(items)[i] == Convert(items[i])
    ensures AllInjective(items) ==> Injective(items[i])
    decreases i
  {
    if i > 0 {
      ItemConverted(items[1..], i - 1);
    }
  }

  /** The value at a path is found, converted, at the renamed path; array positions are kept. */
  lemma {:induction false} ValuesKeepTheirPaths(t: Json, path: seq<PathStep>)
    requires Injective(t) && At(t, path).Some?
    ensures At(Convert(t), Renamed(path)) == Some(Convert(At(t, path).value))
    ensures t.Arr? ==> Convert(t).Arr? && |Convert(t).items| == |t.items|
    decreases path
  {
    hide CamelKey;
    if path != [] {
      assert Renamed(path)[1..] == Renamed(path[1..]);
      match t {
        case Scalar(_, _) =>
        case Arr(items) =>
          ItemConverted(items, path[0].i);
          ValuesKeepTheirPaths(items[path[0].i], path[1..]);
        case Obj(fields) =>
          var key := path[0].key;
          ConvertFieldsApart(fields, []);
          assert [] + MapFields(fields) == MapFields(fields);
          LookupMapped(fields, {}, key);
          ValueInjective(fields, key);
          ValuesKeepTheirPaths(Lookup(fields, key).value, path[1..]);
      }
    }
  }

  // ---- Nothing is lost, exactly when keys stay apart

  /** All fields of a tree, at every depth. */
  function FieldCount(t: Json): nat
    decreases t, 1
  {
    match t
    case Scalar(_, _) => 0
    case Arr(items) => ItemsCount(items)
    case Obj(fields) => FieldsCount(fields)
  }

  function ItemsCount(items: seq<Json>): nat
    decreases items, 0
  {
    if items == [] then 0 else FieldCount(items[0]) + ItemsCount(items[1..])
  }

  function FieldsCount(fields: seq<Field>): nat
    decreases fields, 0
  {
    if fields == [] then 0 else 1 + FieldCount(fields[0].value) + FieldsCount(fields[1..])
  }

  lemma {:induction false} SetFieldCount(fields: seq<Field>, key: string, value: Json)
    ensures key !in Keys(fields) ==>
              FieldsCount(SetField(fields, key, value)) == FieldsCount(fields) + 1 + FieldCount(value)
    ensures key in Keys(fields) ==>
              FieldsCount(SetField(fields, key, value)) <= FieldsCount(fields) + FieldCount(value)
  {
    hide FieldCount;
    if fields != [] && fields[0].key != key {
      SetFieldCount(fields[1..], key, value);
      assert SetField(fields, key, value)[1..] == SetField(fields[1..], key, value);
    } else if fields != [] {
      assert SetField(fields, key, value)[1..] == fields[1..];
    }
  }

  /** A conversion never adds a field, and keeps the number of fields exactly when no two keys of an object collide. */
  lemma {:induction false} FieldsAreConserved(t: Json)
    ensures FieldCount(Convert(t)) <= FieldCount(t)
    ensures FieldCount(Convert(t)) == FieldCount(t) <==> Injective(t)
    decreases t, 1
  {
    match t {
      case Scalar(_, _) =>
      case Arr(items) =>
        ItemsAreConserved(items);
      case Obj(fields) =>
        FieldListIsConserved(fields, []);
    }
  }

  lemma {:induction false} ItemsAreConserved(items: seq<Json>)
    ensures ItemsCount(ConvertItems(items)) <= ItemsCount(items)
    ensures ItemsCount(ConvertItems(items)) == ItemsCount(items) <==> AllInjective(items)
    decreases items, 0
  {
    hide Convert, FieldCount, Injective;
    if items != [] {
      FieldsAreConserved(items[0]);
      ItemsAreConserved(items[1..]);
      assert ConvertItems(items)[1..] == ConvertItems(items[1..]);
    }
  }

  lemma {:induction false} FieldListIsConserved(fields: seq<Field>, built: seq<Field>)
    ensures FieldsCount(ConvertFields(fields, built)) <= FieldsCount(built) + FieldsCount(fields)
    ensures FieldsCount(ConvertFields(fields, built)) == FieldsCount(built) + FieldsCount(fields)
       <==> KeysStayApart(fields, Keys(built)) && ValuesInjective(fields)
    decreases fields, 0
  {
    hide CamelKey, Convert, FieldCount, Injective, SetField;
    if fields != [] {
      var key, value := CamelKey(fields[0].key), Convert(fields[0].value);
      FieldsAreConserved(fields[0].value);
      SetFieldCount(built, key, value);
      FieldListIsConserved(fields[1..], SetField(built, key, value));
    }
  }
}
