/** What renaming does to each word of a key, and what conversion does to each value, colliding keys included. */
module CamelLaws {
  import opened Wrappers
  import opened JsonTrees
  import opened SnakeToCamel

  // ---- Keys

  const LOWER: string := "abcdefghijklmnopqrstuvwxyz"
  const UPPER: string := "ABCDEFGHIJKLMNOPQRSTUVWXYZ"

  lemma Alphabet(i: nat)
    requires i < 26
    ensures IsLower(LOWER[i]) && ToUpper(LOWER[i]) == UPPER[i]
  {
  }

  /** Up to its first word boundary a key is kept; the boundary becomes the capital letter; the rest is renamed by itself. */
  lemma {:induction false} BoundaryIsJoined(s: string, i: nat, t: string)
    requires HasNoBoundary(s) && i < 26
    ensures Camel(s + ['_', LOWER[i]] + t) == s + [UPPER[i]] + Camel(t)
  {
    Alphabet(i);
    hide ToUpper;
    var c, whole := LOWER[i], s + ['_', LOWER[i]] + t;
    if s == [] {
      assert whole[2..] == t;
    } else {
      assert !IsBoundary(s, 0);
      assert forall j :: 0 <= j < |s[1..]| ==> (IsBoundary(s[1..], j) <==> IsBoundary(s, j + 1));
      BoundaryIsJoined(s[1..], i, t);
      assert whole[0] == s[0] && whole[1..] == s[1..] + ['_', c] + t;
      assert !IsBoundary(whole, 0);
      assert s + [UPPER[i]] + Camel(t) == [s[0]] + (s[1..] + [UPPER[i]] + Camel(t));
    }
  }

  /** Underscores in front are kept as they are. */
  lemma LeadingIsKept(front: string, rest: string)
    requires forall i :: 0 <= i < |front| ==> front[i] == '_'
    requires rest != [] ==> rest[0] != '_'
    ensures CamelKey(front + rest) == front + Camel(rest)
  {
    LeadingOfConcat(|front|, front, rest);
    assert (front + rest)[|front|..] == rest && (front + rest)[..|front|] == front;
  }

  /** `user_id` becomes `userId`. */
  lemma TwoWords()
    ensures CamelKey("user_id") == "userId"
  {
  }

  /** Only a lower-case letter makes a boundary. */
  lemma NotWords(key: string)
    requires key in {"_id", "foo_2", "foo_Bar", "foo_"}
    ensures CamelKey(key) == key
  {
    FixedKeys(key);
    hide Camel, CamelKey;
  }

  // ---- Values

  /** A scalar comes through unchanged, text and number, at the renamed path. */
  lemma ScalarsAreKept(t: Json, path: seq<PathStep>, text: string, number: Option<int>)
    requires Injective(t) && At(t, path) == Some(Scalar(text, number))
    ensures At(Convert(t), Renamed(path)) == Some(Scalar(text, number))
  {
    ValuesKeepTheirPaths(t, path);
  }

  lemma {:induction false} LookupAfterOthers(fields: seq<Field>, built: seq<Field>, key: string)
    requires forall i :: 0 <= i < |fields| ==> CamelKey(fields[i].key) != key
    ensures Lookup(ConvertFields(fields, built), key) == Lookup(built, key)
    decreases fields
  {
    hide CamelKey, Convert;
    if fields != [] {
      var k, v := CamelKey(fields[0].key), Convert(fields[0].value);
      LookupAfterOthers(fields[1..], SetField(built, k, v), key);
      LookupAfterSet(built, k, v, key);
    }
  }

  /** Of the fields of an object whose keys become the same, the last one's value is the one that is kept. */
  lemma {:induction false} LastValueIsKept(fields: seq<Field>, built: seq<Field>, i: nat)
    requires i < |fields|
    requires forall j :: i < j < |fields| ==> CamelKey(fields[j].key) != CamelKey(fields[i].key)
    ensures Lookup(ConvertFields(fields, built), CamelKey(fields[i].key)) == Some(Convert(fields[i].value))
    decreases fields
  {
    hide CamelKey, Convert;
    var more := SetField(built, CamelKey(fields[0].key), Convert(fields[0].value));
    if i == 0 {
      forall j | 0 <= j < |fields[1..]|
        ensures CamelKey(fields[1..][j].key) != CamelKey(fields[0].key)
      {
        assert fields[1..][j] == fields[j + 1];
      }
      LookupAfterOthers(fields[1..], more, CamelKey(fields[0].key));
    } else {
      forall j | i - 1 < j < |fields[1..]|
        ensures CamelKey(fields[1..][j].key) != CamelKey(fields[1..][i - 1].key)
      {
        assert fields[1..][j] == fields[j + 1];
      }
      LastValueIsKept(fields[1..], more, i - 1);
    }
  }

  // ---- The order of the fields

  function KeyList(fields: seq<Field>): seq<string> {
    if fields == [] then [] else [fields[0].key] + KeyList(fields[1..])
  }

  /** The new keys, each where it comes up first. */
  function FirstOnly(known: seq<string>, keys: seq<string>): seq<string>
    decreases keys
  {
    if keys == [] then known
    else FirstOnly(if keys[0] in known then known else known + [keys[0]], keys[1..])
  }

  function Images(fields: seq<Field>): seq<string> {
    if fields == [] then [] else [CamelKey(fields[0].key)] + Images(fields[1..])
  }

  lemma {:induction false} SetKeepsOrder(fields: seq<Field>, key: string, value: Json)
    ensures KeyList(SetField(fields, key, value)) == if key in KeyList(fields) then KeyList(fields) else KeyList(fields) + [key]
  {
    if fields != [] && fields[0].key != key {
      SetKeepsOrder(fields[1..], key, value);
      assert SetField(fields, key, value)[1..] == SetField(fields[1..], key, value);
    } else if fields != [] {
      assert SetField(fields, key, value)[1..] == fields[1..];
    }
  }

  /** The fields of a converted object come in the order in which their keys came up, and each key once. */
  lemma {:induction false} FieldsKeepTheirOrder(fields: seq<Field>, built: seq<Field>)
    ensures KeyList(ConvertFields(fields, built)) == FirstOnly(KeyList(built), Images(fields))
    decreases fields
  {
    hide CamelKey, Convert, SetField, KeyList;
    if fields != [] {
      var key, value := CamelKey(fields[0].key), Convert(fields[0].value);
      SetKeepsOrder(built, key, value);
      FieldsKeepTheirOrder(fields[1..], SetField(built, key, value));
      assert Images(fields)[1..] == Images(fields[1..]);
    }
  }
}
