/**
 * The JSON-like values the Bedrock helpers build: Python `None`, strings,
 * numbers, raw bytes, lists and dictionaries. A dictionary is an ordered
 * sequence of fields, because Python dictionaries keep insertion order and
 * that order is what the Converse request serialises.
 */
module Values {
  import opened Wrappers

  datatype Value =
    | Null
    | Bool(b: bool)
    | Int(i: int)
    | Str(s: string)
    | Bytes(data: seq<bv8>)
    | List(items: seq<Value>)
    | Dict(fields: seq<Field>)

  datatype Field = Field(key: string, value: Value)

  /** The keys of a dictionary, in insertion order. */
  function Keys(fields: seq<Field>): (ks: seq<string>)
    ensures |ks| == |fields|
    ensures forall i :: 0 <= i < |fields| ==> ks[i] == fields[i].key
  {
    if fields == [] then [] else [fields[0].key] + Keys(fields[1..])
  }

  /** A Python dictionary never holds the same key twice. */
  predicate DistinctKeys(fields: seq<Field>)
  {
    forall i, j :: 0 <= i < j < |fields| ==> fields[i].key != fields[j].key
  }

  /** `d.get(key)`, distinguishing a missing key (None) from a key bound to `None` (Some(Null)). */
  function Get(fields: seq<Field>, key: string): (r: Option<Value>)
    ensures r.None? <==> key !in Keys(fields)
  {
    if fields == [] then None
    else if fields[0].key == key then Some(fields[0].value)
    else Get(fields[1..], key)
  }

  /** `d[key] = value` on the ordered entries of a dictionary. */
  function SetKey(fields: seq<Field>, key: string, value: Value): seq<Field>
  {
    if fields == [] then [Field(key, value)]
    else if fields[0].key == key then [Field(key, value)] + fields[1..]
    else [fields[0]] + SetKey(fields[1..], key, value)
  }

  /** An existing key keeps its position; a new key is appended at the end. */
  lemma {:induction false} SetKeyKeys(fields: seq<Field>, key: string, value: Value)
    ensures key in Keys(fields) ==> Keys(SetKey(fields, key, value)) == Keys(fields)
    ensures key !in Keys(fields) ==> Keys(SetKey(fields, key, value)) == Keys(fields) + [key]
  {
    var r := SetKey(fields, key, value);
    if fields != [] {
      assert Keys(fields) == [fields[0].key] + Keys(fields[1..]);
      if fields[0].key == key {
        assert r[1..] == fields[1..];
      } else {
        SetKeyKeys(fields[1..], key, value);
        assert r[1..] == SetKey(fields[1..], key, value);
        assert Keys(r) == [fields[0].key] + Keys(r[1..]);
      }
    }
  }

  /** After `d[key] = value`, the key reads the new value and every other key reads what it did. */
  lemma {:induction false} SetKeyGet(fields: seq<Field>, key: string, value: Value, k: string)
    ensures Get(SetKey(fields, key, value), k) == if k == key then Some(value) else Get(fields, k)
  {
    if fields != [] && fields[0].key != key {
      SetKeyGet(fields[1..], key, value, k);
      assert SetKey(fields, key, value)[1..] == SetKey(fields[1..], key, value);
    } else if fields != [] {
      assert SetKey(fields, key, value)[1..] == fields[1..];
    }
  }

  /** Assigning a key keeps a dictionary free of duplicate keys. */
  lemma SetKeyDistinct(fields: seq<Field>, key: string, value: Value)
    requires DistinctKeys(fields)
    ensures DistinctKeys(SetKey(fields, key, value))
  {
    var r := SetKey(fields, key, value);
    SetKeyKeys(fields, key, value);
    forall i, j | 0 <= i < j < |r| ensures r[i].key != r[j].key {
      assert Keys(r)[i] == r[i].key && Keys(r)[j] == r[j].key;
      if j < |fields| {
        assert Keys(fields)[i] == fields[i].key && Keys(fields)[j] == fields[j].key;
      } else {
        assert Keys(fields)[i] == fields[i].key;
      }
    }
  }

  /** Reading the third entry of a three-entry dictionary whose keys differ. */
  lemma GetThird(a: Field, b: Field, c: Field)
    requires a.key != c.key && b.key != c.key
    ensures Get([a, b, c], c.key) == Some(c.value)
  {
    assert [a, b, c][1..] == [b, c];
    assert [b, c][1..] == [c];
    assert Get([c], c.key) == Some(c.value);
    assert Get([b, c], c.key) == Some(c.value);
  }

  /** A one-key dictionary `{key: value}`. */
  function Single(key: string, value: Value): Value
  {
    Dict([Field(key, value)])
  }

  /** `xs` is `ys` with some elements dropped, the rest kept in order. */
  predicate IsSubsequence<T(==)>(xs: seq<T>, ys: seq<T>)
  {
    if xs == [] then true
    else if ys == [] then false
    else if xs[0] == ys[0] then IsSubsequence(xs[1..], ys[1..])
    else IsSubsequence(xs, ys[1..])
  }

  /** Every element of a subsequence occurs in the sequence. */
  lemma {:induction false} SubsequenceMembers<T>(xs: seq<T>, ys: seq<T>)
    requires IsSubsequence(xs, ys)
    ensures forall x :: x in xs ==> x in ys
    decreases |ys|
  {
    if xs != [] && ys != [] {
      if xs[0] == ys[0] {
        SubsequenceMembers(xs[1..], ys[1..]);
        assert xs == [xs[0]] + xs[1..] && ys == [ys[0]] + ys[1..];
      } else {
        SubsequenceMembers(xs, ys[1..]);
        assert ys == [ys[0]] + ys[1..];
      }
    }
  }

  /** Dropping the first element of a subsequence leaves a subsequence. */
  lemma {:induction false} SubsequenceTail<T>(xs: seq<T>, ys: seq<T>)
    requires xs != [] && IsSubsequence(xs, ys)
    ensures IsSubsequence(xs[1..], ys)
    decreases |ys|, 0
  {
    if xs[0] != ys[0] {
      SubsequenceTail(xs, ys[1..]);
      SubsequenceCons(xs[1..], ys[1..], ys[0]);
      assert ([ys[0]] + ys[1..]) == ys;
    } else {
      SubsequenceCons(xs[1..], ys[1..], ys[0]);
      assert ([ys[0]] + ys[1..]) == ys;
    }
  }

  /** A subsequence of `ys` is also one of `ys` with an element put in front. */
  lemma {:induction false} SubsequenceCons<T>(xs: seq<T>, ys: seq<T>, y: T)
    requires IsSubsequence(xs, ys)
    ensures IsSubsequence(xs, [y] + ys)
    decreases |ys|, 1
  {
    assert ([y] + ys)[1..] == ys;
    if xs != [] && xs[0] == y {
      SubsequenceTail(xs, ys);
    }
  }
}
