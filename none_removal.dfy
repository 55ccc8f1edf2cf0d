/**
 * `remove_none_recursively`: strips every `None`-valued entry from a
 * dictionary and from the dictionaries nested in it, down to a fixed depth.
 * Lists are not entered and non-dictionary values pass through unchanged.
 */
module NoneRemoval {
  import opened Wrappers
  import opened Values

  /** The default `max_depth` of the Python function. */
  const DefaultMaxDepth: int := 5

  /**
   * `remove_none_recursively(data)` called without `max_depth`: nothing is
   * left to remove within the default depth, and the value comes back
   * unchanged exactly when there was nothing to remove.
   */
  function RemoveNone(data: Value): (r: Value)
    ensures NoneFree(r, DefaultMaxDepth)
    ensures r == data <==> NoneFree(data, DefaultMaxDepth)
  {
    RemoveNoneIsNoneFree(data, DefaultMaxDepth);
    FixpointIffNoneFree(data, DefaultMaxDepth);
    RemoveNoneRecursively(data, DefaultMaxDepth)
  }

  function RemoveNoneRecursively(data: Value, maxDepth: int): (r: Value)
    ensures maxDepth <= 0 || !data.Dict? ==> r == data
    ensures data.Dict? <==> r.Dict?
    ensures r == Null <==> data == Null
    decreases data, 1
  {
    if maxDepth <= 0 then data
    else match data
      case Dict(fields) => Dict(RemoveNoneFields(fields, maxDepth - 1))
      case _ => data
  }

  /** The dictionary comprehension: keep the non-`None` entries, each cleaned at `depth`. */
  function RemoveNoneFields(fields: seq<Field>, depth: int): (r: seq<Field>)
    ensures |r| <= |fields|
    ensures forall i :: 0 <= i < |r| ==> r[i].value != Null
    decreases fields, 0
  {
    if fields == [] then []
    else
      var rest := RemoveNoneFields(fields[1..], depth);
      if fields[0].value == Null then rest
      else [Field(fields[0].key, RemoveNoneRecursively(fields[0].value, depth))] + rest
  }

  /** No `None` value remains in any dictionary shallower than `depth`. */
  predicate NoneFree(v: Value, depth: int)
    decreases v, 1
  {
    depth <= 0 ||
    match v
    case Dict(fields) => FieldsNoneFree(fields, depth - 1)
    case _ => true
  }

  predicate FieldsNoneFree(fields: seq<Field>, depth: int)
    decreases fields, 0
  {
    forall i :: 0 <= i < |fields| ==> fields[i].value != Null && NoneFree(fields[i].value, depth)
  }

  /** One pass leaves nothing to remove within `maxDepth`. */
  lemma {:induction false} RemoveNoneIsNoneFree(data: Value, maxDepth: int)
    ensures NoneFree(RemoveNoneRecursively(data, maxDepth), maxDepth)
    decreases data, 1
  {
    if maxDepth > 0 && data.Dict? {
      RemoveNoneFieldsIsNoneFree(data.fields, maxDepth - 1);
    }
  }

  lemma {:induction false} RemoveNoneFieldsIsNoneFree(fields: seq<Field>, depth: int)
    ensures FieldsNoneFree(RemoveNoneFields(fields, depth), depth)
    decreases fields, 0
  {
    if fields != [] {
      RemoveNoneFieldsIsNoneFree(fields[1..], depth);
      if fields[0].value != Null {
        RemoveNoneIsNoneFree(fields[0].value, depth);
      }
    }
  }

  /** A value is left unchanged exactly when it is already free of `None` within `maxDepth`. */
  lemma {:induction false} FixpointIffNoneFree(data: Value, maxDepth: int)
    ensures RemoveNoneRecursively(data, maxDepth) == data <==> NoneFree(data, maxDepth)
    decreases data, 1
  {
    if maxDepth > 0 && data.Dict? {
      FieldsFixpointIffNoneFree(data.fields, maxDepth - 1);
    }
  }

  lemma {:induction false} FieldsFixpointIffNoneFree(fields: seq<Field>, depth: int)
    ensures RemoveNoneFields(fields, depth) == fields <==> FieldsNoneFree(fields, depth)
    decreases fields, 0
  {
    if fields != [] {
      var f := fields[0];
      FieldsFixpointIffNoneFree(fields[1..], depth);
      FixpointIffNoneFree(f.value, depth);
      var rest := RemoveNoneFields(fields[1..], depth);
      if f.value == Null {
        // the result is no longer than the tail, so it cannot be the whole input
        assert |RemoveNoneFields(fields, depth)| < |fields|;
      } else {
        var r := RemoveNoneFields(fields, depth);
        assert r == [Field(f.key, RemoveNoneRecursively(f.value, depth))] + rest;
        if r == fields {
          assert rest == fields[1..] by { assert r[1..] == rest; }
        }
        if FieldsNoneFree(fields, depth) {
          assert FieldsNoneFree(fields[1..], depth) by {
            forall i | 0 <= i < |fields[1..]|
              ensures fields[1..][i].value != Null && NoneFree(fields[1..][i].value, depth)
            {
              assert fields[1..][i] == fields[i + 1];
            }
          }
        }
        if r == fields {
          forall i | 0 <= i < |fields|
            ensures fields[i].value != Null && NoneFree(fields[i].value, depth)
          {
            if i > 0 { assert fields[i] == fields[1..][i - 1]; }
          }
        }
      }
    }
  }

  /** Applying the function twice with the same depth gives the same result as applying it once. */
  lemma RemoveNoneIdempotent(data: Value, maxDepth: int)
    ensures RemoveNoneRecursively(RemoveNoneRecursively(data, maxDepth), maxDepth)
         == RemoveNoneRecursively(data, maxDepth)
  {
    var once := RemoveNoneRecursively(data, maxDepth);
    RemoveNoneIsNoneFree(data, maxDepth);
    FixpointIffNoneFree(once, maxDepth);
  }

  /** The kept keys are a subsequence of the input keys: the comprehension keeps their order. */
  lemma {:induction false} RemoveNoneFieldsOrder(fields: seq<Field>, depth: int)
    ensures IsSubsequence(Keys(RemoveNoneFields(fields, depth)), Keys(fields))
  {
    if fields != [] {
      var f := fields[0];
      var tail := fields[1..];
      RemoveNoneFieldsOrder(tail, depth);
      var rest := RemoveNoneFields(tail, depth);
      assert Keys(fields) == [f.key] + Keys(tail);
      if f.value == Null {
        SubsequenceCons(Keys(rest), Keys(tail), f.key);
      } else {
        var r := RemoveNoneFields(fields, depth);
        assert r[1..] == rest;
        assert Keys(r)[1..] == Keys(rest);
        assert Keys(fields)[1..] == Keys(tail);
      }
    }
  }

  /** A dictionary without duplicate keys gives one without duplicate keys. */
  lemma {:induction false} RemoveNoneFieldsDistinct(fields: seq<Field>, depth: int)
    requires DistinctKeys(fields)
    ensures DistinctKeys(RemoveNoneFields(fields, depth))
  {
    if fields != [] {
      var f := fields[0];
      var tail := fields[1..];
      assert DistinctKeys(tail) by {
        forall i, j | 0 <= i < j < |tail| ensures tail[i].key != tail[j].key {
          assert tail[i] == fields[i + 1] && tail[j] == fields[j + 1];
        }
      }
      RemoveNoneFieldsDistinct(tail, depth);
      var rest := RemoveNoneFields(tail, depth);
      if f.value != Null {
        RemoveNoneFieldsOrder(tail, depth);
        SubsequenceMembers(Keys(rest), Keys(tail));
        assert f.key !in Keys(tail) by {
          forall i | 0 <= i < |tail| ensures Keys(tail)[i] != f.key {
            assert tail[i] == fields[i + 1];
          }
        }
        var r := RemoveNoneFields(fields, depth);
        assert r[1..] == rest;
        forall i, j | 0 <= i < j < |r| ensures r[i].key != r[j].key {
          if i == 0 {
            assert r[j] == rest[j - 1] && Keys(rest)[j - 1] == rest[j - 1].key;
          } else {
            assert r[i] == rest[i - 1] && r[j] == rest[j - 1];
          }
        }
      }
    }
  }

  /**
   * Reading a key of the result: a key is present exactly when the input
   * binds it to something other than `None`, and it is then bound to that
   * value cleaned at `depth`.
   */
  lemma {:induction false} RemoveNoneFieldsGet(fields: seq<Field>, depth: int, k: string)
    requires DistinctKeys(fields)
    ensures k in Keys(RemoveNoneFields(fields, depth)) <==> Get(fields, k).Some? && Get(fields, k).value != Null
    ensures Get(fields, k).Some? && Get(fields, k).value != Null ==>
              Get(RemoveNoneFields(fields, depth), k) == Some(RemoveNoneRecursively(Get(fields, k).value, depth))
  {
    if fields != [] {
      var f := fields[0];
      var tail := fields[1..];
      assert DistinctKeys(tail) by {
        forall i, j | 0 <= i < j < |tail| ensures tail[i].key != tail[j].key {
          assert tail[i] == fields[i + 1] && tail[j] == fields[j + 1];
        }
      }
      RemoveNoneFieldsGet(tail, depth, k);
      var rest := RemoveNoneFields(tail, depth);
      if f.value != Null {
        assert RemoveNoneFields(fields, depth)[1..] == rest;
      }
      if f.key == k {
        assert k !in Keys(tail) by {
          forall i | 0 <= i < |tail| ensures Keys(tail)[i] != k {
            assert tail[i] == fields[i + 1];
          }
        }
      }
    }
  }

  /**
   * `cleaned` is what the comprehension makes of `fields` at `depth`: exactly
   * the keys whose value is not `None`, in their original order and without
   * duplicates, each bound to its value cleaned at `depth`.
   */
  ghost predicate KeepsNonNull(fields: seq<Field>, cleaned: seq<Field>, depth: int)
  {
    && IsSubsequence(Keys(cleaned), Keys(fields))
    && DistinctKeys(cleaned)
    && (forall k :: k in Keys(cleaned) <==> Get(fields, k).Some? && Get(fields, k).value != Null)
    && (forall k :: Get(fields, k).Some? && Get(fields, k).value != Null ==>
          Get(cleaned, k) == Some(RemoveNoneRecursively(Get(fields, k).value, depth)))
  }

  /** The comprehension over a dictionary without duplicate keys keeps its non-`None` entries. */
  lemma RemoveNoneFieldsKeeps(fields: seq<Field>, depth: int)
    requires DistinctKeys(fields)
    ensures KeepsNonNull(fields, RemoveNoneFields(fields, depth), depth)
  {
    var r := RemoveNoneFields(fields, depth);
    RemoveNoneFieldsOrder(fields, depth);
    RemoveNoneFieldsDistinct(fields, depth);
    forall k
      ensures k in Keys(r) <==> Get(fields, k).Some? && Get(fields, k).value != Null
      ensures Get(fields, k).Some? && Get(fields, k).value != Null ==>
                Get(r, k) == Some(RemoveNoneRecursively(Get(fields, k).value, depth))
    {
      RemoveNoneFieldsGet(fields, depth, k);
    }
  }

  /**
   * The dictionary case of `remove_none_recursively`: on a dictionary without
   * duplicate keys the result is a dictionary that keeps the non-`None`
   * entries, cleaned at `max_depth - 1`.
   */
  lemma RemoveNoneDict(fields: seq<Field>, maxDepth: int)
    requires maxDepth > 0 && DistinctKeys(fields)
    ensures var r := RemoveNoneRecursively(Dict(fields), maxDepth);
      r.Dict? && KeepsNonNull(fields, r.fields, maxDepth - 1)
  {
    RemoveNoneFieldsKeeps(fields, maxDepth - 1);
  }
}
