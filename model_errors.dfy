/**
 * `AddModelError` on a dictionary from keys to message arrays: a present key
 * gets the message appended, an absent key is added with a one-element array.
 */
module ModelErrors {

  /** The dictionary after one `AddModelError(key, value)`. */
  function WithModelError(d: map<string, seq<string>>, key: string, value: string): (r: map<string, seq<string>>)
    ensures key in r && r[key] == (if key in d then d[key] else []) + [value]
    ensures key !in d ==> r[key] == [value]
    ensures |r[key]| == (if key in d then |d[key]| else 0) + 1
    ensures r.Keys == d.Keys + {key}
    ensures |r| <= |d| + 1
    ensures forall k :: k in d && k != key ==> r[k] == d[k]
  {
    if key in d then d[key := d[key] + [value]] else d[key := [value]]
  }

  /** The dictionary after adding `(key, message)` pairs in order. */
  function WithModelErrors(d: map<string, seq<string>>, pairs: seq<(string, string)>): map<string, seq<string>>
    decreases |pairs|
  {
    if pairs == [] then d
    else
      var last := pairs[|pairs| - 1];
      WithModelError(WithModelErrors(d, pairs[..|pairs| - 1]), last.0, last.1)
  }

  /** The messages of the pairs with the given key, in order. */
  function MessagesFor(pairs: seq<(string, string)>, key: string): seq<string>
    decreases |pairs|
  {
    if pairs == [] then []
    else
      var last := pairs[|pairs| - 1];
      MessagesFor(pairs[..|pairs| - 1], key) + (if last.0 == key then [last.1] else [])
  }

  /**
   * Adding a sequence of errors keeps every key's messages in the order they
   * were added, after the messages it already had; a key appears iff it was
   * there before or some pair names it.
   */
  lemma {:induction false} ModelErrorsInOrder(d: map<string, seq<string>>, pairs: seq<(string, string)>, key: string)
    ensures key in WithModelErrors(d, pairs) <==> key in d || MessagesFor(pairs, key) != []
    ensures key in WithModelErrors(d, pairs) ==>
      WithModelErrors(d, pairs)[key] == (if key in d then d[key] else []) + MessagesFor(pairs, key)
    decreases |pairs|
  {
    if pairs != [] {
      var init := pairs[..|pairs| - 1];
      ModelErrorsInOrder(d, init, key);
      var before := WithModelErrors(d, init);
      var last := pairs[|pairs| - 1];
      if last.0 == key {
        assert MessagesFor(pairs, key) == MessagesFor(init, key) + [last.1];
      } else {
        assert MessagesFor(pairs, key) == MessagesFor(init, key) + [];
      }
    }
  }

  /** A dictionary of model errors that `AddModelError` updates in place. */
  class ErrorDictionary {
    var entries: map<string, seq<string>>

    constructor ()
      ensures entries == map[]
    {
      entries := map[];
    }

    /** Appends to a present key's array, or adds the key with `[value]`. */
    method AddModelError(key: string, value: string)
      modifies this
      ensures entries == WithModelError(old(entries), key, value)
    {
      if key in entries {
        entries := entries[key := entries[key] + [value]];
      } else {
        entries := entries[key := [value]];
      }
    }
  }
}
