/** The dictionary-filling loop that the response normalisers share: visit the items of a
    response in order, skip the ones without a key, store each other item's processed value
    under its key so that a later item overwrites an earlier one with the same key, and give
    up with the first exception a processed value raises. */
module Keyed {
  import opened Wrappers

  /** The dictionary after visiting all of `items`; `keyOf` is `None` for a skipped item. */
  function ByKey<R, V>(items: seq<R>, keyOf: R -> Option<string>, valueOf: R -> Result<V>): Result<map<string, V>>
    decreases |items|
  {
    if items == [] then Ok(map[])
    else
      match ByKey(items[..|items| - 1], keyOf, valueOf)
      case Err(e) => Err(e)
      case Ok(m) =>
        var x := items[|items| - 1];
        match keyOf(x)
        case None => Ok(m)
        case Some(k) =>
          match valueOf(x)
          case Err(e) => Err(e)
          case Ok(v) => Ok(m[k := v])
  }

  /** One more kept item, whose value is `v`. */
  lemma ByKeyStored<R, V>(items: seq<R>, keyOf: R -> Option<string>, valueOf: R -> Result<V>,
                          i: nat, m: map<string, V>, k: string, v: V)
    requires i < |items| && ByKey(items[..i], keyOf, valueOf) == Ok(m)
    requires keyOf(items[i]) == Some(k) && valueOf(items[i]) == Ok(v)
    ensures ByKey(items[..i + 1], keyOf, valueOf) == Ok(m[k := v])
  {
    assert items[..i + 1][..i] == items[..i];
  }

  /** One more item, skipped. */
  lemma ByKeySkipped<R, V>(items: seq<R>, keyOf: R -> Option<string>, valueOf: R -> Result<V>,
                           i: nat, m: map<string, V>)
    requires i < |items| && ByKey(items[..i], keyOf, valueOf) == Ok(m)
    requires keyOf(items[i]).None?
    ensures ByKey(items[..i + 1], keyOf, valueOf) == Ok(m)
  {
    assert items[..i + 1][..i] == items[..i];
  }

  /** One more kept item, whose value raises `e`. */
  lemma ByKeyRaised<R, V>(items: seq<R>, keyOf: R -> Option<string>, valueOf: R -> Result<V>,
                          i: nat, m: map<string, V>, e: Error)
    requires i < |items| && ByKey(items[..i], keyOf, valueOf) == Ok(m)
    requires keyOf(items[i]).Some? && valueOf(items[i]) == Err(e)
    ensures ByKey(items[..i + 1], keyOf, valueOf) == Err(e)
  {
    assert items[..i + 1][..i] == items[..i];
  }

  /** Once an item raises, the rest of the items are not visited. */
  lemma {:induction false} ByKeyStaysFailed<R, V>(items: seq<R>, keyOf: R -> Option<string>, valueOf: R -> Result<V>,
                                                  i: nat, e: Error)
    requires i <= |items| && ByKey(items[..i], keyOf, valueOf) == Err(e)
    ensures ByKey(items, keyOf, valueOf) == Err(e)
    decreases |items| - i
  {
    if i == |items| {
      assert items[..i] == items;
    } else {
      assert items[..i + 1][..i] == items[..i];
      ByKeyStaysFailed(items, keyOf, valueOf, i + 1, e);
    }
  }

  /** A relation that holds between every kept item's key and value holds between every
      key of the dictionary and the value stored under it. */
  lemma {:induction false} ByKeyAll<R, V>(items: seq<R>, keyOf: R -> Option<string>, valueOf: R -> Result<V>,
                                          p: (string, V) -> bool)
    requires forall j :: 0 <= j < |items| && keyOf(items[j]).Some? && valueOf(items[j]).Ok? ==>
      p(keyOf(items[j]).value, valueOf(items[j]).value)
    requires ByKey(items, keyOf, valueOf).Ok?
    ensures forall k :: k in ByKey(items, keyOf, valueOf).value ==> p(k, ByKey(items, keyOf, valueOf).value[k])
    decreases |items|
  {
    if items != [] {
      var n := |items| - 1;
      var front := items[..n];
      forall j | 0 <= j < n
        ensures front[j] == items[j]
      {
      }
      ByKeyAll(front, keyOf, valueOf, p);
    }
  }

  /** Item `j` is kept and its value raises. */
  predicate FailsAt<R, V>(items: seq<R>, keyOf: R -> Option<string>, valueOf: R -> Result<V>, j: int)
  {
    0 <= j < |items| && keyOf(items[j]).Some? && valueOf(items[j]).Err?
  }

  /** Item `j` is the last kept item whose key is `k`. */
  predicate LastWithKey<R>(items: seq<R>, keyOf: R -> Option<string>, k: string, j: int)
  {
    && 0 <= j < |items| && keyOf(items[j]) == Some(k)
    && forall j' :: j < j' < |items| ==> keyOf(items[j']) != Some(k)
  }

  /** The loop raises exactly when some kept item's value raises. */
  lemma {:induction false} ByKeyFails<R, V>(items: seq<R>, keyOf: R -> Option<string>, valueOf: R -> Result<V>)
    ensures ByKey(items, keyOf, valueOf).Err? <==> exists j :: FailsAt(items, keyOf, valueOf, j)
    decreases |items|
  {
    if items != [] {
      var n := |items| - 1;
      var front := items[..n];
      ByKeyFails(front, keyOf, valueOf);
      forall j | 0 <= j < n
        ensures FailsAt(front, keyOf, valueOf, j) <==> FailsAt(items, keyOf, valueOf, j)
      {
        assert front[j] == items[j];
      }
      if ByKey(front, keyOf, valueOf).Err? {
        var j :| FailsAt(front, keyOf, valueOf, j);
        assert FailsAt(items, keyOf, valueOf, j);
      } else if keyOf(items[n]).Some? && valueOf(items[n]).Err? {
        assert FailsAt(items, keyOf, valueOf, n);
      }
    }
  }

  /** The keys are exactly those of the kept items, and each key holds the value of the
      last kept item with that key. */
  lemma {:induction false} ByKeyContents<R, V>(items: seq<R>, keyOf: R -> Option<string>, valueOf: R -> Result<V>)
    requires ByKey(items, keyOf, valueOf).Ok?
    ensures var m := ByKey(items, keyOf, valueOf).value;
      && (forall k :: k in m <==> exists j :: 0 <= j < |items| && keyOf(items[j]) == Some(k))
      && (forall k, j :: LastWithKey(items, keyOf, k, j) ==> k in m && valueOf(items[j]) == Ok(m[k]))
    decreases |items|
  {
    if items != [] {
      var n := |items| - 1;
      var front := items[..n];
      var x := items[n];
      assert ByKey(front, keyOf, valueOf).Ok?;
      ByKeyContents(front, keyOf, valueOf);
      var m0 := ByKey(front, keyOf, valueOf).value;
      var m := ByKey(items, keyOf, valueOf).value;
      forall k
        ensures k in m <==> exists j :: 0 <= j < |items| && keyOf(items[j]) == Some(k)
      {
        if k in m0 {
          var j :| 0 <= j < |front| && keyOf(front[j]) == Some(k);
          assert items[j] == front[j];
        }
        if j :| 0 <= j < |items| && keyOf(items[j]) == Some(k) {
          if j < n {
            assert front[j] == items[j];
          }
        }
      }
      forall k, j | LastWithKey(items, keyOf, k, j)
        ensures k in m && valueOf(items[j]) == Ok(m[k])
      {
        if j < n {
          assert front[j] == items[j];
          assert LastWithKey(front, keyOf, k, j);
          assert keyOf(x) != Some(k);
        }
      }
    }
  }
}
