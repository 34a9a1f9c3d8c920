/**
  * The two shapes the client gives a decoded JSON list: `foreach` appending
  * each decoded item to a list, and `foreach` storing each decoded item in an
  * array under a key read from it. Both stop at the first item that fails to
  * decode, and a later item stored under an existing key replaces it.
  */
module Listing {
  import opened Wrappers
  import opened JsonValues

  /** The items decoded in order; the error of the first item that does not decode. */
  function DecodeAll<T>(items: seq<Json>, decode: Json -> Result<T, DecodeError>): (r: Result<seq<T>, DecodeError>)
    ensures r.Success? ==> |r.value| == |items|
    ensures r.Success? ==> forall i :: 0 <= i < |items| ==> decode(items[i]) == Success(r.value[i])
    decreases |items|
  {
    if items == [] then Success([])
    else
      var front :- DecodeAll(items[..|items| - 1], decode);
      var last :- decode(items[|items| - 1]);
      Success(front + [last])
  }

  /** The decoded items stored under their keys, left to right. */
  function KeyedAll<K, V>(items: seq<Json>, decode: Json -> Result<V, DecodeError>, key: V -> K): (r: Result<map<K, V>, DecodeError>)
    ensures r.Success? ==> forall i :: 0 <= i < |items| ==> decode(items[i]).Success?
    ensures r.Success? ==> forall i :: 0 <= i < |items| ==> key(decode(items[i]).value) in r.value
    ensures r.Success? ==> forall k :: k in r.value ==> key(r.value[k]) == k
    decreases |items|
  {
    if items == [] then Success(map[])
    else
      var front :- KeyedAll(items[..|items| - 1], decode, key);
      var last :- decode(items[|items| - 1]);
      Success(front[key(last) := last])
  }

  /** An item that does not decode, with every item before it decoding, is the error of the whole list. */
  lemma {:induction false} FirstFailureWins<T>(items: seq<Json>, decode: Json -> Result<T, DecodeError>, i: nat)
    requires i < |items|
    requires DecodeAll(items[..i], decode).Success?
    requires decode(items[i]).Failure?
    ensures DecodeAll(items, decode) == Failure(decode(items[i]).error)
    decreases |items|
  {
    if i < |items| - 1 {
      var front := items[..|items| - 1];
      assert front[..i] == items[..i];
      FirstFailureWins(front, decode, i);
    } else {
      assert items[..|items| - 1] == items[..i];
    }
  }

  /** The same for the keyed shape. */
  lemma {:induction false} FirstKeyedFailureWins<K, V>(items: seq<Json>, decode: Json -> Result<V, DecodeError>, key: V -> K, i: nat)
    requires i < |items|
    requires KeyedAll(items[..i], decode, key).Success?
    requires decode(items[i]).Failure?
    ensures KeyedAll(items, decode, key) == Failure(decode(items[i]).error)
    decreases |items|
  {
    if i < |items| - 1 {
      var front := items[..|items| - 1];
      assert front[..i] == items[..i];
      FirstKeyedFailureWins(front, decode, key, i);
    } else {
      assert items[..|items| - 1] == items[..i];
    }
  }

  /** The list decodes exactly when every item does. */
  lemma {:induction false} DecodeAllSucceedsIff<T>(items: seq<Json>, decode: Json -> Result<T, DecodeError>)
    ensures DecodeAll(items, decode).Success? <==> forall i :: 0 <= i < |items| ==> decode(items[i]).Success?
    decreases |items|
  {
    if items != [] {
      var front := items[..|items| - 1];
      DecodeAllSucceedsIff(front, decode);
      assert forall i :: 0 <= i < |front| ==> front[i] == items[i];
    }
  }

  /** The keyed array holds a value exactly when some item decodes to a value with that key. */
  lemma {:induction false} KeyedAllKeys<K, V>(items: seq<Json>, decode: Json -> Result<V, DecodeError>, key: V -> K)
    requires KeyedAll(items, decode, key).Success?
    ensures forall k :: k in KeyedAll(items, decode, key).value <==>
      exists i :: 0 <= i < |items| && key(decode(items[i]).value) == k
    decreases |items|
  {
    if items != [] {
      var front := items[..|items| - 1];
      KeyedAllKeys(front, decode, key);
      assert forall i :: 0 <= i < |front| ==> front[i] == items[i];
    }
  }

  /**
    * Last one wins: the value stored under a key is the decoded item at some
    * position with that key, and no later item has the same key.
    */
  lemma {:induction false} KeyedAllLastWins<K, V>(items: seq<Json>, decode: Json -> Result<V, DecodeError>, key: V -> K, k: K)
    requires KeyedAll(items, decode, key).Success?
    requires k in KeyedAll(items, decode, key).value
    ensures exists i :: (0 <= i < |items| &&
      decode(items[i]).value == KeyedAll(items, decode, key).value[k] && key(decode(items[i]).value) == k &&
      forall j :: i < j < |items| ==> key(decode(items[j]).value) != k)
    decreases |items|
  {
    var n := |items| - 1;
    var front := items[..n];
    var r := KeyedAll(items, decode, key).value;
    var last := decode(items[n]).value;
    if key(last) == k {
      assert decode(items[n]).value == r[k];
    } else {
      KeyedAllLastWins(front, decode, key, k);
      var i :| 0 <= i < |front| &&
        decode(front[i]).value == KeyedAll(front, decode, key).value[k] && key(decode(front[i]).value) == k &&
        forall j :: i < j < |front| ==> key(decode(front[j]).value) != k;
      assert front[i] == items[i];
      forall j | i < j < |items|
        ensures key(decode(items[j]).value) != k
      {
        if j < n {
          assert front[j] == items[j];
        }
      }
    }
  }
}
