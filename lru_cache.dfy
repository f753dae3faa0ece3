/**
 * The bounded least-recently-used cache with optional per-entry expiration
 * (GameHubApi.Providers/LruCache.cs).
 *
 * The linked list of the source is the sequence `list`, most recently used entry first;
 * the dictionary from keys to list nodes is the map `dict`, whose values are the entries the
 * nodes hold. The clock is the parameter `now`, an instant in milliseconds, and a time to
 * live is a duration in milliseconds. Each public call is one atomic step.
 */
module Lru {
  import opened Wrappers
  import Errors

  /** One node of the recency list: key, value and the optional instant the entry expires. */
  datatype Entry<K, V> = Entry(key: K, value: V, expiration: Option<int>)

  /** An entry is live while it has no expiration or the clock is strictly before it. */
  predicate Live<K, V>(e: Entry<K, V>, now: int)
  {
    e.expiration.None? || now < e.expiration.value
  }

  /** `DateTime.UtcNow.Add(timeToLive)`, or no expiration. */
  function Expiration(timeToLive: Option<int>, now: int): Option<int>
  {
    match timeToLive
    case None => None
    case Some(ttl) => Some(now + ttl)
  }

  // ---------------------------------------------------------------- the recency list

  predicate HasKey<K(==), V>(list: seq<Entry<K, V>>, k: K)
  {
    exists i | 0 <= i < |list| :: list[i].key == k
  }

  predicate DistinctKeys<K(==), V>(list: seq<Entry<K, V>>)
  {
    forall i, j | 0 <= i < j < |list| :: list[i].key != list[j].key
  }

  /** The keys of the list, most recently used first. */
  function Keys<K(==), V>(list: seq<Entry<K, V>>): (ks: seq<K>)
    ensures |ks| == |list|
    ensures forall i | 0 <= i < |list| :: ks[i] == list[i].key
  {
    if list == [] then [] else [list[0].key] + Keys(list[1..])
  }

  /** The position of the entry for `k`, if any. */
  function Find<K(==), V>(list: seq<Entry<K, V>>, k: K): (r: Option<nat>)
    ensures r.Some? ==> r.value < |list| && list[r.value].key == k
    ensures r.Some? ==> forall j | 0 <= j < r.value :: list[j].key != k
    ensures r.None? <==> !HasKey(list, k)
  {
    if list == [] then None
    else if list[0].key == k then Some(0)
    else
      match Find(list[1..], k)
      case None =>
        assert forall i | 1 <= i < |list| :: list[i] == list[1..][i - 1];
        None
      case Some(i) => Some(i + 1)
  }

  /** The list without position `i`. */
  function Without<T>(list: seq<T>, i: nat): (r: seq<T>)
    requires i < |list|
    ensures |r| == |list| - 1
  {
    list[..i] + list[i + 1..]
  }

  /** `LinkedList.Remove(node)` for the node of key `k`: the list with that key's entries dropped. */
  function Unlink<K(==), V>(list: seq<Entry<K, V>>, k: K): (r: seq<Entry<K, V>>)
    ensures forall e | e in r :: e in list && e.key != k
    ensures forall e | e in list && e.key != k :: e in r
  {
    if list == [] then []
    else if list[0].key == k then Unlink(list[1..], k)
    else [list[0]] + Unlink(list[1..], k)
  }

  lemma {:induction false} UnlinkAbsent<K, V>(list: seq<Entry<K, V>>, k: K)
    requires !HasKey(list, k)
    ensures Unlink(list, k) == list
  {
    if list != [] {
      assert list[0].key != k;
      assert !HasKey(list[1..], k) by {
        forall i | 0 <= i < |list[1..]| ensures list[1..][i].key != k {
          assert list[1..][i] == list[i + 1];
        }
      }
      UnlinkAbsent(list[1..], k);
      assert list == [list[0]] + list[1..];
    }
  }

  /** With distinct keys, unlinking the key at `i` removes position `i` and nothing else. */
  lemma {:induction false} UnlinkAt<K, V>(list: seq<Entry<K, V>>, i: nat)
    requires DistinctKeys(list) && i < |list|
    ensures Unlink(list, list[i].key) == Without(list, i)
  {
    var k := list[i].key;
    TailDistinct(list);
    if i == 0 {
      UnlinkHead(list);
    } else {
      var rest := list[1..];
      assert list[0].key != k;
      assert rest[i - 1] == list[i];
      UnlinkAt(rest, i - 1);
      WithoutCons(list, i);
    }
  }

  /** With distinct keys, unlinking the first key drops the first entry only. */
  lemma UnlinkHead<K, V>(list: seq<Entry<K, V>>)
    requires DistinctKeys(list) && list != []
    ensures Unlink(list, list[0].key) == Without(list, 0)
  {
    var k := list[0].key;
    assert !HasKey(list[1..], k) by {
      forall j | 0 <= j < |list[1..]| ensures list[1..][j].key != k {
        assert list[1..][j] == list[j + 1];
      }
    }
    UnlinkAbsent(list[1..], k);
    assert Without(list, 0) == list[1..];
  }

  lemma TailDistinct<K, V>(list: seq<Entry<K, V>>)
    requires DistinctKeys(list) && list != []
    ensures DistinctKeys(list[1..])
  {
    var rest := list[1..];
    forall a, b | 0 <= a < b < |rest| ensures rest[a].key != rest[b].key {
      assert rest[a] == list[a + 1] && rest[b] == list[b + 1];
    }
  }

  lemma WithoutCons<T>(list: seq<T>, i: nat)
    requires 0 < i < |list|
    ensures Without(list, i) == [list[0]] + Without(list[1..], i - 1)
  {
    assert list[1..][..i - 1] == list[1..i] && list[1..][i..] == list[i + 1..];
    assert list[..i] == [list[0]] + list[1..i];
  }

  lemma WithoutDistinct<K, V>(list: seq<Entry<K, V>>, i: nat)
    requires DistinctKeys(list) && i < |list|
    ensures DistinctKeys(Without(list, i))
    ensures forall k :: HasKey(Without(list, i), k) <==> HasKey(list, k) && k != list[i].key
  {
    var w := Without(list, i);
    assert forall j | 0 <= j < |w| :: w[j] == if j < i then list[j] else list[j + 1];
    forall k | HasKey(list, k) && k != list[i].key ensures HasKey(w, k) {
      var j :| 0 <= j < |list| && list[j].key == k;
      if j < i { assert w[j].key == k; } else { assert w[j - 1].key == k; }
    }
  }

  lemma PrefixDistinct<K, V>(list: seq<Entry<K, V>>, n: nat)
    requires DistinctKeys(list) && n <= |list|
    ensures DistinctKeys(list[..n])
    ensures forall k :: HasKey(list[..n], k) <==> exists j | 0 <= j < n :: list[j].key == k
  {
    assert forall j | 0 <= j < n :: list[..n][j] == list[j];
  }

  lemma PushDistinct<K, V>(e: Entry<K, V>, list: seq<Entry<K, V>>)
    requires DistinctKeys(list) && !HasKey(list, e.key)
    ensures DistinctKeys([e] + list)
    ensures forall k :: HasKey([e] + list, k) <==> k == e.key || HasKey(list, k)
  {
    var p := [e] + list;
    assert forall j | 1 <= j < |p| :: p[j] == list[j - 1];
    forall k | HasKey(list, k) ensures HasKey(p, k) {
      var j :| 0 <= j < |list| && list[j].key == k;
      assert p[j + 1].key == k;
    }
    assert p[0].key == e.key;
  }

  // ---------------------------------------------------------------- what each call does

  /** The value `Get` returns: the stored value of a live entry, otherwise null. */
  function GetResult<K(==), V>(list: seq<Entry<K, V>>, key: K, now: int): Option<V>
  {
    match Find(list, key)
    case None => None
    case Some(i) => if Live(list[i], now) then Some(list[i].value) else None
  }

  /** The recency list after `Get`: a live entry moves to the front, an expired one is dropped. */
  function GetState<K(==), V>(list: seq<Entry<K, V>>, key: K, now: int): seq<Entry<K, V>>
  {
    match Find(list, key)
    case None => list
    case Some(i) => if Live(list[i], now) then [list[i]] + Without(list, i) else Without(list, i)
  }

  /**
   * The recency list after `Set`: an existing entry for the key is dropped, otherwise a full
   * cache loses its last entry; the new entry goes to the front.
   */
  function SetState<K(==), V>(list: seq<Entry<K, V>>, size: int, key: K, value: V, expiration: Option<int>): seq<Entry<K, V>>
    requires 1 <= size
  {
    var e := Entry(key, value, expiration);
    match Find(list, key)
    case Some(i) => [e] + Without(list, i)
    case None => if |list| >= size then [e] + list[..|list| - 1] else [e] + list
  }

  /** The recency list after `Remove`. */
  function RemoveState<K(==), V>(list: seq<Entry<K, V>>, key: K): seq<Entry<K, V>>
  {
    match Find(list, key)
    case None => list
    case Some(i) => Without(list, i)
  }

  /**
   * The dictionary indexes exactly the keys of the list, each key once, and maps each key to
   * the entry its node holds.
   */
  ghost predicate Coherent<K, V>(list: seq<Entry<K, V>>, dict: map<K, Entry<K, V>>)
  {
    && DistinctKeys(list)
    && (forall k | k in dict :: HasKey(list, k))
    && (forall i | 0 <= i < |list| :: list[i].key in dict && dict[list[i].key] == list[i])
  }

  lemma CoherentLookup<K, V>(list: seq<Entry<K, V>>, dict: map<K, Entry<K, V>>, k: K)
    requires Coherent(list, dict) && k in dict
    ensures Find(list, k).Some? && dict[k] == list[Find(list, k).value]
  {
  }

  /** Dropping position `i` from the list and its key from the dictionary keeps them coherent. */
  lemma CoherentWithout<K, V>(list: seq<Entry<K, V>>, dict: map<K, Entry<K, V>>, i: nat)
    requires Coherent(list, dict) && i < |list|
    ensures Coherent(Without(list, i), dict - {list[i].key})
  {
    var w := Without(list, i);
    WithoutDistinct(list, i);
    forall j | 0 <= j < |w| ensures w[j].key in dict - {list[i].key} && (dict - {list[i].key})[w[j].key] == w[j] {
      if j < i { assert w[j] == list[j]; } else { assert w[j] == list[j + 1]; }
    }
  }

  /** Pushing an entry for a new key to the front and indexing it keeps them coherent. */
  lemma CoherentPush<K, V>(list: seq<Entry<K, V>>, dict: map<K, Entry<K, V>>, e: Entry<K, V>)
    requires Coherent(list, dict) && e.key !in dict
    ensures Coherent([e] + list, dict[e.key := e])
  {
    var p := [e] + list;
    PushDistinct(e, list);
    forall j | 0 <= j < |p| ensures p[j].key in dict[e.key := e] && dict[e.key := e][p[j].key] == p[j] {
      if j > 0 { assert p[j] == list[j - 1]; }
    }
  }

  /** A live entry found through the dictionary moves to the front, and the pair stays coherent. */
  lemma GetLive<K, V>(list: seq<Entry<K, V>>, dict: map<K, Entry<K, V>>, key: K, now: int)
    requires Coherent(list, dict) && key in dict && Live(dict[key], now)
    ensures Coherent([dict[key]] + Unlink(list, key), dict)
    ensures [dict[key]] + Unlink(list, key) == GetState(list, key, now)
    ensures GetResult(list, key, now) == Some(dict[key].value)
  {
    CoherentLookup(list, dict, key);
    var i := Find(list, key).value;
    assert list[i] == dict[key];
    UnlinkAt(list, i);
    CoherentMoveToFront(list, dict, i);
  }

  /** Moving the entry at `i` to the front keeps the pair coherent. */
  lemma CoherentMoveToFront<K, V>(list: seq<Entry<K, V>>, dict: map<K, Entry<K, V>>, i: nat)
    requires Coherent(list, dict) && i < |list|
    ensures Coherent([list[i]] + Without(list, i), dict)
  {
    var e := list[i];
    CoherentWithout(list, dict, i);
    CoherentPush(Without(list, i), dict - {e.key}, e);
    assert (dict - {e.key})[e.key := e] == dict;
  }

  /** An expired entry found through the dictionary is what `Remove` drops. */
  lemma GetExpired<K, V>(list: seq<Entry<K, V>>, dict: map<K, Entry<K, V>>, key: K, now: int)
    requires Coherent(list, dict) && key in dict && !Live(dict[key], now)
    ensures RemoveState(list, key) == GetState(list, key, now)
    ensures GetResult(list, key, now) == None
  {
    CoherentLookup(list, dict, key);
  }

  lemma {:induction false} CoherentSize<K, V>(list: seq<Entry<K, V>>, dict: map<K, Entry<K, V>>)
    requires Coherent(list, dict)
    ensures |dict| == |list|
  {
    if list != [] {
      var k := list[0].key;
      CoherentWithout(list, dict, 0);
      assert Without(list, 0) == list[1..];
      CoherentSize(list[1..], dict - {k});
      assert k in dict;
      assert |dict - {k}| == |dict| - 1;
    }
  }

  // ---------------------------------------------------------------- the cache object

  class LruCache<K(==), V> {
    /** The maximum number of entries, fixed at construction. */
    const size: int
    var list: seq<Entry<K, V>>
    var dict: map<K, Entry<K, V>>

    ghost predicate Valid()
      reads this
    {
      1 <= size && |list| <= size && Coherent(list, dict)
    }

    /** The source's constructor after its guard has passed. */
    constructor(size: int)
      requires 1 <= size
      ensures Valid() && this.size == size && list == [] && dict == map[]
    {
      this.size := size;
      list := [];
      dict := map[];
    }

    /** `new LruCache(size)`: a capacity below 1 is rejected with ArgumentOutOfRangeException. */
    static method Create(size: int) returns (r: Result<LruCache<K, V>, Errors.Exception>)
      ensures size < 1 <==> r.Failure?
      ensures r.Failure? ==> r.error == Errors.ArgumentOutOfRangeException("size")
      ensures r.Success? ==> fresh(r.value) && r.value.Valid() && r.value.size == size && r.value.list == []
    {
      if size < 1 {
        return Failure(Errors.ArgumentOutOfRangeException("size"));
      }
      var c := new LruCache(size);
      return Success(c);
    }

    /** `Get` / `GetInternal`. */
    method Get(key: K, now: int) returns (r: Option<V>)
      requires Valid()
      modifies this
      ensures Valid()
      ensures r == GetResult(old(list), key, now)
      ensures list == GetState(old(list), key, now)
    {
      if key in dict {
        var e := dict[key];
        if e.expiration.None? || now < e.expiration.value {
          GetLive(list, dict, key, now);
          list := [e] + Unlink(list, key);
          return Some(e.value);
        } else {
          GetExpired(list, dict, key, now);
          Remove(key);
        }
      } else {
        assert !HasKey(list, key);
      }
      return None;
    }

    /** `Set` / `SetInternal`; `timeToLive` None is a null TimeSpan. */
    method Set(key: K, value: V, timeToLive: Option<int>, now: int)
      requires Valid()
      modifies this
      ensures Valid()
      ensures list == SetState(old(list), size, key, value, Expiration(timeToLive, now))
    {
      if key in dict {
        var i := Find(list, key).value;
        UnlinkAt(list, i);
        CoherentWithout(list, dict, i);
        list := Unlink(list, key);
        dict := dict - {key};
      } else if |list| >= size {
        var last := list[|list| - 1];
        CoherentWithout(list, dict, |list| - 1);
        assert Without(list, |list| - 1) == list[..|list| - 1];
        dict := dict - {last.key};
        list := list[..|list| - 1];
      }
      var e := Entry(key, value, Expiration(timeToLive, now));
      CoherentPush(list, dict, e);
      list := [e] + list;
      dict := dict[key := e];
    }

    /** `Remove` / `RemoveInternal`. */
    method Remove(key: K)
      requires Valid()
      modifies this
      ensures Valid()
      ensures list == RemoveState(old(list), key)
    {
      if key in dict {
        var i := Find(list, key).value;
        UnlinkAt(list, i);
        CoherentWithout(list, dict, i);
        list := Unlink(list, key);
        dict := dict - {key};
      }
    }

    /** `Clear` / `ClearInternal`. */
    method Clear()
      requires Valid()
      modifies this
      ensures Valid() && list == [] && dict == map[]
    {
      list := [];
      dict := map[];
    }
  }

  // ---------------------------------------------------------------- properties of the cache

  /**
   * `Set` keeps the keys distinct and the count within capacity; afterwards the key is present
   * and every other key present was present before.
   */
  lemma SetKeepsInvariant<K, V>(list: seq<Entry<K, V>>, size: int, key: K, value: V, expiration: Option<int>)
    requires 1 <= size && |list| <= size && DistinctKeys(list)
    ensures var l := SetState(list, size, key, value, expiration);
            && DistinctKeys(l) && 1 <= |l| <= size
            && l[0] == Entry(key, value, expiration)
            && forall k :: HasKey(l, k) ==> k == key || HasKey(list, k)
  {
    var e := Entry(key, value, expiration);
    match Find(list, key)
    case Some(i) =>
      WithoutDistinct(list, i);
      PushDistinct(e, Without(list, i));
    case None =>
      if |list| >= size {
        PrefixDistinct(list, |list| - 1);
        assert !HasKey(list[..|list| - 1], key);
        PushDistinct(e, list[..|list| - 1]);
      } else {
        PushDistinct(e, list);
      }
  }

  /**
   * A new key on a full cache evicts exactly the last (least recently used) entry, whatever its
   * expiration, and goes to the front; the other entries keep their order.
   */
  lemma SetEvictsLeastRecentlyUsed<K, V>(list: seq<Entry<K, V>>, size: int, key: K, value: V, expiration: Option<int>)
    requires 1 <= size && |list| == size && DistinctKeys(list) && !HasKey(list, key)
    ensures var l := SetState(list, size, key, value, expiration);
            && l == [Entry(key, value, expiration)] + list[..|list| - 1]
            && |l| == size
            && !HasKey(l, list[|list| - 1].key)
  {
    var l := SetState(list, size, key, value, expiration);
    var victim := list[|list| - 1].key;
    PrefixDistinct(list, |list| - 1);
    forall j | 0 <= j < |l| ensures l[j].key != victim {
      if j > 0 { assert l[j] == list[j - 1]; }
    }
  }

  /** A new key on a cache with room evicts nothing. */
  lemma SetWithRoomKeepsAll<K, V>(list: seq<Entry<K, V>>, size: int, key: K, value: V, expiration: Option<int>)
    requires 1 <= size && |list| < size && !HasKey(list, key)
    ensures SetState(list, size, key, value, expiration) == [Entry(key, value, expiration)] + list
  {
  }

  /**
   * Setting an existing key replaces its value and expiration and moves it to the front;
   * nothing is evicted and the count is unchanged.
   */
  lemma SetExistingReplaces<K, V>(list: seq<Entry<K, V>>, size: int, key: K, value: V, expiration: Option<int>)
    requires 1 <= size && DistinctKeys(list) && HasKey(list, key)
    ensures var l := SetState(list, size, key, value, expiration);
            && |l| == |list|
            && l[0] == Entry(key, value, expiration)
            && (forall k :: HasKey(l, k) <==> HasKey(list, k))
            && l[1..] == Unlink(list, key)
  {
    var i := Find(list, key).value;
    var e := Entry(key, value, expiration);
    UnlinkAt(list, i);
    WithoutDistinct(list, i);
    PushDistinct(e, Without(list, i));
  }

  /**
   * A live hit returns the stored value and moves that entry to the front; the other entries
   * keep their relative order.
   */
  lemma GetLiveMovesToFront<K, V>(list: seq<Entry<K, V>>, key: K, now: int, i: nat)
    requires DistinctKeys(list) && i < |list| && list[i].key == key && Live(list[i], now)
    ensures GetResult(list, key, now) == Some(list[i].value)
    ensures GetState(list, key, now) == [list[i]] + list[..i] + list[i + 1..]
  {
    assert Find(list, key) == Some(i);
  }

  /** An expired hit returns null and drops the entry, so every later `Get` of it is null too. */
  lemma GetExpiredRemoves<K, V>(list: seq<Entry<K, V>>, key: K, now: int, i: nat, later: int)
    requires DistinctKeys(list) && i < |list| && list[i].key == key && !Live(list[i], now)
    ensures GetResult(list, key, now) == None
    ensures GetState(list, key, now) == list[..i] + list[i + 1..]
    ensures GetResult(GetState(list, key, now), key, later) == None
    ensures GetState(GetState(list, key, now), key, later) == GetState(list, key, now)
  {
    assert Find(list, key) == Some(i);
    WithoutDistinct(list, i);
  }

  /** `Get` keeps the keys distinct and never grows the list. */
  lemma GetKeepsInvariant<K, V>(list: seq<Entry<K, V>>, key: K, now: int)
    requires DistinctKeys(list)
    ensures DistinctKeys(GetState(list, key, now)) && |GetState(list, key, now)| <= |list|
  {
    match Find(list, key)
    case None =>
    case Some(i) =>
      WithoutDistinct(list, i);
      if Live(list[i], now) {
        PushDistinct(list[i], Without(list, i));
      }
  }

  /** A second `Get` at the same instant answers as the first did. */
  lemma GetRepeatable<K, V>(list: seq<Entry<K, V>>, key: K, now: int)
    requires DistinctKeys(list)
    ensures GetResult(GetState(list, key, now), key, now) == GetResult(list, key, now)
  {
    match Find(list, key)
    case None =>
    case Some(i) =>
      WithoutDistinct(list, i);
      if Live(list[i], now) {
        assert Find([list[i]] + Without(list, i), key) == Some(0);
      }
  }

  /** A missing key reads as null and changes nothing. */
  lemma GetAbsentChangesNothing<K, V>(list: seq<Entry<K, V>>, key: K, now: int)
    requires !HasKey(list, key)
    ensures GetResult(list, key, now) == None && GetState(list, key, now) == list
  {
  }

  /** An entry set without a time to live is found by the next `Get`, at any instant. */
  lemma SetThenGetWithoutExpiration<K, V>(list: seq<Entry<K, V>>, size: int, key: K, value: V, now: int, later: int)
    requires 1 <= size
    ensures GetResult(SetState(list, size, key, value, Expiration(None, now)), key, later) == Some(value)
  {
  }

  /** An entry set with a time to live is found by a `Get` strictly before it expires, and not after. */
  lemma SetThenGetWithExpiration<K, V>(list: seq<Entry<K, V>>, size: int, key: K, value: V, ttl: int, now: int, later: int)
    requires 1 <= size
    ensures GetResult(SetState(list, size, key, value, Expiration(Some(ttl), now)), key, later)
         == if later < now + ttl then Some(value) else None
  {
  }

  /** Removing a missing key does nothing; removing a present key drops that key only. */
  lemma RemoveDropsOnlyThatKey<K, V>(list: seq<Entry<K, V>>, key: K)
    requires DistinctKeys(list)
    ensures !HasKey(list, key) ==> RemoveState(list, key) == list
    ensures var l := RemoveState(list, key);
            && DistinctKeys(l)
            && (forall k :: HasKey(l, k) <==> HasKey(list, k) && k != key)
            && l == Unlink(list, key)
  {
    match Find(list, key)
    case None => UnlinkAbsent(list, key);
    case Some(i) =>
      UnlinkAt(list, i);
      WithoutDistinct(list, i);
  }

  /**
   * Capacity two: set A, set B, read A, set C. Reading A made B the least recently used entry,
   * so C evicts B and the recency order is C, A.
   */
  lemma ReadProtectsFromEviction(a: string, b: string, c: string, va: int, vb: int, vc: int, now: int)
    requires a != b && b != c && a != c
    ensures var l1 := SetState([], 2, a, va, None);
            var l2 := SetState(l1, 2, b, vb, None);
            var l3 := GetState(l2, a, now);
            var l4 := SetState(l3, 2, c, vc, None);
            && GetResult(l2, a, now) == Some(va)
            && Keys(l4) == [c, a]
            && GetResult(l4, b, now) == None
  {
    var l1 := SetState([], 2, a, va, None);
    assert l1 == [Entry(a, va, None)];
    var l2 := SetState(l1, 2, b, vb, None);
    assert Find(l1, b) == None;
    assert l2 == [Entry(b, vb, None), Entry(a, va, None)];
    assert Find(l2, a) == Some(1);
    var l3 := GetState(l2, a, now);
    assert l3 == [Entry(a, va, None), Entry(b, vb, None)];
    assert Find(l3, c) == None;
    var l4 := SetState(l3, 2, c, vc, None);
    assert l4 == [Entry(c, vc, None), Entry(a, va, None)];
    assert Find(l4, b) == None;
  }
}
