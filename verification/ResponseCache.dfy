// The byte-capped response cache of one handler: get, and put after a miss.
module ResponseCache {
  import opened Text
  import opened Clock

  const TTL := 60 * SECOND
  const MAX_BYTES := 8 * 1024 * 1024

  type Body = seq<bv8>

  datatype Entry = Entry(key: string, expires: int, body: Body)

  // An insertion-ordered dict: no two entries share a key.
  predicate DistinctKeys(es: seq<Entry>) {
    forall i, j :: 0 <= i < j < |es| ==> es[i].key != es[j].key
  }

  function Bytes(es: seq<Entry>): nat {
    if es == [] then 0 else |es[0].body| + Bytes(es[1..])
  }

  predicate Has(es: seq<Entry>, key: string) {
    exists i :: 0 <= i < |es| && es[i].key == key
  }

  function Lookup(es: seq<Entry>, key: string): (r: Option<Entry>)
    ensures r.Some? <==> Has(es, key)
    ensures r.Some? ==> r.value in es && r.value.key == key
  {
    if es == [] then None
    else if es[0].key == key then
      assert es[0].key == key;
      Some(es[0])
    else
      var r := Lookup(es[1..], key);
      assert r.None? ==> forall i :: 1 <= i < |es| ==> es[i] == es[1..][i - 1];
      r
  }

  function Without(es: seq<Entry>, key: string): (r: seq<Entry>)
    ensures forall e :: e in r <==> e in es && e.key != key
  {
    if es == [] then []
    else if es[0].key == key then Without(es[1..], key)
    else [es[0]] + Without(es[1..], key)
  }

  // Entries not yet past their deadline when a put sweeps the cache.
  function Live(es: seq<Entry>, now: int): (r: seq<Entry>)
    ensures forall e :: e in r <==> e in es && !(e.expires < now)
  {
    if es == [] then []
    else if es[0].expires < now then Live(es[1..], now)
    else [es[0]] + Live(es[1..], now)
  }

  // Deadlines ascend in insertion order.
  predicate InDeadlineOrder(es: seq<Entry>) {
    forall i, j :: 0 <= i < j < |es| ==> es[i].expires < es[j].expires
  }

  // Index of the first entry with the smallest deadline: `min(..., key=expiry)`.
  function Oldest(es: seq<Entry>): (k: nat)
    requires es != []
    ensures k < |es|
    ensures forall i :: 0 <= i < |es| ==> es[k].expires <= es[i].expires
    ensures forall i :: 0 <= i < k ==> es[k].expires < es[i].expires
  {
    if |es| == 1 then 0
    else
      var k := Oldest(es[1..]);
      assert forall i :: 1 <= i < |es| ==> es[i] == es[1..][i - 1];
      if es[0].expires <= es[k + 1].expires then 0 else k + 1
  }

  lemma {:induction false} BytesAppend(a: seq<Entry>, b: seq<Entry>)
    ensures Bytes(a + b) == Bytes(a) + Bytes(b)
  {
    if a == [] {
      assert a + b == b;
    } else {
      assert (a + b)[1..] == a[1..] + b;
      BytesAppend(a[1..], b);
    }
  }

  lemma {:induction false} WithoutBytes(es: seq<Entry>, key: string)
    requires DistinctKeys(es)
    ensures Bytes(Without(es, key)) == Bytes(es) - (if Has(es, key) then |Lookup(es, key).value.body| else 0)
  {
    if es == [] {
    } else {
      TailHas(es, key);
      WithoutBytes(es[1..], key);
      if es[0].key == key {
        WithoutMissing(es[1..], key);
      }
    }
  }

  lemma {:induction false} TailHas(es: seq<Entry>, key: string)
    requires es != [] && DistinctKeys(es)
    ensures DistinctKeys(es[1..])
    ensures Has(es, key) <==> es[0].key == key || Has(es[1..], key)
    ensures es[0].key == key ==> !Has(es[1..], key)
  {
    assert forall i :: 0 <= i < |es| - 1 ==> es[1..][i] == es[i + 1];
    if Has(es[1..], key) {
      var i :| 0 <= i < |es| - 1 && es[1..][i].key == key;
      assert es[i + 1].key == key;
    }
  }

  lemma {:induction false} WithoutMissing(es: seq<Entry>, key: string)
    requires !Has(es, key)
    ensures Without(es, key) == es
  {
    if es == [] {
    } else {
      assert forall i :: 0 <= i < |es| - 1 ==> es[1..][i] == es[i + 1];
      WithoutMissing(es[1..], key);
    }
  }

  predicate Shaped(es: seq<Entry>) {
    DistinctKeys(es) && InDeadlineOrder(es)
  }

  // Dropping a key keeps distinctness and deadline order.
  lemma {:induction false} WithoutKeeps(es: seq<Entry>, key: string)
    requires Shaped(es)
    ensures Shaped(Without(es, key))
  {
    if es == [] {
    } else {
      SuffixShaped(es, 1);
      WithoutKeeps(es[1..], key);
      if es[0].key != key {
        var tail := Without(es[1..], key);
        forall j | 0 <= j < |tail| ensures es[0].key != tail[j].key && es[0].expires < tail[j].expires {
          assert tail[j] in es[1..];
          var i :| 0 <= i < |es| - 1 && es[1..][i] == tail[j];
          assert es[i + 1] == tail[j];
        }
        ConsShaped(es[0], tail);
      }
    }
  }

  lemma {:induction false} SuffixShaped(es: seq<Entry>, k: nat)
    requires Shaped(es) && k <= |es|
    ensures Shaped(es[k..])
    ensures forall e :: e in es[k..] ==> e in es
  {
  }

  lemma {:induction false} ConsShaped(e: Entry, es: seq<Entry>)
    requires Shaped(es)
    requires forall j :: 0 <= j < |es| ==> e.key != es[j].key && e.expires < es[j].expires
    ensures Shaped([e] + es)
  {
  }

  lemma {:induction false} AppendShaped(es: seq<Entry>, e: Entry)
    requires Shaped(es)
    requires forall x :: x in es ==> x.key != e.key && x.expires < e.expires
    ensures Shaped(es + [e])
  {
    forall i, j | 0 <= i < j < |es| + 1
      ensures (es + [e])[i].key != (es + [e])[j].key && (es + [e])[i].expires < (es + [e])[j].expires
    {
      assert es[i] in es;
    }
  }

  // Sweeping an ordered cache drops a prefix.
  lemma {:induction false} LiveIsSuffix(es: seq<Entry>, now: int) returns (k: nat)
    requires InDeadlineOrder(es)
    ensures k <= |es| && Live(es, now) == es[k..]
    ensures forall i :: 0 <= i < k ==> es[i].expires < now
  {
    if es == [] {
      k := 0;
    } else if es[0].expires < now {
      k := LiveIsSuffix(es[1..], now);
      assert es[1..][k..] == es[k + 1..];
      assert forall i :: 1 <= i < |es| ==> es[i] == es[1..][i - 1];
      k := k + 1;
    } else {
      k := 0;
      AllLive(es, now);
    }
  }

  lemma {:induction false} AllLive(es: seq<Entry>, now: int)
    requires forall i :: 0 <= i < |es| ==> es[i].expires >= now
    ensures Live(es, now) == es
  {
    if es == [] {
    } else {
      AllLive(es[1..], now);
    }
  }

  lemma {:induction false} FirstIsOldest(es: seq<Entry>)
    requires InDeadlineOrder(es) && es != []
    ensures Oldest(es) == 0
  {
  }

  // How many of the oldest entries an incoming body of this size pushes out.
  function Evictions(live: seq<Entry>, size: nat): (k: nat)
    ensures k <= |live|
  {
    if live == [] || Bytes(live) + size <= MAX_BYTES then 0 else 1 + Evictions(live[1..], size)
  }

  // Only as many as needed: that many make room, or empty the cache, and one
  // fewer would not.
  lemma {:induction false} EvictsJustEnough(live: seq<Entry>, size: nat)
    ensures var k := Evictions(live, size);
      && (k < |live| ==> Bytes(live[k..]) + size <= 8_388_608)
      && (forall j :: 0 <= j < k ==> Bytes(live[j..]) + size > 8_388_608)
  {
    var k := Evictions(live, size);
    if k == 0 {
      assert live[0..] == live;
    } else {
      EvictsJustEnough(live[1..], size);
      assert live[1..][k - 1..] == live[k..];
      forall j | 0 <= j < k ensures Bytes(live[j..]) + size > MAX_BYTES {
        if j == 0 {
          assert live[0..] == live;
        } else {
          assert live[1..][j - 1..] == live[j..];
        }
      }
    }
  }

  lemma {:induction false} OneEntryPerKey(es: seq<Entry>, key: string)
    requires DistinctKeys(es)
    ensures forall e :: e in es && e.key == key ==> Lookup(es, key) == Some(e)
  {
    var r := Lookup(es, key);
    forall e | e in es && e.key == key ensures r == Some(e) {
      var i :| 0 <= i < |es| && es[i] == e;
      var j :| 0 <= j < |es| && es[j] == r.value;
    }
  }

  // `d[key] = value`: in place when the key is there, at the end otherwise.
  function Assigned(es: seq<Entry>, e: Entry): seq<Entry> {
    if es == [] then [e]
    else if es[0].key == e.key then [e] + es[1..]
    else [es[0]] + Assigned(es[1..], e)
  }

  lemma {:induction false} AssignedAbsent(es: seq<Entry>, e: Entry)
    requires !Has(es, e.key)
    ensures Assigned(es, e) == es + [e]
  {
    if es == [] {
    } else {
      assert es[0].key != e.key;
      assert forall i :: 0 <= i < |es| - 1 ==> es[1..][i] == es[i + 1];
      AssignedAbsent(es[1..], e);
    }
  }

  lemma {:induction false} AssignedHas(es: seq<Entry>, e: Entry)
    ensures e in Assigned(es, e)
  {
    if es == [] {
    } else {
      AssignedHas(es[1..], e);
    }
  }

  lemma {:induction false} AssignedBytes(es: seq<Entry>, e: Entry)
    requires DistinctKeys(es)
    ensures Bytes(Assigned(es, e))
         == Bytes(es) + |e.body| - (if Has(es, e.key) then |Lookup(es, e.key).value.body| else 0)
  {
    if es == [] {
    } else {
      TailHas(es, e.key);
      if es[0].key == e.key {
        assert ([e] + es[1..])[1..] == es[1..];
      } else {
        AssignedBytes(es[1..], e);
        assert ([es[0]] + Assigned(es[1..], e))[1..] == Assigned(es[1..], e);
      }
    }
  }

  // The counter a put leaves is exact exactly when it did not overwrite a live body.
  lemma {:induction false} CounterExactIffAbsent(kept: seq<Entry>, e: Entry)
    requires DistinctKeys(kept) && forall x :: x in kept ==> x.body != []
    ensures Bytes(kept) + |e.body| == Bytes(Assigned(kept, e)) <==> !Has(kept, e.key)
  {
    AssignedBytes(kept, e);
  }

  lemma {:induction false} StillAbsent(es: seq<Entry>, kept: seq<Entry>, key: string)
    requires !Has(es, key) && forall e :: e in kept ==> e in es
    ensures forall e :: e in kept ==> e.key != key
    ensures !Has(kept, key)
  {
    forall e | e in kept ensures e.key != key {
      var i :| 0 <= i < |es| && es[i] == e;
    }
    assert forall i :: 0 <= i < |kept| ==> kept[i] in kept;
  }

  // ---- The handler's cache ----------------------------------------------------------

  datatype Stored = Stored(key: string, body: Body, at: int)

  // The last body stored under a key, in the whole history.
  function LastStored(puts: seq<Stored>, key: string): (r: Option<Stored>)
    ensures r.Some? ==> r.value.key == key
  {
    if puts == [] then None
    else if puts[|puts| - 1].key == key then Some(puts[|puts| - 1])
    else LastStored(puts[..|puts| - 1], key)
  }

  // Each entry is the last body stored under its key, stored before `now`.
  ghost predicate Remembered(es: seq<Entry>, puts: seq<Stored>, now: int) {
    forall e :: e in es ==> IsLast(e, puts) && e.expires < now + TTL
  }

  predicate IsLast(e: Entry, puts: seq<Stored>) {
    LastStored(puts, e.key) == Some(Stored(e.key, e.body, e.expires - TTL))
  }

  lemma {:induction false} StoreRemembers(es: seq<Entry>, puts: seq<Stored>, key: string, body: Body, now: int)
    requires Remembered(es, puts, now) && forall e :: e in es ==> e.key != key
    ensures Remembered(es + [Entry(key, now + TTL, body)], puts + [Stored(key, body, now)], now + 1)
  {
    var after := puts + [Stored(key, body, now)];
    assert after[..|after| - 1] == puts;
    forall e | e in es + [Entry(key, now + TTL, body)] ensures IsLast(e, after) && e.expires < now + 1 + TTL {
      if e in es {
        assert IsLast(e, puts);
      }
    }
  }

  // Storing an absent key keeps order, counter and memory right.
  lemma {:induction false} StoreStaysValid(kept: seq<Entry>, puts: seq<Stored>, key: string, body: Body, now: int)
    requires Shaped(kept) && Remembered(kept, puts, now) && !Has(kept, key)
    requires forall e :: e in kept ==> e.key != key
    ensures var e := Entry(key, now + TTL, body);
            var after := Assigned(kept, e);
            && Shaped(after) && Bytes(after) == Bytes(kept) + |body|
            && Remembered(after, puts + [Stored(key, body, now)], now + 1)
  {
    var e := Entry(key, now + TTL, body);
    AssignedAbsent(kept, e);
    AppendShaped(kept, e);
    BytesAppend(kept, [e]);
    StoreRemembers(kept, puts, key, body, now);
  }

  // The entries a sweep keeps, and the bytes it frees.
  method SplitExpired(es: seq<Entry>, now: int) returns (kept: seq<Entry>, freed: nat)
    ensures kept == Live(es, now)
    ensures freed == Bytes(es) - Bytes(kept)
  {
    kept, freed := [], 0;
    assert es[0..] == es;
    for i := 0 to |es|
      invariant kept + Live(es[i..], now) == Live(es, now)
      invariant freed + Bytes(kept) + Bytes(es[i..]) == Bytes(es)
    {
      assert es[i..][1..] == es[i + 1..];
      if es[i].expires < now {
        freed := freed + |es[i].body|;
      } else {
        BytesAppend(kept, [es[i]]);
        kept := kept + [es[i]];
      }
    }
  }

  class Cache {
    var entries: seq<Entry>
    var bytes: int
    ghost var puts: seq<Stored> // everything ever stored, oldest first

    // The byte counter is the sum of the stored lengths; deadlines ascend in
    // insertion order; an entry is the last body stored under its key.
    ghost predicate Valid(now: int)
      reads this
    {
      && Shaped(entries)
      && bytes == Bytes(entries)
      && Remembered(entries, puts, now)
    }

    constructor ()
      ensures entries == [] && bytes == 0 && puts == []
      ensures forall now :: Valid(now)
    {
      entries, bytes, puts := [], 0, [];
    }

    // A hit is an entry at or before its deadline; an expired one is dropped.
    // What is returned is the last body stored under the key, not yet expired.
    method Get(key: string, now: int) returns (r: Option<Body>)
      requires Valid(now)
      modifies this`entries, this`bytes
      ensures Valid(now)
      ensures r.Some? <==> exists e :: e in old(entries) && e.key == key && now <= e.expires
      ensures r.Some? ==> entries == old(entries)
      ensures r.Some? ==> var s := LastStored(puts, key); s.Some? && s.value.body == r.value && now <= s.value.at + TTL
      ensures r.None? ==> entries == Without(old(entries), key) && !Has(entries, key)
    {
      var e := Lookup(entries, key);
      OneEntryPerKey(entries, key);
      WithoutKeeps(entries, key);
      WithoutBytes(entries, key);
      if e.None? {
        WithoutMissing(entries, key);
        return None;
      }
      if now > e.value.expires {
        entries := Without(entries, key);
        bytes := bytes - |e.value.body|;
        return None;
      }
      return Some(e.value.body);
    }

    // Storing: expired entries go first, then the oldest live ones, only as many as
    // needed, and the new body goes to the end, or replaces a live body in place.
    // The state stays exact when the key was absent; a replaced body leaves the
    // counter too high by its length.
    method Put(key: string, body: Body, cacheable: bool, now: int)
      requires Valid(now)
      modifies this
      ensures key == "" || body == [] || !cacheable ==>
                entries == old(entries) && bytes == old(bytes) && puts == old(puts)
      ensures key != "" && body != [] && cacheable ==>
                var live := Live(old(entries), now);
                var kept := live[Evictions(live, |body|)..];
                && entries == Assigned(kept, Entry(key, now + TTL, body))
                && bytes == Bytes(kept) + |body|
                && Entry(key, now + 60 * SECOND, body) in entries
                && puts == old(puts) + [Stored(key, body, now)]
                && (|body| <= MAX_BYTES ==> bytes <= MAX_BYTES)
      ensures !Has(old(entries), key) ==> Valid(now + 1)
    {
      if key == "" || body == [] || !cacheable {
        return;
      }
      DropExpired(now);
      ghost var live := entries;
      EvictFor(|body|, now);
      ghost var kept := entries;
      EvictsJustEnough(live, |body|);
      SuffixShaped(live, Evictions(live, |body|));
      if !Has(old(entries), key) {
        StillAbsent(old(entries), kept, key);
        StoreStaysValid(kept, puts, key, body, now);
      }
      AssignedHas(entries, Entry(key, now + TTL, body));
      entries := Assigned(entries, Entry(key, now + TTL, body));
      bytes := bytes + |body|;
      puts := puts + [Stored(key, body, now)];
    }

    method EvictFor(size: nat, now: int)
      requires Valid(now)
      modifies this`entries, this`bytes
      ensures Valid(now)
      ensures entries == old(entries)[Evictions(old(entries), size)..]
    {
      ghost var live, k := entries, 0;
      assert live[0..] == live;
      while entries != [] && bytes + size > MAX_BYTES
        invariant k <= |live| && entries == live[k..]
        invariant bytes == Bytes(entries)
        invariant Evictions(live, size) == k + Evictions(entries, size)
        decreases |entries|
      {
        var oldest := Oldest(entries);
        SuffixShaped(live, k);
        FirstIsOldest(entries);
        bytes := bytes - |entries[oldest].body|;
        entries := entries[..oldest] + entries[oldest + 1..];
        assert entries == live[k..][1..] == live[k + 1..];
        k := k + 1;
      }
      SuffixShaped(live, k);
    }

    method DropExpired(now: int)
      requires Valid(now)
      modifies this`entries, this`bytes
      ensures Valid(now)
      ensures entries == Live(old(entries), now)
    {
      var kept, freed := SplitExpired(entries, now);
      ghost var n := LiveIsSuffix(entries, now);
      SuffixShaped(entries, n);
      bytes := bytes - freed;
      entries := kept;
    }

    // One request: the cached body if there is one, otherwise the upstream's
    // answer, stored for the next time.  This is the only way a put happens.
    method Serve(key: string, upstream: Body, cacheable: bool, asked: int, answered: int)
      returns (reply: Body, hit: bool)
      requires Valid(asked) && asked <= answered
      modifies this
      ensures Valid(answered + 1)
      ensures hit <==> exists e :: e in old(entries) && e.key == key && asked <= e.expires
      ensures !hit && key != "" && upstream != [] && cacheable ==>
                Entry(key, answered + 60 * SECOND, upstream) in entries
      ensures hit ==> var s := LastStored(old(puts), key);
                s.Some? && reply == s.value.body && asked <= s.value.at + TTL && puts == old(puts)
      ensures !hit ==> reply == upstream
      ensures !hit && key != "" && upstream != [] && cacheable ==> puts == old(puts) + [Stored(key, upstream, answered)]
    {
      var cached := Get(key, asked);
      if cached.Some? {
        return cached.value, true;
      }
      Put(key, upstream, cacheable, answered);
      return upstream, false;
    }
  }
}
