/**
 * The storage interface the danmaku code talks to (`db`): sorted-set buckets
 * read with `zrange` and appended to with `zadd`, and a string store read with
 * `getString` and written with `setString`. The backing database is not part
 * of this model; this class fixes what each call observably does.
 */
module Storage {
  import opened Common

  /** One write the store was asked to perform. */
  datatype Write = Added(key: Key, members: seq<Entry>) | Put(key: Key, value: Stored)

  /** A bucket of a bucket map; a missing key is an empty bucket. */
  function BucketIn(zsets: map<Key, seq<Entry>>, k: Key): seq<Entry> {
    if k in zsets then zsets[k] else []
  }

  /** The buckets after `writes`, issued in order, against a store refusing the keys in `rejects`. */
  function ZsetsAfter(zsets: map<Key, seq<Entry>>, rejects: map<Key, string>, writes: seq<Write>): map<Key, seq<Entry>>
    decreases |writes|
  {
    if writes == [] then zsets
    else
      var before := ZsetsAfter(zsets, rejects, writes[..|writes| - 1]);
      var w := writes[|writes| - 1];
      if w.Added? && w.key !in rejects then before[w.key := BucketIn(before, w.key) + w.members] else before
  }

  /** The string store after `writes`, issued in order, against a store refusing the keys in `rejects`. */
  function StringsAfter(strings: map<Key, Stored>, rejects: map<Key, string>, writes: seq<Write>): map<Key, Stored>
    decreases |writes|
  {
    if writes == [] then strings
    else
      var before := StringsAfter(strings, rejects, writes[..|writes| - 1]);
      var w := writes[|writes| - 1];
      if w.Put? && w.key !in rejects then before[w.key := w.value] else before
  }

  /** Issuing `first` and then `second` is issuing `first + second`. */
  lemma {:induction false} AfterConcat(zsets: map<Key, seq<Entry>>, strings: map<Key, Stored>, rejects: map<Key, string>,
                                       first: seq<Write>, second: seq<Write>)
    decreases |second|
    ensures ZsetsAfter(zsets, rejects, first + second) == ZsetsAfter(ZsetsAfter(zsets, rejects, first), rejects, second)
    ensures StringsAfter(strings, rejects, first + second) == StringsAfter(StringsAfter(strings, rejects, first), rejects, second)
  {
    if second == [] {
      assert first + second == first;
    } else {
      var init := second[..|second| - 1];
      AfterConcat(zsets, strings, rejects, first, init);
      assert (first + second)[..|first + second| - 1] == first + init;
      assert (first + second)[|first + second| - 1] == second[|second| - 1];
    }
  }

  /** One write changes at most the key it names. */
  lemma AfterOne(zsets: map<Key, seq<Entry>>, strings: map<Key, Stored>, rejects: map<Key, string>, w: Write, k: Key)
    ensures BucketIn(ZsetsAfter(zsets, rejects, [w]), k)
            == if w.Added? && w.key == k && k !in rejects then BucketIn(zsets, k) + w.members else BucketIn(zsets, k)
    ensures Lookup(StringsAfter(strings, rejects, [w]), k)
            == if w.Put? && w.key == k && k !in rejects then Some(w.value) else Lookup(strings, k)
  {
    assert [w][..0] == [];
  }

  /** A key no write names keeps its bucket and its string. */
  lemma {:induction false} Untouched(zsets: map<Key, seq<Entry>>, strings: map<Key, Stored>, rejects: map<Key, string>,
                                     writes: seq<Write>, k: Key)
    requires forall i | 0 <= i < |writes| :: writes[i].key != k
    ensures BucketIn(ZsetsAfter(zsets, rejects, writes), k) == BucketIn(zsets, k)
    ensures Lookup(StringsAfter(strings, rejects, writes), k) == Lookup(strings, k)
  {
    if writes != [] {
      Untouched(zsets, strings, rejects, writes[..|writes| - 1], k);
    }
  }

  /** Refused writes change nothing: with every key refused, both stores stay as they were. */
  lemma {:induction false} AllRefused(zsets: map<Key, seq<Entry>>, strings: map<Key, Stored>, rejects: map<Key, string>,
                                      writes: seq<Write>)
    requires forall i | 0 <= i < |writes| :: writes[i].key in rejects
    ensures ZsetsAfter(zsets, rejects, writes) == zsets
    ensures StringsAfter(strings, rejects, writes) == strings
  {
    if writes != [] {
      AllRefused(zsets, strings, rejects, writes[..|writes| - 1]);
    }
  }

  /** Buckets only grow: whatever a bucket held before the writes stays at its front. */
  lemma {:induction false} BucketsOnlyGrow(zsets: map<Key, seq<Entry>>, rejects: map<Key, string>, writes: seq<Write>, k: Key)
    decreases |writes|
    ensures BucketIn(zsets, k) <= BucketIn(ZsetsAfter(zsets, rejects, writes), k)
  {
    if writes != [] {
      BucketsOnlyGrow(zsets, rejects, writes[..|writes| - 1], k);
    }
  }

  /** Replaying more writes never shrinks a bucket: a longer log leaves each bucket with the shorter log's as a prefix. */
  lemma LongerLogGrows(zsets: map<Key, seq<Entry>>, rejects: map<Key, string>, first: seq<Write>, later: seq<Write>, k: Key)
    requires first <= later
    ensures BucketIn(ZsetsAfter(zsets, rejects, first), k) <= BucketIn(ZsetsAfter(zsets, rejects, later), k)
  {
    var rest := later[|first|..];
    assert later == first + rest;
    AfterConcat(zsets, map[], rejects, first, rest);
    BucketsOnlyGrow(ZsetsAfter(zsets, rejects, first), rejects, rest, k);
  }

  class Store {
    /** Sorted-set buckets; a missing key is an empty bucket. Members keep insertion order. */
    var zsets: map<Key, seq<Entry>>
    /** The string store, holding decoded JSON values (or text that does not parse). */
    var strings: map<Key, Stored>
    /** Keys whose writes the database refuses, with the message of the error it throws. */
    var rejects: map<Key, string>
    /** Every write issued, refused or not, in the order issued. */
    var log: seq<Write>

    constructor(zsets0: map<Key, seq<Entry>>, strings0: map<Key, Stored>, rejects0: map<Key, string>)
      ensures zsets == zsets0 && strings == strings0 && rejects == rejects0
      ensures log == []
    {
      zsets := zsets0;
      strings := strings0;
      rejects := rejects0;
      log := [];
    }

    /** The members of bucket `k`. */
    function Members(k: Key): seq<Entry>
      reads this
    {
      BucketIn(zsets, k)
    }

    /** `zrange(k, 0, 0)`: the first member, if any. */
    method ZRangeFirst(k: Key) returns (r: seq<Entry>)
      ensures |r| <= 1
      ensures r != [] <==> Members(k) != []
      ensures r != [] ==> r[0] == Members(k)[0]
    {
      var all := Members(k);
      if all == [] {
        r := [];
      } else {
        r := all[..1];
      }
    }

    /** `zrange(k, 0, -1)`: the whole bucket. */
    method ZRangeAll(k: Key) returns (r: seq<Entry>)
      ensures r == Members(k)
    {
      r := Members(k);
    }

    /**
     * `zadd(k, ...members)`. A refused write throws and changes nothing; an
     * accepted one appends the members to the bucket. Either way it is logged.
     */
    method ZAdd(k: Key, members: seq<Entry>) returns (err: Option<string>)
      modifies this
      ensures err == Lookup(rejects, k)
      ensures err.None? ==> zsets == old(zsets)[k := old(Members(k)) + members]
      ensures err.Some? ==> zsets == old(zsets)
      ensures strings == old(strings) && rejects == old(rejects)
      ensures log == old(log) + [Added(k, members)]
      ensures zsets == ZsetsAfter(old(zsets), rejects, [Added(k, members)])
      ensures strings == StringsAfter(old(strings), rejects, [Added(k, members)])
    {
      log := log + [Added(k, members)];
      assert [Added(k, members)][..0] == [];
      if k in rejects {
        err := Some(rejects[k]);
      } else {
        err := None;
        zsets := zsets[k := Members(k) + members];
      }
    }

    /** `getString(k)`: the stored value, None when the key is unset. */
    method GetString(k: Key) returns (v: Option<Stored>)
      ensures v == Lookup(strings, k)
    {
      v := Lookup(strings, k);
    }

    /** `setString(k, v)`: a refused write throws and changes nothing. */
    method SetString(k: Key, v: Stored) returns (err: Option<string>)
      modifies this
      ensures err == Lookup(rejects, k)
      ensures err.None? ==> strings == old(strings)[k := v]
      ensures err.Some? ==> strings == old(strings)
      ensures zsets == old(zsets) && rejects == old(rejects)
      ensures log == old(log) + [Put(k, v)]
      ensures zsets == ZsetsAfter(old(zsets), rejects, [Put(k, v)])
      ensures strings == StringsAfter(old(strings), rejects, [Put(k, v)])
    {
      log := log + [Put(k, v)];
      assert [Put(k, v)][..0] == [];
      if k in rejects {
        err := Some(rejects[k]);
      } else {
        err := None;
        strings := strings[k := v];
      }
    }
  }
}
