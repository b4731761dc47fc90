/** The bounded first-in first-out record that the worker keeps twice: once for
    completed executions and once for exited standby sandboxes. A map answers
    lookups and a list gives the eviction order. */
module ReplayCache {
  import opened Sequences

  const CACHE_SIZE: nat := 4096

  datatype Cache<!K, V> = Cache(entries: map<K, V>, order: seq<K>)

  function Empty<K, V>(): Cache<K, V> {
    Cache(map[], [])
  }

  /** Records `k`. An unknown key is appended and may push the oldest key out;
      a known key only changes its value. */
  function Put<K, V>(c: Cache<K, V>, k: K, v: V): Cache<K, V> {
    if k in c.entries then
      Cache(c.entries[k := v], c.order)
    else
      var order := c.order + [k];
      if |order| > CACHE_SIZE then
        Cache((c.entries - {order[0]})[k := v], order[1..])
      else
        Cache(c.entries[k := v], order)
  }

  /** The list of every insertion ever made, oldest first, after recording `k`. */
  function Insertions<K, V>(c: Cache<K, V>, history: seq<K>, k: K): seq<K> {
    if k in c.entries then history else history + [k]
  }

  function Newest<K>(history: seq<K>): (window: seq<K>)
    ensures |window| <= CACHE_SIZE
    ensures forall k :: k in window ==> k in history
  {
    if |history| <= CACHE_SIZE then history else history[|history| - CACHE_SIZE..]
  }

  /** A key is inserted again only after CACHE_SIZE other insertions. */
  ghost predicate Spaced<K(!new)>(history: seq<K>) {
    forall i, j :: 0 <= i < j < |history| && history[i] == history[j] ==> j - i > CACHE_SIZE
  }

  /** The cache is exactly the newest CACHE_SIZE insertions of `history`. */
  ghost predicate Tracks<K(!new), V>(c: Cache<K, V>, history: seq<K>) {
    && c.order == Newest(history)
    && (forall k :: k in c.entries <==> k in c.order)
    && Spaced(history)
  }

  /** `k` was inserted when the history had at least `since` entries. */
  ghost predicate InsertedSince<K>(history: seq<K>, k: K, since: nat) {
    exists p :: since <= p < |history| && history[p] == k
  }

  /** `k` was not recorded when the history had `since` entries. */
  ghost predicate UnrecordedAt<K>(history: seq<K>, k: K, since: nat) {
    since <= |history| && forall p :: 0 <= p < since && since - p <= CACHE_SIZE ==> history[p] != k
  }

  /** Recording keeps the cache equal to the newest window of its own history. */
  lemma PutTracks<K(!new), V>(c: Cache<K, V>, history: seq<K>, k: K, v: V)
    requires Tracks(c, history)
    ensures Tracks(Put(c, k, v), Insertions(c, history, k))
    ensures k in Put(c, k, v).entries && Put(c, k, v).entries[k] == v
    ensures history <= Insertions(c, history, k)
  {
    if k !in c.entries {
      UnrecordedNow(c, history, k);
      NewestSnoc(history, k);
      NewestDistinct(history);
      PutEntries(c, k, v);
    }
  }

  lemma NewestSnoc<K>(history: seq<K>, k: K)
    ensures
      var w := Newest(history) + [k];
      Newest(history + [k]) == if |w| > CACHE_SIZE then w[1..] else w
  {
  }

  /** The map and the list name the same keys after an insertion. */
  lemma PutEntries<K(!new), V>(c: Cache<K, V>, k: K, v: V)
    requires NoDuplicates(c.order) && (forall x :: x in c.entries <==> x in c.order) && k !in c.entries
    ensures forall x :: x in Put(c, k, v).entries <==> x in Put(c, k, v).order
  {
    if |c.order| + 1 > CACHE_SIZE {
      var dropped, rest := c.order[0], c.order[1..];
      assert c.order == [dropped] + rest && (c.order + [k])[1..] == rest + [k];
    }
  }

  lemma WindowHolds<K>(history: seq<K>, i: nat)
    requires i < |history| && |history| - i <= CACHE_SIZE
    ensures history[i] in Newest(history)
  {
    if |history| > CACHE_SIZE {
      assert Newest(history)[i - (|history| - CACHE_SIZE)] == history[i];
    }
  }

  /** The recorded keys are pairwise distinct. */
  lemma NewestDistinct<K(!new)>(history: seq<K>)
    requires Spaced(history)
    ensures NoDuplicates(Newest(history))
  {
    var w := Newest(history);
    var base := |history| - |w|;
    forall i, j | 0 <= i < j < |w| ensures w[i] != w[j] {
      assert w[i] == history[base + i] && w[j] == history[base + j];
    }
  }

  lemma UnrecordedNow<K(!new), V>(c: Cache<K, V>, history: seq<K>, k: K)
    requires Tracks(c, history) && k !in c.entries
    ensures UnrecordedAt(history, k, |history|)
  {
    forall p | 0 <= p < |history| && |history| - p <= CACHE_SIZE ensures history[p] != k {
      WindowHolds(history, p);
    }
  }

  /** A key that was not recorded then and is recorded now was inserted in between. */
  lemma RecordedIsNew<K(!new), V>(c: Cache<K, V>, history: seq<K>, k: K, since: nat)
    requires Tracks(c, history) && k in c.entries && UnrecordedAt(history, k, since)
    ensures InsertedSince(history, k, since)
  {
    assert k in history;
    RecordedUnlessEvicted(c, history, k);
    assert since <= LastIndex(history, k);
  }

  /** A key that was ever inserted is recorded exactly as long as fewer than CACHE_SIZE
      insertions followed its latest one. */
  lemma RecordedUnlessEvicted<K(!new), V>(c: Cache<K, V>, history: seq<K>, k: K)
    requires Tracks(c, history) && k in history
    ensures k in c.entries <==> |history| - LastIndex(history, k) <= CACHE_SIZE
  {
    var p := LastIndex(history, k);
    if |history| - p <= CACHE_SIZE {
      WindowHolds(history, p);
    } else {
      assert Newest(history) == history[p + 1..][|history| - CACHE_SIZE - p - 1..];
    }
  }

  /** What it costs to forget a key: CACHE_SIZE pairwise distinct other keys were all
      inserted after its latest insertion, which is no older than any given one. */
  lemma EvictionNeedsDistinctKeys<K(!new), V>(c: Cache<K, V>, history: seq<K>, k: K, since: nat)
    requires Tracks(c, history)
    requires InsertedSince(history, k, since) && k !in c.entries
    ensures |c.order| == CACHE_SIZE
    ensures NoDuplicates(c.order) && k !in c.order
    ensures exists p :: since <= p < |history| - CACHE_SIZE && history[p] == k && k !in history[p + 1..]
                        && c.order == history[|history| - CACHE_SIZE..]
  {
    NewestDistinct(history);
    var q :| since <= q < |history| && history[q] == k;
    var p := LastIndex(history, k);
    assert q <= p;
    RecordedUnlessEvicted(c, history, k);
  }

  function LastIndex<K(==)>(s: seq<K>, k: K): (p: nat)
    requires k in s
    ensures p < |s| && s[p] == k && k !in s[p + 1..]
  {
    if s[|s| - 1] == k then
      |s| - 1
    else
      var q := LastIndex(s[..|s| - 1], k);
      assert s[q + 1..] == s[..|s| - 1][q + 1..] + [s[|s| - 1]];
      q
  }

  lemma InsertedSinceGrows<K>(history: seq<K>, longer: seq<K>, k: K, since: nat)
    requires history <= longer && InsertedSince(history, k, since)
    ensures InsertedSince(longer, k, since)
  {
    var p :| since <= p < |history| && history[p] == k;
    assert longer[p] == k;
  }
}
