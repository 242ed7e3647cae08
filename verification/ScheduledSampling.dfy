/** The bounded cache of shifted predictions that scheduled sampling replaces latent inputs with. */
module ScheduledSampling {
  import opened Sequences
  import opened Wrappers
  import opened LruOrder
  import opened AudioPacking
  import opened Compression
  import opened CompressBatch
  import opened CompressionLaw

  /** Compression ratio and attended tokens. */
  datatype Key = Key(r: nat, row: seq<nat>)

  datatype Entry = Entry(key: Key, pred: seq<real>, dim: nat)

  /** A row's predictions, one coordinate of each, and how many coordinates there are. */
  datatype Pred = Pred(values: seq<real>, dim: nat)

  function CacheKey(ids: seq<nat>, mask: seq<bool>, r: nat): Key
    requires Slots(mask) <= |ids|
  {
    Key(r, ids[..Slots(mask)])
  }

  /** The length of the compressed row a key stands for. */
  function KeyLength(k: Key, s: Settings): nat
    requires k.r > 0
  {
    CompressedLength(k.row, |k.row|, k.r, s)
  }

  /** Two rows share a key exactly when they agree on the ratio and on every attended token. */
  lemma KeyIff(ids: seq<nat>, mask: seq<bool>, r: nat, ids': seq<nat>, mask': seq<bool>, r': nat)
    requires Slots(mask) <= |ids| && Slots(mask') <= |ids'|
    ensures CacheKey(ids, mask, r) == CacheKey(ids', mask', r')
      <==> r == r' && Slots(mask) == Slots(mask') && forall i | 0 <= i < Slots(mask) :: ids[i] == ids'[i]
  {
    hide Slots;
    var k, k' := CacheKey(ids, mask, r), CacheKey(ids', mask', r');
    assert |k.row| == Slots(mask) && |k'.row| == Slots(mask');
    assert forall i | 0 <= i < Slots(mask) :: k.row[i] == ids[i];
    assert forall i | 0 <= i < Slots(mask') :: k'.row[i] == ids'[i];
  }

  /** The key determines the compressed length of its row, whatever the padding. */
  lemma {:induction false} KeyLengthIs(ids: seq<nat>, mask: seq<bool>, r: nat, s: Settings)
    requires Slots(mask) <= |ids| && r > 0
    ensures CacheKey(ids, mask, r).r == r
    ensures KeyLength(CacheKey(ids, mask, r), s) == CompressedLength(ids, Slots(mask), r, s)
  {
    hide SplitRow;
    SplitIgnoresPadding(ids, Slots(mask), s);
  }

  /** `torch.roll(pred, 1)`, rescaled: position t holds the prediction made at t - 1, position 0 the last one. */
  function Shifted(pred: seq<real>, std: real): (s: seq<real>)
    ensures |s| == |pred| && (pred != [] ==> s[0] == pred[|pred| - 1] * std)
    ensures forall t | 1 <= t < |s| :: s[t] == pred[t - 1] * std
  {
    seq(|pred|, t requires 0 <= t < |pred| => pred[if t == 0 then |pred| - 1 else t - 1] * std)
  }

  // ---- The ordered dictionary ----

  function Keys(cache: seq<Entry>): (r: seq<Key>)
    ensures |r| == |cache| && forall i | 0 <= i < |r| :: r[i] == cache[i].key
  {
    seq(|cache|, i requires 0 <= i < |cache| => cache[i].key)
  }

  function Find(cache: seq<Entry>, k: Key): (r: Option<nat>)
    ensures r.Some? ==> r.value < |cache| && cache[r.value].key == k
    ensures r.None? ==> forall i | 0 <= i < |cache| :: cache[i].key != k
  {
    if cache == [] then None
    else if cache[|cache| - 1].key == k then Some(|cache| - 1)
    else Find(cache[..|cache| - 1], k)
  }

  /** Assignment: an existing key keeps its place, a new one goes last. */
  function Assign(cache: seq<Entry>, e: Entry): seq<Entry> {
    match Find(cache, e.key)
    case Some(i) => cache[i := e]
    case None => cache + [e]
  }

  function MoveToEnd(cache: seq<Entry>, k: Key): seq<Entry> {
    match Find(cache, k)
    case Some(i) => cache[..i] + cache[i + 1..] + [cache[i]]
    case None => cache
  }

  /** Every entry holds the rescaled, shifted predictions of its key's last store, cut to its row. */
  ghost predicate Holds(cache: seq<Entry>, predicted: map<Key, Pred>, s: Settings, std: real) {
    forall i | 0 <= i < |cache| :: HoldsEntry(cache[i], predicted, s, std)
  }

  ghost predicate HoldsEntry(e: Entry, predicted: map<Key, Pred>, s: Settings, std: real) {
    e.key.r > 0 && e.key in predicted && KeyLength(e.key, s) <= |predicted[e.key].values|
    && e == EntryOf(e.key, predicted[e.key], s, std)
  }

  /** What is stored for a key: its rescaled, shifted predictions cut to its row. */
  function EntryOf(k: Key, p: Pred, s: Settings, std: real): (e: Entry)
    requires k.r > 0 && KeyLength(k, s) <= |p.values|
    ensures e.key == k
  {
    Entry(k, Shifted(p.values, std)[..KeyLength(k, s)], p.dim)
  }

  lemma {:induction false} RemoveAt<K>(s: seq<K>, i: nat)
    requires Distinct(s) && i < |s|
    ensures Remove(s, s[i]) == s[..i] + s[i + 1..]
  {
    var n := |s| - 1;
    if i < n {
      RemoveAt(s[..n], i);
      assert s[..n][..i] == s[..i] && s[..n][i + 1..] + [s[n]] == s[i + 1..];
    } else {
      assert s[n] !in s[..n];
      RemoveAbsent(s[..n], s[n]);
    }
  }

  lemma CutKeys(cache: seq<Entry>, i: nat)
    requires i < |cache|
    ensures Keys(cache[..i] + cache[i + 1..] + [cache[i]]) == Keys(cache)[..i] + Keys(cache)[i + 1..] + [Keys(cache)[i]]
  {
  }

  lemma MovedKeys(cache: seq<Entry>, k: Key)
    requires Distinct(Keys(cache)) && k in Keys(cache)
    ensures Keys(MoveToEnd(cache, k)) == Remove(Keys(cache), k) + [k]
  {
    hide Find, Remove, Distinct, Keys;
    var i := Find(cache, k).value;
    RemoveAt(Keys(cache), i);
    CutKeys(cache, i);
  }

  lemma NewKeyLast(keys: seq<Key>, k: Key)
    requires Distinct(keys) && k !in keys
    ensures Distinct(keys + [k]) && Remove(keys + [k], k) == Remove(keys, k)
  {
    assert (keys + [k])[..|keys|] == keys;
  }

  lemma {:induction false} AssignedKeys(cache: seq<Entry>, e: Entry)
    requires Distinct(Keys(cache))
    ensures var next := Keys(Assign(cache, e));
      && Distinct(next) && e.key in next && Remove(next, e.key) == Remove(Keys(cache), e.key)
  {
    hide Find, Remove, Distinct;
    var found := Find(cache, e.key);
    if found.None? {
      NewKeyLast(Keys(cache), e.key);
      assert Keys(Assign(cache, e)) == Keys(cache) + [e.key];
    } else {
      assert Keys(Assign(cache, e)) == Keys(cache);
      assert Keys(cache)[found.value] == e.key;
    }
  }

  lemma MovedHolds(cache: seq<Entry>, k: Key, predicted: map<Key, Pred>, s: Settings, std: real)
    requires Holds(cache, predicted, s, std)
    ensures Holds(MoveToEnd(cache, k), predicted, s, std)
  {
    hide HoldsEntry;
  }

  lemma {:induction false} AssignedHolds(
      cache: seq<Entry>, k: Key, pred: Pred, predicted: map<Key, Pred>, s: Settings, std: real)
    requires Holds(cache, predicted, s, std) && Distinct(Keys(cache))
    requires k.r > 0 && KeyLength(k, s) <= |pred.values|
    ensures Holds(Assign(cache, EntryOf(k, pred, s, std)), predicted[k := pred], s, std)
  {
    hide KeyLength, Shifted, Find, EntryOf;
    var next := Assign(cache, EntryOf(k, pred, s, std));
    forall i | 0 <= i < |next| ensures HoldsEntry(next[i], predicted[k := pred], s, std) {
      if next[i].key != k { assert next[i] == cache[i]; } else { OnlyOne(cache, EntryOf(k, pred, s, std), i); }
    }
  }

  lemma SameIndex(cache: seq<Entry>, i: nat, j: nat)
    requires Distinct(Keys(cache)) && i < |cache| && j < |cache| && cache[i].key == cache[j].key
    ensures i == j
  {
    assert Keys(cache)[i] == Keys(cache)[j];
  }

  lemma OnlyOne(cache: seq<Entry>, e: Entry, i: nat)
    requires Distinct(Keys(cache)) && i < |Assign(cache, e)| && Assign(cache, e)[i].key == e.key
    ensures Assign(cache, e)[i] == e
  {
    hide Find, Distinct, Keys;
    var found := Find(cache, e.key);
    if found.Some? && i < |cache| && cache[i].key == e.key { SameIndex(cache, i, found.value); }
  }

  lemma CutHolds(cache: seq<Entry>, n: nat, predicted: map<Key, Pred>, s: Settings, std: real)
    requires Holds(cache, predicted, s, std) && n <= |cache|
    ensures Holds(cache[n..], predicted, s, std) && Keys(cache[n..]) == Keys(cache)[n..]
  {
    hide HoldsEntry;
  }

  /** Oldest first, the cached keys are the newest `max` of all keys touched, ordered by last touch, and every
      entry holds its key's most recent predictions. */
  ghost predicate Lru(cache: seq<Entry>, touches: seq<Key>, predicted: map<Key, Pred>,
                      max: nat, s: Settings, std: real)
  {
    Keys(cache) == Newest(ByLastUse(touches), max) && Holds(cache, predicted, s, std)
  }

  lemma LruBounded(cache: seq<Entry>, touches: seq<Key>, max: nat)
    requires Keys(cache) == Newest(ByLastUse(touches), max)
    ensures |cache| <= max && Distinct(Keys(cache))
  {
    hide Newest, ByLastUse, Distinct;
    LastUseKeys(touches);
    NewestSplits(ByLastUse(touches), max);
  }

  lemma TouchedOrder(keys: seq<Key>, touches: seq<Key>, max: nat, k: Key)
    requires keys == Newest(ByLastUse(touches), max) && max >= 1
    ensures Newest(Remove(keys, k) + [k], max) == Newest(ByLastUse(touches + [k]), max)
    ensures k in keys ==> |Remove(keys, k) + [k]| <= max
  {
    hide Remove, Newest, Distinct, ByLastUse;
    LastUseKeys(touches);
    CutAfterUse(ByLastUse(touches), max, k);
    LastUseSnoc(touches, k);
  }

  lemma LastUseSnoc(touches: seq<Key>, k: Key)
    ensures ByLastUse(touches + [k]) == Remove(ByLastUse(touches), k) + [k]
  {
    assert (touches + [k])[..|touches|] == touches;
  }

  lemma WithinBound<K>(s: seq<K>, n: nat)
    requires |s| <= n
    ensures Newest(s, n) == s
  {
  }

  /** A hit: moving the key to the end keeps the refinement. */
  lemma {:induction false} GetStep(
      cache: seq<Entry>, touches: seq<Key>, predicted: map<Key, Pred>, max: nat, s: Settings, std: real, k: Key)
    requires Lru(cache, touches, predicted, max, s, std) && max >= 1 && k in Keys(cache)
    ensures Lru(MoveToEnd(cache, k), touches + [k], predicted, max, s, std)
  {
    hide Keys, MoveToEnd, Remove, Newest, ByLastUse, Holds, Distinct;
    LruBounded(cache, touches, max);
    MovedKeys(cache, k);
    MovedHolds(cache, k, predicted, s, std);
    TouchedOrder(Keys(cache), touches, max, k);
    WithinBound(Remove(Keys(cache), k) + [k], max);
  }

  lemma PutKeys(cache: seq<Entry>, e: Entry)
    requires Distinct(Keys(cache))
    ensures Keys(MoveToEnd(Assign(cache, e), e.key)) == Remove(Keys(cache), e.key) + [e.key]
  {
    hide Keys, MoveToEnd, Remove, Distinct, Assign;
    AssignedKeys(cache, e);
    MovedKeys(Assign(cache, e), e.key);
  }

  lemma PutHolds(cache: seq<Entry>, k: Key, pred: Pred, predicted: map<Key, Pred>, s: Settings, std: real)
    requires Holds(cache, predicted, s, std) && Distinct(Keys(cache))
    requires k.r > 0 && KeyLength(k, s) <= |pred.values|
    ensures Holds(MoveToEnd(Assign(cache, EntryOf(k, pred, s, std)), k), predicted[k := pred], s, std)
  {
    hide Keys, MoveToEnd, Distinct, Assign, EntryOf, KeyLength, Holds;
    AssignedHolds(cache, k, pred, predicted, s, std);
    MovedHolds(Assign(cache, EntryOf(k, pred, s, std)), k, predicted[k := pred], s, std);
  }

  lemma NewestDrops<K>(s: seq<K>, max: nat, drop: nat)
    requires drop == if |s| > max then |s| - max else 0
    ensures Newest(s, max) == s[drop..]
  {
  }

  /** A store: assigning, moving to the end and dropping the oldest keeps the refinement. */
  lemma {:induction false} PutStep(cache: seq<Entry>, touches: seq<Key>, predicted: map<Key, Pred>, max: nat,
                                   s: Settings, std: real, k: Key, pred: Pred, moved: seq<Entry>, drop: nat)
    requires Lru(cache, touches, predicted, max, s, std) && max >= 1 && k.r > 0 && KeyLength(k, s) <= |pred.values|
    requires moved == MoveToEnd(Assign(cache, EntryOf(k, pred, s, std)), k)
    requires drop == if |moved| > max then |moved| - max else 0
    ensures Lru(moved[drop..], touches + [k], predicted[k := pred], max, s, std)
  {
    LruBounded(cache, touches, max);
    hide Keys, MoveToEnd, Remove, Newest, ByLastUse, Holds, Distinct, Assign, EntryOf, KeyLength;
    PutKeys(cache, EntryOf(k, pred, s, std));
    PutHolds(cache, k, pred, predicted, s, std);
    TouchedOrder(Keys(cache), touches, max, k);
    CutHolds(moved, drop, predicted[k := pred], s, std);
    NewestDrops(Keys(moved), max, drop);
  }

  lemma FindIsMembership(cache: seq<Entry>, k: Key)
    ensures Find(cache, k).Some? <==> k in Keys(cache)
  {
    var found := Find(cache, k);
    if found.Some? { assert Keys(cache)[found.value] == k; }
  }

  lemma EntryHolds(
      cache: seq<Entry>, touches: seq<Key>, predicted: map<Key, Pred>, max: nat, s: Settings, std: real, i: nat)
    requires Lru(cache, touches, predicted, max, s, std) && i < |cache|
    ensures HoldsEntry(cache[i], predicted, s, std)
  {
  }

  lemma MovedKeyIn(cache: seq<Entry>, k: Key, x: Key)
    ensures x in Keys(MoveToEnd(cache, k)) <==> x in Keys(cache)
  {
    hide Find;
    var found := Find(cache, k);
    if found.Some? {
      CutKeys(cache, found.value);
      var keys := Keys(cache);
      assert keys == keys[..found.value] + [keys[found.value]] + keys[found.value + 1..];
    }
  }

  class PredictionCache {
    var cache: seq<Entry>
    const max: int
    const std: real
    const settings: Settings
    ghost var touches: seq<Key>
    ghost var predicted: map<Key, Pred>

    ghost predicate Valid()
      reads this
    {
      if max <= 0 then cache == [] && touches == []
      else Lru(cache, touches, predicted, max, settings, std)
    }

    constructor (max: int, std: real, settings: Settings)
      ensures Valid() && touches == [] && predicted == map[] && cache == []
      ensures this.max == max && this.std == std && this.settings == settings
    {
      this.max, this.std, this.settings := max, std, settings;
      cache, touches, predicted := [], [], map[];
    }

    /** A hit makes the key the newest and gives its last predictions, shifted and cut; a miss changes nothing. */
    method Get(k: Key) returns (r: Option<Entry>)
      requires Valid() && max > 0
      modifies this
      ensures Valid() && predicted == old(predicted)
      ensures r.Some? <==> k in Keys(old(cache))
      ensures r.Some? ==> r.value.key == k && HoldsEntry(r.value, predicted, settings, std)
      ensures touches == old(touches) + if r.Some? then [k] else []
      ensures forall x :: x in Keys(cache) <==> x in Keys(old(cache))
    {
      hide Find, Lru, MoveToEnd, Keys;
      FindIsMembership(cache, k);
      match Find(cache, k)
      case None =>
        r := None;
      case Some(i) =>
        r := Some(cache[i]);
        EntryHolds(cache, touches, predicted, max, settings, std, i);
        GetStep(cache, touches, predicted, max, settings, std, k);
        forall x ensures x in Keys(MoveToEnd(cache, k)) <==> x in Keys(cache) { MovedKeyIn(cache, k, x); }
        cache := MoveToEnd(cache, k);
        touches := touches + [k];
    }

    /** Storing one row's shifted predictions, cut to the row, then dropping the oldest keys beyond the bound. */
    method Put(k: Key, pred: Pred, length: nat)
      requires Valid() && max > 0 && k.r > 0 && length == KeyLength(k, settings) <= |pred.values|
      modifies this
      ensures Valid()
      ensures touches == old(touches) + [k] && predicted == old(predicted)[k := pred]
    {
      hide Lru, Assign, MoveToEnd, KeyLength, Shifted;
      cache := Assign(cache, Entry(k, Shifted(pred.values, std)[..length], pred.dim));
      cache := MoveToEnd(cache, k);
      ghost var moved := cache;
      while |cache| > max
        invariant |cache| <= |moved| && cache == moved[|moved| - |cache|..]
        invariant |cache| >= max || cache == moved
        invariant touches == old(touches) && predicted == old(predicted)
      {
        cache := cache[1..];
      }
      PutStep(old(cache), touches, predicted, max, settings, std, k, pred, moved, |moved| - |cache|);
      predicted := predicted[k := pred];
      touches := touches + [k];
    }

    /** A batch of rows, stored in order. */
    method Store(ids: seq<seq<nat>>, masks: seq<seq<bool>>, attn: seq<seq<bool>>, r: nat, preds: seq<Pred>)
      requires Valid() && Storable(ids, masks, attn, r, preds, settings)
      modifies this
      ensures Valid()
      ensures max <= 0 ==> touches == old(touches) && predicted == old(predicted)
      ensures max > 0 ==> touches == old(touches) + BatchKeys(ids, masks, r)
      ensures max > 0 ==> predicted == WithAll(old(predicted), BatchKeys(ids, masks, r), preds)
    {
      hide KeyLength, CompressedLength, Slots, CacheKey, BatchKeys, WithAll, Valid;
      if max <= 0 { return; }
      ghost var keys := BatchKeys(ids, masks, r);
      WithNone(predicted, keys, preds);
      for b := 0 to |preds|
        invariant Valid()
        invariant touches == old(touches) + keys[..b]
        invariant predicted == WithAll(old(predicted), keys[..b], preds[..b])
      {
        KeyLengthIs(ids[b], masks[b], r, settings);
        Put(CacheKey(ids[b], masks[b], r), preds[b], Slots(attn[b]));
        WithAllSnoc(old(predicted), keys, preds, b);
        assert keys[..b + 1] == keys[..b] + [keys[b]];
      }
      assert keys[..|preds|] == keys && preds[..|preds|] == preds;
    }

    /** Latent inputs of cached rows replaced where drawn: position t of a hit row takes its key's last prediction made
        at t - 1, every other position keeps its embedding, and exactly the hit keys are touched, in batch order. A hit
        whose predictions have another dimension is touched but replaces nothing. */
    method Apply(ids: seq<seq<nat>>, masks: seq<seq<bool>>, r: nat, embeds: seq<seq<real>>, dim: nat,
                 latent: seq<seq<bool>>, prob: real, draws: seq<seq<bool>>)
      returns (out: seq<seq<real>>)
      requires Valid() && BatchShape(ids, masks, embeds, latent, draws)
      modifies this
      ensures Valid() && predicted == old(predicted) && |out| == |embeds|
      ensures var active := prob > 0.0 && max > 0 && old(cache) != [] &&
        (exists b :: 0 <= b < |latent| && true in latent[b]);
        var keys := BatchKeys(ids, masks, r);
        && touches == old(touches) + (if active then Hits(keys, Keys(old(cache))) else [])
        && forall b | 0 <= b < |embeds| ::
             out[b] == Replaced(embeds[b], latent[b], draws[b],
                                if active then Cached(keys[b], Keys(old(cache)), predicted, settings, std, dim)
                                else None)
    {
      hide Lru, Keys, Cached, BatchKeys, Hits, Replaced, Valid;
      NothingReplaced(embeds, latent, draws);
      if prob <= 0.0 || max <= 0 || cache == [] || !(exists b :: 0 <= b < |latent| && true in latent[b]) {
        return embeds;
      }
      var entries := Entries(ids, masks, r, dim);
      out := BlendAll(embeds, latent, draws, entries);
    }

    /** The batch's entries, each hit moving its key to the end. */
    method Entries(ids: seq<seq<nat>>, masks: seq<seq<bool>>, r: nat, dim: nat)
      returns (entries: seq<Option<seq<real>>>)
      requires Valid() && max > 0 && |ids| == |masks| && forall b | 0 <= b < |ids| :: Slots(masks[b]) <= |ids[b]|
      modifies this
      ensures Valid() && predicted == old(predicted) && |entries| == |ids|
      ensures touches == old(touches) + Hits(BatchKeys(ids, masks, r), Keys(old(cache)))
      ensures forall b | 0 <= b < |ids| ::
        entries[b] == Cached(BatchKeys(ids, masks, r)[b], Keys(old(cache)), predicted, settings, std, dim)
    {
      hide Lru, Keys, Cached, BatchKeys, Hits, CacheKey, Valid, HoldsEntry;
      ghost var keys, known := BatchKeys(ids, masks, r), Keys(cache);
      entries := [];
      NoHits(keys, known);
      for b := 0 to |ids|
        invariant Valid() && predicted == old(predicted) && |entries| == b
        invariant forall x :: x in Keys(cache) <==> x in known
        invariant touches == old(touches) + Hits(keys[..b], known)
        invariant forall i | 0 <= i < b :: entries[i] == Cached(keys[i], known, predicted, settings, std, dim)
      {
        HitsSnoc(keys, known, b);
        var found := Get(CacheKey(ids[b], masks[b], r));
        CachedIs(keys[b], known, predicted, settings, std, dim, found);
        if found.Some? && found.value.dim == dim {
          entries := entries + [Some(found.value.pred)];
        } else {
          entries := entries + [None];
        }
      }
      assert keys[..|ids|] == keys;
    }
  }

  lemma CachedIs(k: Key, known: seq<Key>, predicted: map<Key, Pred>, s: Settings, std: real, dim: nat,
                 found: Option<Entry>)
    requires found.Some? <==> k in known
    requires found.Some? ==> found.value.key == k && HoldsEntry(found.value, predicted, s, std)
    ensures Cached(k, known, predicted, s, std, dim)
         == if found.Some? && found.value.dim == dim then Some(found.value.pred) else None
  {
    hide KeyLength, Shifted;
  }

  /** On a valid cache every cached key of the asked dimension has an entry. */
  lemma {:induction false} KnownIsCached(cache: seq<Entry>, touches: seq<Key>, predicted: map<Key, Pred>, max: nat,
                                         s: Settings, std: real, dim: nat, k: Key)
    requires Lru(cache, touches, predicted, max, s, std)
    ensures k in Keys(cache) ==> k.r > 0 && k in predicted && KeyLength(k, s) <= |predicted[k].values|
    ensures Cached(k, Keys(cache), predicted, s, std, dim)
         == if k in Keys(cache) && predicted[k].dim == dim then Some(EntryOf(k, predicted[k], s, std).pred) else None
  {
    hide KeyLength, Shifted, Newest, ByLastUse;
    if k in Keys(cache) {
      var i :| 0 <= i < |cache| && Keys(cache)[i] == k;
      assert HoldsEntry(cache[i], predicted, s, std);
    }
  }

  method BlendAll(
      embeds: seq<seq<real>>, latent: seq<seq<bool>>, draws: seq<seq<bool>>, entries: seq<Option<seq<real>>>)
    returns (out: seq<seq<real>>)
    requires |embeds| == |latent| == |draws| == |entries|
    requires forall b | 0 <= b < |embeds| :: |embeds[b]| == |latent[b]| == |draws[b]|
    ensures |out| == |embeds|
    ensures forall b | 0 <= b < |embeds| :: out[b] == Replaced(embeds[b], latent[b], draws[b], entries[b])
  {
    hide Replaced;
    out := [];
    for b := 0 to |embeds|
      invariant |out| == b && forall i | 0 <= i < b :: out[i] == Replaced(embeds[i], latent[i], draws[i], entries[i])
    {
      var row := Blend(embeds[b], latent[b], draws[b], entries[b]);
      out := out + [row];
    }
  }

  ghost predicate BatchShape(ids: seq<seq<nat>>, masks: seq<seq<bool>>, embeds: seq<seq<real>>,
                             latent: seq<seq<bool>>, draws: seq<seq<bool>>)
  {
    |ids| == |masks| == |embeds| == |latent| == |draws|
    && forall b | 0 <= b < |ids| ::
         Slots(masks[b]) <= |ids[b]| && |embeds[b]| == |latent[b]| == |draws[b]|
  }

  /** The entry of a key among the known ones. */
  ghost function Cached(k: Key, known: seq<Key>, predicted: map<Key, Pred>, s: Settings, std: real, dim: nat)
    : Option<seq<real>>
  {
    if k in known && k in predicted && k.r > 0 && KeyLength(k, s) <= |predicted[k].values| && predicted[k].dim == dim
    then Some(EntryOf(k, predicted[k], s, std).pred) else None
  }

  function Hits(keys: seq<Key>, known: seq<Key>): seq<Key> {
    if keys == [] then []
    else Hits(keys[..|keys| - 1], known) + if keys[|keys| - 1] in known then [keys[|keys| - 1]] else []
  }

  lemma NoHits(keys: seq<Key>, known: seq<Key>)
    ensures Hits(keys[..0], known) == []
  {
  }

  lemma HitsSnoc(keys: seq<Key>, known: seq<Key>, b: nat)
    requires b < |keys|
    ensures Hits(keys[..b + 1], known) == Hits(keys[..b], known) + if keys[b] in known then [keys[b]] else []
  {
    assert keys[..b + 1][..b] == keys[..b];
  }

  /** One row: drawn latent positions within the entry take its value, the others keep theirs. */
  function Replaced(embeds: seq<real>, latent: seq<bool>, draws: seq<bool>, entry: Option<seq<real>>): (r: seq<real>)
    requires |embeds| == |latent| == |draws|
    ensures |r| == |embeds|
    ensures forall t | 0 <= t < |r| ::
      r[t] == if entry.Some? && t < |entry.value| && latent[t] && draws[t] then entry.value[t] else embeds[t]
  {
    seq(|embeds|, t requires 0 <= t < |embeds| =>
      if entry.Some? && t < |entry.value| && latent[t] && draws[t] then entry.value[t] else embeds[t])
  }

  lemma NothingReplaced(embeds: seq<seq<real>>, latent: seq<seq<bool>>, draws: seq<seq<bool>>)
    requires |embeds| == |latent| == |draws|
    requires forall b | 0 <= b < |embeds| :: |embeds[b]| == |latent[b]| == |draws[b]|
    ensures forall b | 0 <= b < |embeds| :: Replaced(embeds[b], latent[b], draws[b], None) == embeds[b]
  {
    forall b | 0 <= b < |embeds| ensures Replaced(embeds[b], latent[b], draws[b], None) == embeds[b] {
      assert forall t | 0 <= t < |embeds[b]| :: Replaced(embeds[b], latent[b], draws[b], None)[t] == embeds[b][t];
    }
  }

  /** The arithmetic blend by a 0/1 weight. */
  method Blend(embeds: seq<real>, latent: seq<bool>, draws: seq<bool>, entry: Option<seq<real>>)
    returns (row: seq<real>)
    requires |embeds| == |latent| == |draws|
    ensures row == Replaced(embeds, latent, draws, entry)
  {
    row := [];
    for t := 0 to |embeds|
      invariant |row| == t && forall i | 0 <= i < t :: row[i] == Replaced(embeds, latent, draws, entry)[i]
    {
      var available := entry.Some? && t < |entry.value|;
      var cached := if available then entry.value[t] else 0.0;
      var weight := if available && latent[t] && draws[t] then 1.0 else 0.0;
      row := row + [embeds[t] * (1.0 - weight) + cached * weight];
    }
  }

  /** What a batch must satisfy to be stored: the attention of a compressed row spans exactly its length. */
  ghost predicate Storable(ids: seq<seq<nat>>, masks: seq<seq<bool>>, attn: seq<seq<bool>>, r: nat,
                           preds: seq<Pred>, s: Settings)
  {
    |ids| == |masks| == |attn| == |preds| && r > 0
    && forall b | 0 <= b < |ids| ::
         Slots(masks[b]) <= |ids[b]|
         && Slots(attn[b]) == CompressedLength(ids[b], Slots(masks[b]), r, s) <= |preds[b].values|
  }

  function BatchKeys(ids: seq<seq<nat>>, masks: seq<seq<bool>>, r: nat): (keys: seq<Key>)
    requires |ids| == |masks| && forall b | 0 <= b < |ids| :: Slots(masks[b]) <= |ids[b]|
    ensures |keys| == |ids| && forall b | 0 <= b < |ids| :: keys[b] == CacheKey(ids[b], masks[b], r)
  {
    seq(|ids|, b requires 0 <= b < |ids| => CacheKey(ids[b], masks[b], r))
  }

  /** The predictions after storing several rows: later ones win. */
  ghost function WithAll(predicted: map<Key, Pred>, keys: seq<Key>, preds: seq<Pred>): map<Key, Pred>
    requires |keys| == |preds|
  {
    if keys == [] then predicted
    else WithAll(predicted, keys[..|keys| - 1], preds[..|preds| - 1])[keys[|keys| - 1] := preds[|preds| - 1]]
  }

  lemma WithNone(predicted: map<Key, Pred>, keys: seq<Key>, preds: seq<Pred>)
    ensures WithAll(predicted, keys[..0], preds[..0]) == predicted
  {
  }

  lemma WithAllSnoc(predicted: map<Key, Pred>, keys: seq<Key>, preds: seq<Pred>, b: nat)
    requires |keys| == |preds| && b < |keys|
    ensures WithAll(predicted, keys[..b + 1], preds[..b + 1])
      == WithAll(predicted, keys[..b], preds[..b])[keys[b] := preds[b]]
  {
    assert keys[..b + 1][..b] == keys[..b] && preds[..b + 1][..b] == preds[..b];
  }

  // ---- Alignment with compression ----

  lemma {:induction false} SlotsOfCopies(n: nat, more: nat)
    ensures Slots(Copies(true, n) + Copies(false, more)) == n
  {
    var f := Copies(true, n) + Copies(false, more);
    if more > 0 {
      SlotsOfCopies(n, more - 1);
      assert f[..|f| - 1] == Copies(true, n) + Copies(false, more - 1);
    } else if n > 0 {
      SlotsOfCopies(n - 1, 0);
      assert f[..|f| - 1] == Copies(true, n - 1) + Copies(false, 0);
    }
  }

  /** A compressed batch can be stored: each row's attention spans exactly the length its key stands for. */
  lemma {:induction false} RowStorable(batch: Batch, b: nat, row: Row, width: nat,
                    ids: seq<nat>, emb: seq<real>, labels: seq<int>, mask: seq<bool>, r: nat, s: Settings)
    requires RowOf(row, ids, emb, labels, mask, r, s) && Placed(batch, b, row, width)
    ensures Slots(batch.attn[b]) == |row.embeds| == CompressedLength(ids, Slots(mask), r, s) <= width
    ensures KeyLength(CacheKey(ids, mask, r), s) == |row.embeds|
  {
    hide Compressed, CompressedLength, Slots, CacheKey;
    LengthIs(row, ids, emb, labels, Slots(mask), r, s);
    SlotsOfCopies(|row.embeds|, width - |row.embeds|);
    KeyLengthIs(ids, mask, r, s);
  }

  /** Every latent input of a compressed batch lies within its key's entry and past its wrapped first slot, so on a
      hit it can be replaced, and then by the prediction made one position earlier. */
  lemma {:induction false} LatentsReplaceable(
      batch: Batch, b: nat, row: Row, width: nat, ids: seq<nat>, emb: seq<real>, labels: seq<int>,
                           mask: seq<bool>, r: nat, s: Settings, t: nat, pred: seq<real>, std: real)
    requires RowOf(row, ids, emb, labels, mask, r, s) && Placed(batch, b, row, width)
    requires t < |batch.think[b]| && batch.think[b][t] && exists u :: 0 <= u < t && batch.think[b][u]
    requires KeyLength(CacheKey(ids, mask, r), s) <= |pred|
    ensures 1 <= t < KeyLength(CacheKey(ids, mask, r), s)
    ensures Shifted(pred, std)[..KeyLength(CacheKey(ids, mask, r), s)][t] == pred[t - 1] * std
  {
    hide Slots, CacheKey, Shifted, KeyLength, CompressedLength;
    RowStorable(batch, b, row, width, ids, emb, labels, mask, r, s);
    var valid := Slots(mask);
    if SplitRow(ids, valid, s).Some? {
      LatentInputsArePooled(batch, b, row, width, ids, emb, labels, valid, r, s, t);
      CompressionKeeps(row, ids, emb, labels, valid, r, s);
    }
  }

  /** The whole replacement, on one row of a compressed batch: a latent input past the first, drawn on a hit of its
      own dimension, becomes the key's latest prediction made one position earlier, rescaled; nothing else changes. */
  lemma {:induction false} ReplacedRow(
      cache: seq<Entry>, touches: seq<Key>, predicted: map<Key, Pred>, max: nat, s: Settings, std: real, dim: nat,
      batch: Batch, b: nat, row: Row, width: nat, ids: seq<nat>, emb: seq<real>, labels: seq<int>, mask: seq<bool>,
      r: nat, embeds: seq<real>, latent: seq<bool>, draws: seq<bool>, t: nat)
    requires Lru(cache, touches, predicted, max, s, std)
    requires RowOf(row, ids, emb, labels, mask, r, s) && Placed(batch, b, row, width)
    requires |embeds| == |latent| == |batch.think[b]| == |draws| && t < |embeds|
    requires latent[t] <==> batch.think[b][t] && exists u :: 0 <= u < t && batch.think[b][u]
    ensures var k := CacheKey(ids, mask, r);
      var out := Replaced(embeds, latent, draws, Cached(k, Keys(cache), predicted, s, std, dim));
      && (k in Keys(cache) ==> k in predicted)
      && (k in Keys(cache) && predicted[k].dim == dim && latent[t] && draws[t] ==>
            1 <= t <= |predicted[k].values| && out[t] == predicted[k].values[t - 1] * std)
      && (!(k in Keys(cache) && predicted[k].dim == dim && latent[t] && draws[t]) ==> out[t] == embeds[t])
  {
    hide Lru, Keys, Placed, CacheKey, KeyLength, Cached, Shifted;
    var k := CacheKey(ids, mask, r);
    KnownIsCached(cache, touches, predicted, max, s, std, dim, k);
    if k in Keys(cache) && latent[t] {
      LatentsReplaceable(batch, b, row, width, ids, emb, labels, mask, r, s, t, predicted[k].values, std);
    }
  }
}
