/**
 * The merge that `fetch_multiple_hours` and `fetch_multiple_days` both run:
 * pages of channels are folded into `channels_dict`, a dictionary keyed by
 * the channel's `pa_id` that keeps insertion order.  A channel seen for the
 * first time is stored as it is; a later channel with the same `pa_id` only
 * contributes the schedules whose `(pa_id, start_at)` key was absent from the
 * stored list when its own merge began.
 */
module Merge {
  import opened Wrappers
  import opened Listings

  /** `channels_dict`: the ids in insertion order and the stored channel of each. */
  datatype Merged = Merged(ids: seq<string>, byId: map<string, Channel>)

  predicate Distinct<T(==)>(xs: seq<T>) {
    forall i, j :: 0 <= i < j < |xs| ==> xs[i] != xs[j]
  }

  predicate Valid(m: Merged) {
    && Distinct(m.ids)
    && (forall id :: id in m.byId ==> id in m.ids)
    && (forall i :: 0 <= i < |m.ids| ==> m.ids[i] in m.byId)
  }

  const Empty: Merged := Merged([], map[])

  /** `list(channels_dict.values())`. */
  function Values(m: Merged): (r: seq<Channel>)
    requires Valid(m)
    ensures |r| == |m.ids| && forall i :: 0 <= i < |m.ids| ==> r[i] == m.byId[m.ids[i]]
  {
    seq(|m.ids|, i requires 0 <= i < |m.ids| => m.byId[m.ids[i]])
  }

  /** The KeyError that looking up the keys of `ss` in order raises first, if any. */
  function FirstKeyError(ss: seq<Schedule>): (r: Option<Err>)
    ensures r.None? <==> AllKeyed(ss)
    ensures r.Some? ==> r.value.KeyMissing?
  {
    if ss == [] then None
    else match FirstKeyError(ss[..|ss| - 1])
      case Some(e) => Some(e)
      case None =>
        match KeyOf(ss[|ss| - 1])
        case Failure(e) => Some(e)
        case Success(_) => None
  }

  /** `{(s['pa_id'], s['start_at']) for s in ss}`. */
  function Keys(ss: seq<Schedule>): (ks: set<ScheduleKey>)
    requires AllKeyed(ss)
    ensures forall i :: 0 <= i < |ss| ==> Key(ss[i]) in ks
    ensures forall k :: k in ks ==> exists i :: 0 <= i < |ss| && Key(ss[i]) == k
  {
    if ss == [] then {} else Keys(ss[..|ss| - 1]) + {Key(ss[|ss| - 1])}
  }

  /** The schedules of `incoming` whose key is not in `snapshot`, in order. */
  function Absent(incoming: seq<Schedule>, snapshot: set<ScheduleKey>): (r: seq<Schedule>)
    requires AllKeyed(incoming)
    ensures AllKeyed(r) && |r| <= |incoming|
  {
    if incoming == [] then []
    else
      var last := incoming[|incoming| - 1];
      Absent(incoming[..|incoming| - 1], snapshot) + (if Key(last) in snapshot then [] else [last])
  }

  /**
   * One channel of a page merged into `m`.  Lookups happen in the source's
   * order: the channel's `pa_id`; for a known id, the stored channel's
   * schedules and their keys, the incoming channel's schedules, then the
   * incoming keys one by one.
   */
  function MergeChannel(m: Merged, c: Channel): (r: Result<Merged, Err>)
    requires Valid(m)
    ensures r.Success? ==> Valid(r.value)
    ensures r.Failure? ==> r.error.KeyMissing?
  {
    if c.paId.None? then Failure(KeyMissing("pa_id"))
    else
      var id := c.paId.value;
      if id !in m.byId then Success(Merged(m.ids + [id], m.byId[id := c]))
      else
        var stored := m.byId[id];
        if stored.schedules.None? then Failure(KeyMissing("schedules"))
        else if FirstKeyError(stored.schedules.value).Some? then Failure(FirstKeyError(stored.schedules.value).value)
        else if c.schedules.None? then Failure(KeyMissing("schedules"))
        else if FirstKeyError(c.schedules.value).Some? then Failure(FirstKeyError(c.schedules.value).value)
        else
          var snapshot := Keys(stored.schedules.value);
          var merged := stored.(schedules := Some(stored.schedules.value + Absent(c.schedules.value, snapshot)));
          Success(m.(byId := m.byId[id := merged]))
  }

  /** A whole page (or a whole day's result) merged into `m`, channel by channel. */
  function MergeBatch(m: Merged, batch: seq<Channel>): (r: Result<Merged, Err>)
    requires Valid(m)
    ensures r.Success? ==> Valid(r.value)
    ensures r.Failure? ==> r.error.KeyMissing?
  {
    if batch == [] then Success(m)
    else match MergeBatch(m, batch[..|batch| - 1])
      case Failure(e) => Failure(e)
      case Success(prev) => MergeChannel(prev, batch[|batch| - 1])
  }

  /**
   * The merge loop of the source, run on `channels_dict` in place: for each
   * channel, store it or append its new schedules to the stored one.
   */
  method MergeInto(m: Merged, batch: seq<Channel>) returns (r: Result<Merged, Err>)
    requires Valid(m)
    ensures r == MergeBatch(m, batch)
  {
    var cur := m;
    var i := 0;
    while i < |batch|
      invariant 0 <= i <= |batch|
      invariant MergeBatch(m, batch[..i]) == Success(cur)
    {
      assert batch[..i + 1][..i] == batch[..i];
      var step := MergeOne(cur, batch[i]);
      if step.Failure? {
        MergeBatchOfPrefix(m, batch, i + 1);
        return Failure(step.error);
      }
      cur := step.value;
      i := i + 1;
    }
    assert batch[..i] == batch;
    return Success(cur);
  }

  /**
   * One pass of the merge loop: store a new channel, or append to the
   * stored one the schedules whose keys it does not hold yet.
   */
  method MergeOne(m: Merged, channel: Channel) returns (r: Result<Merged, Err>)
    requires Valid(m)
    ensures r == MergeChannel(m, channel)
  {
    if channel.paId.None? {
      return Failure(KeyMissing("pa_id"));
    }
    var paId := channel.paId.value;
    if paId !in m.byId {
      return Success(Merged(m.ids + [paId], m.byId[paId := channel]));
    }
    var stored := m.byId[paId];
    if stored.schedules.None? {
      return Failure(KeyMissing("schedules"));
    }
    var existing := FirstKeyError(stored.schedules.value);
    if existing.Some? {
      return Failure(existing.value);
    }
    var snapshot := Keys(stored.schedules.value);
    if channel.schedules.None? {
      return Failure(KeyMissing("schedules"));
    }
    var list, keyErr := AppendAbsent(stored.schedules.value, channel.schedules.value, snapshot);
    if keyErr.Some? {
      return Failure(keyErr.value);
    }
    return Success(m.(byId := m.byId[paId := stored.(schedules := Some(list))]));
  }

  /**
   * The inner loop of the merge: appends to `list` each incoming schedule
   * whose key was not in `snapshot`, stopping at the first schedule without
   * a key.
   */
  method AppendAbsent(list: seq<Schedule>, incoming: seq<Schedule>, snapshot: set<ScheduleKey>)
    returns (r: seq<Schedule>, err: Option<Err>)
    ensures err == FirstKeyError(incoming)
    ensures err.None? ==> r == list + Absent(incoming, snapshot)
  {
    r := list;
    var j := 0;
    while j < |incoming|
      invariant 0 <= j <= |incoming|
      invariant FirstKeyError(incoming[..j]).None?
      invariant r == list + Absent(incoming[..j], snapshot)
    {
      assert incoming[..j + 1][..j] == incoming[..j];
      var schedule := incoming[j];
      var key := KeyOf(schedule);
      if key.Failure? {
        FirstKeyErrorOfPrefix(incoming, j + 1);
        return r, Some(key.error);
      }
      if key.value !in snapshot {
        r := r + [schedule];
      }
      j := j + 1;
    }
    assert incoming[..j] == incoming;
    err := None;
  }

  /** Once merging a prefix of a batch fails, merging the whole batch fails the same way. */
  lemma {:induction false} MergeBatchOfPrefix(m: Merged, batch: seq<Channel>, k: nat)
    requires Valid(m) && k <= |batch| && MergeBatch(m, batch[..k]).Failure?
    ensures MergeBatch(m, batch) == MergeBatch(m, batch[..k])
    decreases |batch| - k
  {
    if k < |batch| {
      assert batch[..k + 1][..k] == batch[..k];
      MergeBatchOfPrefix(m, batch, k + 1);
    } else {
      assert batch[..k] == batch;
    }
  }

  /** Once a prefix raises a KeyError, so does the whole list, with the same error. */
  lemma {:induction false} FirstKeyErrorOfPrefix(ss: seq<Schedule>, k: nat)
    requires k <= |ss| && FirstKeyError(ss[..k]).Some?
    ensures FirstKeyError(ss) == FirstKeyError(ss[..k])
    decreases |ss| - k
  {
    if k < |ss| {
      assert ss[..k + 1][..k] == ss[..k];
      FirstKeyErrorOfPrefix(ss, k + 1);
    } else {
      assert ss[..k] == ss;
    }
  }

  // ---------------------------------------------------------------------
  // Reference definitions the merge is proved against.

  /** The index of the first occurrence of `x` in `xs`. */
  function FirstIndex<T(==)>(xs: seq<T>, x: T): (k: nat)
    requires x in xs
    ensures k < |xs| && xs[k] == x && forall i :: 0 <= i < k ==> xs[i] != x
  {
    if xs[0] == x then 0 else 1 + FirstIndex(xs[1..], x)
  }

  lemma FirstIndexAppend<T>(xs: seq<T>, y: T)
    ensures forall x :: x in xs ==> FirstIndex(xs + [y], x) == FirstIndex(xs, x)
    ensures y !in xs ==> FirstIndex(xs + [y], y) == |xs|
  {
    forall x | x in xs
      ensures FirstIndex(xs + [y], x) == FirstIndex(xs, x)
    {
      assert (xs + [y])[FirstIndex(xs, x)] == x;
    }
  }

  /**
   * The elements of `xs` without repetitions, each where it first occurs:
   * the order of a dictionary's keys after inserting `xs` one by one.
   */
  function Dedup<T(==,!new)>(xs: seq<T>): (r: seq<T>)
    ensures Distinct(r)
    ensures forall x :: x in r <==> x in xs
    ensures forall i, j :: 0 <= i < j < |r| ==> FirstIndex(xs, r[i]) < FirstIndex(xs, r[j])
  {
    if xs == [] then []
    else
      var init, x := xs[..|xs| - 1], xs[|xs| - 1];
      assert xs == init + [x];
      var d := Dedup(init);
      FirstIndexAppend(init, x);
      if x in d then d else d + [x]
  }

  lemma {:induction false} DedupOfDistinct<T(!new)>(xs: seq<T>)
    requires Distinct(xs)
    ensures Dedup(xs) == xs
  {
    if xs != [] {
      DedupOfDistinct(xs[..|xs| - 1]);
      assert xs[|xs| - 1] !in xs[..|xs| - 1];
      assert xs[..|xs| - 1] + [xs[|xs| - 1]] == xs;
    }
  }

  /** Deduplicating a prefix first changes nothing. */
  lemma {:induction false} DedupPrefix<T(!new)>(a: seq<T>, b: seq<T>)
    ensures Dedup(Dedup(a) + b) == Dedup(a + b)
    decreases |b|
  {
    if b == [] {
      assert Dedup(a) + b == Dedup(a) && a + b == a;
      DedupOfDistinct(Dedup(a));
    } else {
      var b', x := b[..|b| - 1], b[|b| - 1];
      DedupPrefix(a, b');
      var p, q := Dedup(a) + b', a + b';
      LastOff(Dedup(a), b);
      LastOff(a, b);
      DedupSnoc(p, x);
      DedupSnoc(q, x);
      assert x in p <==> x in q;
    }
  }

  lemma LastOff<T>(c: seq<T>, b: seq<T>)
    requires b != []
    ensures c + b == (c + b[..|b| - 1]) + [b[|b| - 1]]
  {
    assert b == b[..|b| - 1] + [b[|b| - 1]];
  }

  /** One more element joins the key order at its end iff it is new. */
  lemma DedupSnoc<T(!new)>(p: seq<T>, x: T)
    ensures Dedup(p + [x]) == if x in p then Dedup(p) else Dedup(p) + [x]
  {
    assert (p + [x])[..|p + [x]| - 1] == p;
  }


  /** Every channel of the batch has a `pa_id`. */
  predicate AllIdentified(batch: seq<Channel>) {
    forall i :: 0 <= i < |batch| ==> batch[i].paId.Some?
  }

  /** The channel ids of a batch, in order, repetitions included. */
  function PaIds(batch: seq<Channel>): (ids: seq<string>)
    requires AllIdentified(batch)
    ensures |ids| == |batch| && forall i :: 0 <= i < |batch| ==> ids[i] == batch[i].paId.value
  {
    if batch == [] then [] else PaIds(batch[..|batch| - 1]) + [batch[|batch| - 1].paId.value]
  }

  /** Every stored channel has schedules the merge can key. */
  predicate StoredWellFormed(m: Merged) {
    forall id :: id in m.byId ==> WellFormed(m.byId[id])
  }

  /** A channel's metadata: everything but its schedules. */
  function Meta(c: Channel): Channel {
    c.(schedules := None)
  }

  /** The schedule list a channel id starts from: the stored one, or none yet. */
  function Base(m: Merged, id: string): (ss: seq<Schedule>)
    requires StoredWellFormed(m)
    ensures AllKeyed(ss)
  {
    if id in m.byId then m.byId[id].schedules.value else []
  }

  /** The schedule lists the batch brings for channel `id`, in order. */
  function ListsFor(batch: seq<Channel>, id: string): (ls: seq<seq<Schedule>>)
    requires AllWellFormed(batch)
    ensures forall i :: 0 <= i < |ls| ==> AllKeyed(ls[i])
  {
    if batch == [] then []
    else
      var c := batch[|batch| - 1];
      ListsFor(batch[..|batch| - 1], id) + (if c.paId.value == id then [c.schedules.value] else [])
  }

  predicate AllListsKeyed(ls: seq<seq<Schedule>>) {
    forall i :: 0 <= i < |ls| ==> AllKeyed(ls[i])
  }

  /**
   * One channel's schedules after its lists arrive one after another, each
   * adding the schedules whose key the list so far does not carry.  This is
   * the per-channel view of the merge: it mentions no other channel.
   */
  function Combine(base: seq<Schedule>, ls: seq<seq<Schedule>>): (r: seq<Schedule>)
    requires AllKeyed(base) && AllListsKeyed(ls)
    ensures AllKeyed(r)
  {
    if ls == [] then base
    else
      var acc := Combine(base, ls[..|ls| - 1]);
      acc + Absent(ls[|ls| - 1], Keys(acc))
  }

  lemma CombineSnoc(base: seq<Schedule>, ls: seq<seq<Schedule>>, l: seq<Schedule>)
    requires AllKeyed(base) && AllListsKeyed(ls) && AllKeyed(l)
    ensures AllListsKeyed(ls + [l])
    ensures Combine(base, ls + [l]) == Combine(base, ls) + Absent(l, Keys(Combine(base, ls)))
  {
    assert (ls + [l])[..|ls|] == ls;
  }

  // ---------------------------------------------------------------------
  // Properties of the merge.

  lemma AllKeyedAppend(a: seq<Schedule>, b: seq<Schedule>)
    requires AllKeyed(a) && AllKeyed(b)
    ensures AllKeyed(a + b)
  {
    assert forall i :: 0 <= i < |b| ==> (a + b)[|a| + i] == b[i];
  }

  /** A successful merge of a batch is its last channel merged into the merge of the rest. */
  lemma MergeBatchLast(m: Merged, batch: seq<Channel>)
    requires Valid(m) && batch != [] && MergeBatch(m, batch).Success?
    ensures MergeBatch(m, batch[..|batch| - 1]).Success?
    ensures MergeBatch(m, batch) == MergeChannel(MergeBatch(m, batch[..|batch| - 1]).value, batch[|batch| - 1])
  {
  }

  /** What a successful merge of one channel does to the ids. */
  lemma MergeChannelIds(m: Merged, c: Channel)
    requires Valid(m) && MergeChannel(m, c).Success?
    ensures c.paId.Some?
    ensures MergeChannel(m, c).value.ids == if c.paId.value in m.byId then m.ids else m.ids + [c.paId.value]
    ensures forall id :: id in MergeChannel(m, c).value.byId <==> id in m.byId || id == c.paId.value
  {
  }

  /** What a successful merge of one channel does to the stored channels. */
  lemma MergeChannelStored(m: Merged, c: Channel)
    requires Valid(m) && MergeChannel(m, c).Success?
    ensures c.paId.Some?
    ensures var r, cid := MergeChannel(m, c).value, c.paId.value;
      && (forall id :: id in m.byId && id != cid ==> r.byId[id] == m.byId[id])
      && (cid !in m.byId ==> r.byId[cid] == c)
      && (cid in m.byId ==>
            && Meta(r.byId[cid]) == Meta(m.byId[cid])
            && m.byId[cid].schedules.Some? && AllKeyed(m.byId[cid].schedules.value)
            && c.schedules.Some? && AllKeyed(c.schedules.value)
            && r.byId[cid].schedules ==
                 Some(m.byId[cid].schedules.value
                      + Absent(c.schedules.value, Keys(m.byId[cid].schedules.value))))
  {
  }

  lemma IdentifiedSnoc(batch: seq<Channel>)
    requires batch != [] && AllIdentified(batch[..|batch| - 1]) && batch[|batch| - 1].paId.Some?
    ensures AllIdentified(batch)
  {
    assert forall i :: 0 <= i < |batch| - 1 ==> batch[i] == batch[..|batch| - 1][i];
  }

  /**
   * Well-formed channels merge without a KeyError; the stored ids are the old
   * ones and those of the batch.
   */
  lemma {:induction false} MergeSucceeds(m: Merged, batch: seq<Channel>)
    requires Valid(m) && StoredWellFormed(m) && AllWellFormed(batch)
    ensures MergeBatch(m, batch).Success?
    ensures StoredWellFormed(MergeBatch(m, batch).value)
    ensures forall id :: id in MergeBatch(m, batch).value.byId <==> id in m.byId || id in PaIds(batch)
  {
    if batch != [] {
      var init, c := batch[..|batch| - 1], batch[|batch| - 1];
      assert AllWellFormed(init);
      MergeSucceeds(m, init);
      var prev := MergeBatch(m, init).value;
      var id := c.paId.value;
      if id in prev.byId {
        var stored := prev.byId[id];
        AllKeyedAppend(stored.schedules.value, Absent(c.schedules.value, Keys(stored.schedules.value)));
      }
    }
  }

  /**
   * The ids come out in the order of their first appearance, the ones already
   * stored first: what inserting into a Python dict gives.
   */
  lemma {:induction false} MergeOrder(m: Merged, batch: seq<Channel>)
    requires Valid(m) && MergeBatch(m, batch).Success?
    ensures AllIdentified(batch)
    ensures MergeBatch(m, batch).value.ids == Dedup(m.ids + PaIds(batch))
    ensures forall id :: id in MergeBatch(m, batch).value.byId <==> id in m.byId || id in PaIds(batch)
  {
    var r := MergeBatch(m, batch).value;
    if batch == [] {
      DedupOfDistinct(m.ids);
      assert m.ids + [] == m.ids;
    } else {
      var init, c := batch[..|batch| - 1], batch[|batch| - 1];
      MergeBatchLast(m, batch);
      MergeOrder(m, init);
      var prev := MergeBatch(m, init).value;
      MergeChannelIds(prev, c);
      IdentifiedSnoc(batch);
      assert m.ids + PaIds(batch) == (m.ids + PaIds(init)) + [c.paId.value];
    }
  }

  /**
   * A channel keeps the metadata of its first appearance: the stored channel
   * when there was one, otherwise the first channel of the batch with its id.
   */
  lemma {:induction false} MergeKeepsFirstMetadata(m: Merged, batch: seq<Channel>)
    requires Valid(m) && MergeBatch(m, batch).Success?
    ensures AllIdentified(batch)
    ensures var r := MergeBatch(m, batch).value;
      forall id :: id in r.byId ==>
        if id in m.byId then Meta(r.byId[id]) == Meta(m.byId[id])
        else id in PaIds(batch) && Meta(r.byId[id]) == Meta(batch[FirstIndex(PaIds(batch), id)])
  {
    MergeOrder(m, batch);
    if batch != [] {
      MergeBatchLast(m, batch);
      MergeKeepsFirstMetadata(m, batch[..|batch| - 1]);
      forall id | id in MergeBatch(m, batch).value.byId
        ensures var r := MergeBatch(m, batch).value;
          if id in m.byId then Meta(r.byId[id]) == Meta(m.byId[id])
          else id in PaIds(batch) && Meta(r.byId[id]) == Meta(batch[FirstIndex(PaIds(batch), id)])
      {
        MetadataStep(m, batch, id);
      }
    }
  }

  /** The inductive step of `MergeKeepsFirstMetadata`, for one channel id. */
  lemma MetadataStep(m: Merged, batch: seq<Channel>, id: string)
    requires Valid(m) && batch != [] && MergeBatch(m, batch).Success?
    requires id in MergeBatch(m, batch).value.byId
    requires MergeBatch(m, batch[..|batch| - 1]).Success?
    requires AllIdentified(batch[..|batch| - 1])
    requires var prev := MergeBatch(m, batch[..|batch| - 1]).value;
      forall x :: x in prev.byId ==>
        if x in m.byId then Meta(prev.byId[x]) == Meta(m.byId[x])
        else (x in PaIds(batch[..|batch| - 1])
              && Meta(prev.byId[x]) == Meta(batch[..|batch| - 1][FirstIndex(PaIds(batch[..|batch| - 1]), x)]))
    ensures AllIdentified(batch)
    ensures var r := MergeBatch(m, batch).value;
      if id in m.byId then Meta(r.byId[id]) == Meta(m.byId[id])
      else id in PaIds(batch) && Meta(r.byId[id]) == Meta(batch[FirstIndex(PaIds(batch), id)])
  {
    var init, c := batch[..|batch| - 1], batch[|batch| - 1];
    MergeBatchLast(m, batch);
    var prev, r := MergeBatch(m, init).value, MergeBatch(m, batch).value;
    MergeChannelStored(prev, c);
    MergeChannelIds(prev, c);
    IdentifiedSnoc(batch);
    assert PaIds(batch) == PaIds(init) + [c.paId.value];
    if id in prev.byId {
      if id !in m.byId {
        FirstIndexAppend(PaIds(init), c.paId.value);
        assert batch[FirstIndex(PaIds(init), id)] == init[FirstIndex(PaIds(init), id)];
      }
    } else {
      MergeOrder(m, init);
      assert id == c.paId.value && id !in m.byId && id !in PaIds(init);
      FirstIndexAppend(PaIds(init), c.paId.value);
      assert r.byId[id] == c;
    }
  }

  lemma {:induction false} NoListsForAbsentId(batch: seq<Channel>, id: string)
    requires AllWellFormed(batch) && id !in PaIds(batch)
    ensures ListsFor(batch, id) == []
  {
    if batch != [] {
      var init := batch[..|batch| - 1];
      assert AllWellFormed(init);
      assert PaIds(batch) == PaIds(init) + [batch[|batch| - 1].paId.value];
      NoListsForAbsentId(init, id);
    }
  }

  lemma {:induction false} AbsentFromNothing(l: seq<Schedule>)
    requires AllKeyed(l)
    ensures Absent(l, {}) == l
  {
    if l != [] {
      AbsentFromNothing(l[..|l| - 1]);
      assert l[..|l| - 1] + [l[|l| - 1]] == l;
    }
  }

  /**
   * Each channel's schedules are its reference combination: the stored list
   * (or none) followed by what each list of the batch with its id adds.
   */
  lemma {:induction false} MergeSchedules(m: Merged, batch: seq<Channel>)
    requires Valid(m) && StoredWellFormed(m) && AllWellFormed(batch)
    ensures MergeBatch(m, batch).Success?
    ensures var r := MergeBatch(m, batch).value;
      forall id :: id in r.byId ==>
        r.byId[id].schedules == Some(Combine(Base(m, id), ListsFor(batch, id)))
  {
    MergeSucceeds(m, batch);
    if batch != [] {
      var init := batch[..|batch| - 1];
      assert AllWellFormed(init);
      MergeSchedules(m, init);
      forall id | id in MergeBatch(m, batch).value.byId
        ensures MergeBatch(m, batch).value.byId[id].schedules == Some(Combine(Base(m, id), ListsFor(batch, id)))
      {
        MergeSchedulesStep(m, batch, id);
      }
    }
  }

  /** The inductive step of `MergeSchedules`, for one channel id. */
  lemma MergeSchedulesStep(m: Merged, batch: seq<Channel>, id: string)
    requires Valid(m) && StoredWellFormed(m) && AllWellFormed(batch) && batch != []
    requires AllWellFormed(batch[..|batch| - 1])
    requires MergeBatch(m, batch).Success? && id in MergeBatch(m, batch).value.byId
    requires MergeBatch(m, batch[..|batch| - 1]).Success?
    requires var prev := MergeBatch(m, batch[..|batch| - 1]).value;
      forall x :: x in prev.byId ==>
        prev.byId[x].schedules == Some(Combine(Base(m, x), ListsFor(batch[..|batch| - 1], x)))
    ensures MergeBatch(m, batch).value.byId[id].schedules == Some(Combine(Base(m, id), ListsFor(batch, id)))
  {
    var init, c := batch[..|batch| - 1], batch[|batch| - 1];
    MergeSucceeds(m, init);
    MergeBatchLast(m, batch);
    var prev, r := MergeBatch(m, init).value, MergeBatch(m, batch).value;
    MergeChannelStored(prev, c);
    MergeChannelIds(prev, c);
    var ls := ListsFor(init, id);
    if id != c.paId.value {
      assert ListsFor(batch, id) == ls;
    } else {
      var l := c.schedules.value;
      assert ListsFor(batch, id) == ls + [l];
      CombineSnoc(Base(m, id), ls, l);
      if id !in prev.byId {
        NoListsForAbsentId(init, id);
        AbsentFromNothing(l);
        assert id !in m.byId && Base(m, id) == [] && ls == [];
        assert Keys([]) == {};
        assert Combine([], [] + [l]) == l;
        assert r.byId[id] == c;
      }
    }
  }

  // ---------------------------------------------------------------------
  // Keys, and what combining does to them.

  lemma KeysAppend(a: seq<Schedule>, b: seq<Schedule>)
    requires AllKeyed(a) && AllKeyed(b)
    ensures AllKeyed(a + b) && Keys(a + b) == Keys(a) + Keys(b)
  {
    AllKeyedAppend(a, b);
    forall k | k in Keys(a) ensures k in Keys(a + b) {
      var i :| 0 <= i < |a| && Key(a[i]) == k;
      assert (a + b)[i] == a[i];
    }
    forall k | k in Keys(a + b) ensures k in Keys(a) + Keys(b) {
      var i :| 0 <= i < |a + b| && Key((a + b)[i]) == k;
      if i >= |a| { assert (a + b)[i] == b[i - |a|]; }
    }
    forall k | k in Keys(b) ensures k in Keys(a + b) {
      var i :| 0 <= i < |b| && Key(b[i]) == k;
      assert (a + b)[|a| + i] == b[i];
    }
  }

  /** Exactly the keys not yet in the snapshot are added. */
  lemma {:induction false} KeysOfAbsent(l: seq<Schedule>, snapshot: set<ScheduleKey>)
    requires AllKeyed(l)
    ensures Keys(Absent(l, snapshot)) == Keys(l) - snapshot
  {
    if l != [] {
      var init, last := l[..|l| - 1], l[|l| - 1];
      KeysOfAbsent(init, snapshot);
      var ki, ai := Keys(init), Absent(init, snapshot);
      assert Keys(l) == ki + {Key(last)};
      MinusAdded(ki, Key(last), snapshot);
      if Key(last) in snapshot {
        assert Absent(l, snapshot) == ai by {
          assert Absent(l, snapshot) == ai + [];
        }
      } else {
        assert Absent(l, snapshot) == ai + [last];
        assert Keys([last]) == {Key(last)};
        KeysAppend(ai, [last]);
      }
    }
  }

  lemma MinusAdded<T>(a: set<T>, x: T, s: set<T>)
    ensures (a + {x}) - s == if x in s then a - s else (a - s) + {x}
  {
  }

  /** An incoming list whose keys are all present adds nothing. */
  lemma AbsentOfCovered(l: seq<Schedule>, snapshot: set<ScheduleKey>)
    requires AllKeyed(l) && Keys(l) <= snapshot
    ensures Absent(l, snapshot) == []
  {
    KeysOfAbsent(l, snapshot);
  }

  /** The keys of all the lists together. */
  function KeysOfLists(ls: seq<seq<Schedule>>): set<ScheduleKey>
    requires AllListsKeyed(ls)
  {
    if ls == [] then {} else KeysOfLists(ls[..|ls| - 1]) + Keys(ls[|ls| - 1])
  }

  /** Combining only appends: the base list stays a prefix. */
  lemma {:induction false} CombineExtends(base: seq<Schedule>, ls: seq<seq<Schedule>>)
    requires AllKeyed(base) && AllListsKeyed(ls)
    ensures base <= Combine(base, ls)
  {
    if ls != [] {
      CombineExtends(base, ls[..|ls| - 1]);
    }
  }

  /** The combined list carries the keys of the base and of every list, and no others. */
  lemma {:induction false} CombineKeys(base: seq<Schedule>, ls: seq<seq<Schedule>>)
    requires AllKeyed(base) && AllListsKeyed(ls)
    ensures Keys(Combine(base, ls)) == Keys(base) + KeysOfLists(ls)
  {
    if ls != [] {
      var init, l := ls[..|ls| - 1], ls[|ls| - 1];
      CombineKeys(base, init);
      var acc := Combine(base, init);
      KeysAppend(acc, Absent(l, Keys(acc)));
      KeysOfAbsent(l, Keys(acc));
    }
  }

  lemma KeysOfListsContains(ls: seq<seq<Schedule>>, i: nat)
    requires AllListsKeyed(ls) && i < |ls|
    ensures Keys(ls[i]) <= KeysOfLists(ls)
    decreases |ls|
  {
    if i < |ls| - 1 {
      KeysOfListsContains(ls[..|ls| - 1], i);
    }
  }

  /** No two schedules of the list share a key. */
  predicate DistinctKeys(ss: seq<Schedule>) {
    AllKeyed(ss) && forall i, j :: 0 <= i < j < |ss| ==> Key(ss[i]) != Key(ss[j])
  }

  lemma DistinctKeysAppend(a: seq<Schedule>, b: seq<Schedule>)
    requires DistinctKeys(a) && DistinctKeys(b) && Keys(a) !! Keys(b)
    ensures DistinctKeys(a + b)
  {
    AllKeyedAppend(a, b);
    forall i, j | 0 <= i < j < |a + b| ensures Key((a + b)[i]) != Key((a + b)[j]) {
      if j >= |a| {
        assert (a + b)[j] == b[j - |a|];
        if i < |a| {
          assert Key(a[i]) in Keys(a) && Key(b[j - |a|]) in Keys(b);
        } else {
          assert (a + b)[i] == b[i - |a|];
        }
      }
    }
  }

  lemma {:induction false} AbsentDistinct(l: seq<Schedule>, snapshot: set<ScheduleKey>)
    requires DistinctKeys(l)
    ensures DistinctKeys(Absent(l, snapshot))
  {
    if l != [] {
      var init, last := l[..|l| - 1], l[|l| - 1];
      assert DistinctKeys(init);
      AbsentDistinct(init, snapshot);
      if Key(last) !in snapshot {
        KeysOfAbsent(init, snapshot);
        assert Key(last) !in Keys(init);
        assert Keys([last]) == {Key(last)};
        DistinctKeysAppend(Absent(init, snapshot), [last]);
      } else {
        assert Absent(init, snapshot) + [] == Absent(init, snapshot);
      }
    }
  }

  /**
   * Combining never creates a repeated key: if the base and every incoming
   * list are free of repetitions, so is the result.
   */
  lemma {:induction false} CombineDistinct(base: seq<Schedule>, ls: seq<seq<Schedule>>)
    requires DistinctKeys(base) && forall i :: 0 <= i < |ls| ==> DistinctKeys(ls[i])
    ensures AllListsKeyed(ls) && DistinctKeys(Combine(base, ls))
  {
    if ls != [] {
      var init, l := ls[..|ls| - 1], ls[|ls| - 1];
      assert forall i :: 0 <= i < |init| ==> init[i] == ls[i];
      CombineDistinct(base, init);
      var acc := Combine(base, init);
      AbsentDistinct(l, Keys(acc));
      KeysOfAbsent(l, Keys(acc));
      DistinctKeysAppend(acc, Absent(l, Keys(acc)));
    }
  }

  /**
   * A repeated key inside one incoming list is not caught: both copies are
   * added, because the test is against the snapshot taken before the list.
   */
  lemma RepeatWithinOneListKept(s: Schedule)
    requires Keyed(s)
    ensures Combine([], [[s, s]]) == [s, s]
  {
    assert AllListsKeyed([[s, s]]);
    assert [[s, s]][..0] == [];
    assert Keys([]) == {};
    AbsentFromNothing([s, s]);
  }


  // ---------------------------------------------------------------------
  // Consequences for whole batches.

  /** Every channel of the batch contributes its list to its id's lists. */
  lemma {:induction false} ListsForContains(batch: seq<Channel>, k: nat)
    requires AllWellFormed(batch) && k < |batch|
    ensures var ls := ListsFor(batch, batch[k].paId.value);
      exists i :: 0 <= i < |ls| && ls[i] == batch[k].schedules.value
  {
    var init := batch[..|batch| - 1];
    assert AllWellFormed(init);
    var id := batch[k].paId.value;
    if k < |batch| - 1 {
      assert init[k] == batch[k];
      ListsForContains(init, k);
      var i :| 0 <= i < |ListsFor(init, id)| && ListsFor(init, id)[i] == batch[k].schedules.value;
      assert ListsFor(batch, id)[i] == ListsFor(init, id)[i];
    } else {
      assert ListsFor(batch, id)[|ListsFor(init, id)|] == batch[k].schedules.value;
    }
  }

  /** Lists gathered from channels without repeated keys have none either. */
  lemma {:induction false} ListsForDistinct(batch: seq<Channel>, id: string)
    requires AllWellFormed(batch)
    requires forall k :: 0 <= k < |batch| ==> DistinctKeys(batch[k].schedules.value)
    ensures forall i :: 0 <= i < |ListsFor(batch, id)| ==> DistinctKeys(ListsFor(batch, id)[i])
  {
    if batch != [] {
      var init := batch[..|batch| - 1];
      assert forall k :: 0 <= k < |init| ==> init[k] == batch[k];
      ListsForDistinct(init, id);
      var li, c := ListsFor(init, id), batch[|batch| - 1];
      var ls := ListsFor(batch, id);
      assert ls == li + (if c.paId.value == id then [c.schedules.value] else []);
      forall i | 0 <= i < |ls| ensures DistinctKeys(ls[i]) {
        if i < |li| {
          assert ls[i] == li[i];
          assert DistinctKeys(li[i]);
        } else {
          assert ls[i] == c.schedules.value;
          assert DistinctKeys(batch[|batch| - 1].schedules.value);
          assert DistinctKeys(c.schedules.value);
        }
      }
    }
  }

  /** The stored schedules of a channel stay a prefix of its new list. */
  lemma MergeKeepsStored(m: Merged, batch: seq<Channel>)
    requires Valid(m) && StoredWellFormed(m) && AllWellFormed(batch)
    ensures MergeBatch(m, batch).Success?
    ensures StoredWellFormed(MergeBatch(m, batch).value)
    ensures var r := MergeBatch(m, batch).value;
      forall id :: id in m.byId ==>
        id in r.byId && m.byId[id].schedules.value <= r.byId[id].schedules.value
  {
    MergeSucceeds(m, batch);
    MergeSchedules(m, batch);
    var r := MergeBatch(m, batch).value;
    forall id | id in m.byId
      ensures id in r.byId && m.byId[id].schedules.value <= r.byId[id].schedules.value
    {
      CombineExtends(Base(m, id), ListsFor(batch, id));
    }
  }

  /** Every schedule the batch brought is present, by key, under its channel's `pa_id`. */
  lemma MergeHoldsBatch(m: Merged, batch: seq<Channel>)
    requires Valid(m) && StoredWellFormed(m) && AllWellFormed(batch)
    ensures MergeBatch(m, batch).Success?
    ensures StoredWellFormed(MergeBatch(m, batch).value)
    ensures var r := MergeBatch(m, batch).value;
      forall k :: 0 <= k < |batch| ==>
        && batch[k].paId.value in r.byId
        && Keys(batch[k].schedules.value) <= Keys(r.byId[batch[k].paId.value].schedules.value)
  {
    MergeSucceeds(m, batch);
    MergeSchedules(m, batch);
    var r := MergeBatch(m, batch).value;
    forall k | 0 <= k < |batch|
      ensures Keys(batch[k].schedules.value) <= Keys(r.byId[batch[k].paId.value].schedules.value)
    {
      var id := batch[k].paId.value;
      assert id in PaIds(batch);
      var ls := ListsFor(batch, id);
      ListsForContains(batch, k);
      var i :| 0 <= i < |ls| && ls[i] == batch[k].schedules.value;
      KeysOfListsContains(ls, i);
      CombineKeys(Base(m, id), ls);
    }
  }

  /**
   * Nothing is lost: the stored schedules of a channel stay a prefix of its
   * new list, and every schedule the batch brought is present by key.
   */
  lemma MergeCovers(m: Merged, batch: seq<Channel>)
    requires Valid(m) && StoredWellFormed(m) && AllWellFormed(batch)
    ensures MergeBatch(m, batch).Success?
    ensures StoredWellFormed(MergeBatch(m, batch).value)
    ensures var r := MergeBatch(m, batch).value;
      forall id :: id in m.byId ==>
        id in r.byId && m.byId[id].schedules.value <= r.byId[id].schedules.value
    ensures var r := MergeBatch(m, batch).value;
      forall k :: 0 <= k < |batch| ==>
        && batch[k].paId.value in r.byId
        && Keys(batch[k].schedules.value) <= Keys(r.byId[batch[k].paId.value].schedules.value)
  {
    MergeKeepsStored(m, batch);
    MergeHoldsBatch(m, batch);
  }

  /** A channel already stored with all of its incoming keys is left as it is. */
  lemma MergeCoveredChannel(r: Merged, c: Channel)
    requires Valid(r) && StoredWellFormed(r) && WellFormed(c)
    requires c.paId.value in r.byId
    requires Keys(c.schedules.value) <= Keys(r.byId[c.paId.value].schedules.value)
    ensures MergeChannel(r, c) == Success(r)
  {
    var id := c.paId.value;
    var stored := r.byId[id];
    AbsentOfCovered(c.schedules.value, Keys(stored.schedules.value));
    assert stored.schedules.value + [] == stored.schedules.value;
    assert stored.(schedules := Some(stored.schedules.value)) == stored;
    assert r.byId[id := stored] == r.byId;
  }

  lemma {:induction false} MergeCoveredBatch(r: Merged, batch: seq<Channel>)
    requires Valid(r) && StoredWellFormed(r) && AllWellFormed(batch)
    requires forall k :: 0 <= k < |batch| ==>
      batch[k].paId.value in r.byId
      && Keys(batch[k].schedules.value) <= Keys(r.byId[batch[k].paId.value].schedules.value)
    ensures MergeBatch(r, batch) == Success(r)
  {
    if batch != [] {
      var init := batch[..|batch| - 1];
      assert forall k :: 0 <= k < |init| ==> init[k] == batch[k];
      MergeCoveredBatch(r, init);
      MergeCoveredChannel(r, batch[|batch| - 1]);
    }
  }

  /**
   * Merging a batch a second time changes nothing: every channel and every
   * schedule key it brings is already there.
   */
  lemma MergeIdempotent(m: Merged, batch: seq<Channel>)
    requires Valid(m) && StoredWellFormed(m) && AllWellFormed(batch)
    ensures MergeBatch(m, batch).Success?
    ensures var r := MergeBatch(m, batch).value; MergeBatch(r, batch) == Success(r)
  {
    MergeCovers(m, batch);
    var r := MergeBatch(m, batch).value;
    MergeCoveredBatch(r, batch);
  }

  /**
   * When every stored list and every incoming list is free of repeated keys,
   * so is every merged list.
   */
  lemma MergeNoRepeatedKeys(m: Merged, batch: seq<Channel>)
    requires Valid(m) && StoredWellFormed(m) && AllWellFormed(batch)
    requires forall id :: id in m.byId ==> DistinctKeys(m.byId[id].schedules.value)
    requires forall k :: 0 <= k < |batch| ==> DistinctKeys(batch[k].schedules.value)
    ensures MergeBatch(m, batch).Success?
    ensures var r := MergeBatch(m, batch).value;
      forall id :: id in r.byId ==> r.byId[id].schedules.Some? && DistinctKeys(r.byId[id].schedules.value)
  {
    MergeSucceeds(m, batch);
    var r := MergeBatch(m, batch).value;
    forall id | id in r.byId
      ensures r.byId[id].schedules.Some? && DistinctKeys(r.byId[id].schedules.value)
    {
      MergedListDistinct(m, batch, id);
    }
  }

  /** `MergeSchedules` for a single id. */
  lemma MergedSchedulesOf(m: Merged, batch: seq<Channel>, id: string)
    requires Valid(m) && StoredWellFormed(m) && AllWellFormed(batch)
    requires MergeBatch(m, batch).Success? && id in MergeBatch(m, batch).value.byId
    ensures MergeBatch(m, batch).value.byId[id].schedules == Some(Combine(Base(m, id), ListsFor(batch, id)))
  {
    MergeSchedules(m, batch);
  }

  lemma MergedListDistinct(m: Merged, batch: seq<Channel>, id: string)
    requires Valid(m) && StoredWellFormed(m) && AllWellFormed(batch)
    requires forall x :: x in m.byId ==> DistinctKeys(m.byId[x].schedules.value)
    requires forall k :: 0 <= k < |batch| ==> DistinctKeys(batch[k].schedules.value)
    requires MergeBatch(m, batch).Success? && id in MergeBatch(m, batch).value.byId
    ensures var r := MergeBatch(m, batch).value;
      r.byId[id].schedules.Some? && DistinctKeys(r.byId[id].schedules.value)
  {
    ListsForDistinct(batch, id);
    var ls := ListsFor(batch, id);
    var base := Base(m, id);
    assert DistinctKeys(base) by {
      if id in m.byId {
        assert base == m.byId[id].schedules.value;
      } else {
        assert base == [];
      }
    }
    CombineDistinct(base, ls);
    MergedSchedulesOf(m, batch, id);
    var r := MergeBatch(m, batch).value;
    assert r.byId[id].schedules.value == Combine(base, ls);
  }

  /**
   * Merging two batches one after the other is merging their concatenation:
   * the merge is a fold, so splitting the input anywhere changes nothing.
   */
  lemma {:induction false} MergeBatchAppend(m: Merged, a: seq<Channel>, b: seq<Channel>)
    requires Valid(m)
    ensures MergeBatch(m, a + b) ==
      match MergeBatch(m, a)
      case Failure(e) => Failure(e)
      case Success(mid) => MergeBatch(mid, b)
    decreases |b|
  {
    if b == [] {
      assert a + b == a;
    } else {
      var b' := b[..|b| - 1];
      assert (a + b)[..|a + b| - 1] == a + b';
      MergeBatchAppend(m, a, b');
    }
  }

  // ---------------------------------------------------------------------
  // Merging a merged result is merging what went into it.

  /** Every stored channel carries its own key as `pa_id`. */
  predicate IdsMatch(m: Merged) {
    forall id :: id in m.byId ==> m.byId[id].paId == Some(id)
  }

  /** Every channel has a `pa_id` and no two share one: a list of a dict's values keyed by `pa_id`. */
  predicate UniquePaIds(cs: seq<Channel>) {
    forall i, j :: 0 <= i < |cs| && 0 <= j < |cs| ==> cs[i].paId.Some? && (i != j ==> cs[i].paId != cs[j].paId)
  }

  /** `list(channels_dict.values())` holds one channel per `pa_id`. */
  lemma ValuesUnique(m: Merged)
    requires Valid(m) && IdsMatch(m)
    ensures UniquePaIds(Values(m))
  {
  }

  lemma {:induction false} MergeBatchIdsMatch(m: Merged, batch: seq<Channel>)
    requires Valid(m) && IdsMatch(m) && MergeBatch(m, batch).Success?
    ensures IdsMatch(MergeBatch(m, batch).value)
  {
    if batch != [] {
      var init := batch[..|batch| - 1];
      MergeBatchLast(m, batch);
      MergeBatchIdsMatch(m, init);
      MergeChannelIdsMatch(MergeBatch(m, init).value, batch[|batch| - 1]);
    }
  }

  lemma MergeChannelIdsMatch(m: Merged, c: Channel)
    requires Valid(m) && IdsMatch(m) && MergeChannel(m, c).Success?
    ensures IdsMatch(MergeChannel(m, c).value)
  {
    var r := MergeChannel(m, c).value;
    if c.paId.value !in m.byId {
      assert r.byId == m.byId[c.paId.value := c];
    } else {
      var stored := m.byId[c.paId.value];
      assert r.byId == m.byId[c.paId.value := stored.(schedules := r.byId[c.paId.value].schedules)];
    }
  }

  /** `MergeChannel` run after a merge that may already have raised. */
  function MergeAfter(r: Result<Merged, Err>, c: Channel): Result<Merged, Err>
    requires r.Success? ==> Valid(r.value)
  {
    match r
    case Failure(e) => Failure(e)
    case Success(m) => MergeChannel(m, c)
  }

  lemma MergeBatchSnoc(m: Merged, batch: seq<Channel>, c: Channel)
    requires Valid(m)
    ensures MergeBatch(m, batch + [c]) == MergeAfter(MergeBatch(m, batch), c)
  {
    assert (batch + [c])[..|batch|] == batch;
  }

  lemma MergeBatchUnfold(m: Merged, batch: seq<Channel>)
    requires Valid(m) && batch != []
    ensures MergeBatch(m, batch) == MergeAfter(MergeBatch(m, batch[..|batch| - 1]), batch[|batch| - 1])
  {
  }

  /** A stored channel whose schedules the merge can key. */
  predicate StoredKeyed(m: Merged, id: string) {
    id in m.byId && m.byId[id].schedules.Some? && AllKeyed(m.byId[id].schedules.value)
  }

  /** The stored channel `s` after the schedules of `c` absent from it are appended. */
  function Absorb(s: Channel, c: Channel): Channel
    requires s.schedules.Some? && AllKeyed(s.schedules.value) && c.schedules.Some? && AllKeyed(c.schedules.value)
  {
    s.(schedules := Some(s.schedules.value + Absent(c.schedules.value, Keys(s.schedules.value))))
  }

  lemma {:induction false} AbsentAppend(a: seq<Schedule>, b: seq<Schedule>, snapshot: set<ScheduleKey>)
    requires AllKeyed(a) && AllKeyed(b)
    ensures AllKeyed(a + b) && Absent(a + b, snapshot) == Absent(a, snapshot) + Absent(b, snapshot)
    decreases |b|
  {
    AllKeyedAppend(a, b);
    if b == [] {
      assert a + b == a;
    } else {
      var init, last := b[..|b| - 1], b[|b| - 1];
      assert AllKeyed(init);
      AbsentAppend(a, init, snapshot);
      assert (a + b)[..|a + b| - 1] == a + init && (a + b)[|a + b| - 1] == last;
      var tail := if Key(last) in snapshot then [] else [last];
      ConcatAssoc(Absent(a, snapshot), Absent(init, snapshot), tail);
    }
  }

  lemma ConcatAssoc<T>(a: seq<T>, b: seq<T>, c: seq<T>)
    ensures (a + b) + c == a + (b + c)
  {
  }

  /** Filtering against one snapshot and then another is filtering against both. */
  lemma {:induction false} AbsentTwice(l: seq<Schedule>, first: set<ScheduleKey>, second: set<ScheduleKey>)
    requires AllKeyed(l)
    ensures Absent(Absent(l, first), second) == Absent(l, first + second)
  {
    if l != [] {
      var init, last := l[..|l| - 1], l[|l| - 1];
      AbsentTwice(init, first, second);
      var kept := Absent(init, first);
      if Key(last) in first {
        assert Absent(l, first) == kept + [] == kept;
        assert Absent(l, first + second) == Absent(init, first + second) + [] == Absent(init, first + second);
      } else {
        assert Absent(l, first) == kept + [last];
        assert Absent(kept + [last], second) == Absent(kept, second) + (if Key(last) in second then [] else [last]) by {
          assert (kept + [last])[..|kept|] == kept;
        }
      }
    }
  }

  /**
   * Appending `a` and then `b` to a stored list `t` is appending, once, the
   * list that merging `b` into `a` gives.
   */
  lemma AbsentOfAbsorbed(t: seq<Schedule>, a: seq<Schedule>, b: seq<Schedule>)
    requires AllKeyed(t) && AllKeyed(a) && AllKeyed(b)
    ensures AllKeyed(a + Absent(b, Keys(a))) && AllKeyed(t + Absent(a, Keys(t)))
    ensures t + Absent(a + Absent(b, Keys(a)), Keys(t)) ==
            (t + Absent(a, Keys(t))) + Absent(b, Keys(t + Absent(a, Keys(t))))
  {
    var ta := Absent(a, Keys(t));
    AbsentAppend(a, Absent(b, Keys(a)), Keys(t));
    AbsentTwice(b, Keys(a), Keys(t));
    KeysAppend(t, ta);
    KeysOfAbsent(a, Keys(t));
    assert Keys(t + ta) == Keys(a) + Keys(t);
    ConcatAssoc(t, ta, Absent(b, Keys(a) + Keys(t)));
  }

  /** Merging `s` absorbed with `c` is merging `s` and then `c`. */
  lemma MergeAbsorbed(r: Merged, s: Channel, c: Channel)
    requires Valid(r) && WellFormed(s) && WellFormed(c) && s.paId == c.paId
    ensures MergeChannel(r, Absorb(s, c)) == MergeAfter(MergeChannel(r, s), c)
  {
    if s.paId.value in r.byId {
      MergeAbsorbedKnown(r, s, c);
    } else {
      MergeAbsorbedNew(r, s, c);
    }
  }

  lemma MergeAbsorbedNew(r: Merged, s: Channel, c: Channel)
    requires Valid(r) && WellFormed(s) && WellFormed(c) && s.paId == c.paId && s.paId.value !in r.byId
    ensures MergeChannel(r, Absorb(s, c)) == MergeAfter(MergeChannel(r, s), c)
  {
    var id := s.paId.value;
    var a := Absorb(s, c);
    var r1 := Merged(r.ids + [id], r.byId[id := s]);
    assert MergeChannel(r, s) == Success(r1);
    assert MergeChannel(r, a) == Success(Merged(r.ids + [id], r.byId[id := a]));
    assert r1.byId[id] == s && FirstKeyError(s.schedules.value).None? && FirstKeyError(c.schedules.value).None?;
    assert MergeChannel(r1, c) == Success(r1.(byId := r1.byId[id := a]));
    assert r1.byId[id := a] == r.byId[id := a];
  }

  lemma MergeAbsorbedKnown(r: Merged, s: Channel, c: Channel)
    requires Valid(r) && WellFormed(s) && WellFormed(c) && s.paId == c.paId && s.paId.value in r.byId
    ensures MergeChannel(r, Absorb(s, c)) == MergeAfter(MergeChannel(r, s), c)
  {
    var id := s.paId.value;
    var t := r.byId[id];
    if t.schedules.Some? && FirstKeyError(t.schedules.value).None? {
      var ts, a, b := t.schedules.value, s.schedules.value, c.schedules.value;
      AbsentOfAbsorbed(ts, a, b);
      var ab := Absorb(s, c);
      assert ab.schedules.value == a + Absent(b, Keys(a));
      assert FirstKeyError(ab.schedules.value).None?;
      var t1 := Absorb(t, s);
      var r1 := r.(byId := r.byId[id := t1]);
      assert MergeChannel(r, s) == Success(r1);
      assert MergeChannel(r, ab) == Success(r.(byId := r.byId[id := Absorb(t, ab)]));
      assert r1.byId[id] == t1 && FirstKeyError(t1.schedules.value).None?;
      assert MergeChannel(r1, c) == Success(r1.(byId := r1.byId[id := Absorb(t1, c)]));
      assert Absorb(t1, c) == Absorb(t, ab);
      assert r1.byId[id := Absorb(t1, c)] == r.byId[id := Absorb(t, ab)];
    }
  }

  /** Merging two channels with different ids in either order gives the same result. */
  lemma MergeCommutes(r: Merged, c: Channel, y: Channel)
    requires Valid(r) && WellFormed(c) && StoredKeyed(r, c.paId.value) && y.paId != c.paId
    ensures MergeChannel(r, c).Success?
    ensures MergeAfter(MergeChannel(r, c), y) == MergeAfter(MergeChannel(r, y), c)
  {
    var x := c.paId.value;
    var t := Absorb(r.byId[x], c);
    var r1 := r.(byId := r.byId[x := t]);
    assert MergeChannel(r, c) == Success(r1);
    if y.paId.Some? {
      var z := y.paId.value;
      assert z != x;
      if z !in r.byId {
        assert r1.byId[z := y] == r.byId[z := y][x := t];
      } else if y.schedules.Some? && r.byId[z].schedules.Some?
             && FirstKeyError(r.byId[z].schedules.value).None? && FirstKeyError(y.schedules.value).None? {
        var u := Absorb(r.byId[z], y);
        assert r1.byId[z := u] == r.byId[z := u][x := t];
      }
    }
  }

  lemma MergeChannelKeepsKeyed(m: Merged, y: Channel, id: string)
    requires Valid(m) && MergeChannel(m, y).Success?
    requires StoredKeyed(m, id) || (y.paId == Some(id) && WellFormed(y))
    ensures StoredKeyed(MergeChannel(m, y).value, id)
  {
    if y.paId == Some(id) && id in m.byId {
      var stored := m.byId[id];
      AllKeyedAppend(stored.schedules.value, Absent(y.schedules.value, Keys(stored.schedules.value)));
    }
  }

  /** A well-formed channel of a successful batch leaves its id stored with keyed schedules. */
  lemma {:induction false} MergeBatchKeepsKeyed(m: Merged, batch: seq<Channel>, j: nat)
    requires Valid(m) && j < |batch| && WellFormed(batch[j]) && MergeBatch(m, batch).Success?
    ensures StoredKeyed(MergeBatch(m, batch).value, batch[j].paId.value)
  {
    var init, last := batch[..|batch| - 1], batch[|batch| - 1];
    MergeBatchLast(m, batch);
    if j < |batch| - 1 {
      assert init[j] == batch[j];
      MergeBatchKeepsKeyed(m, init, j);
    }
    MergeChannelKeepsKeyed(MergeBatch(m, init).value, last, batch[j].paId.value);
  }

  /**
   * Absorbing `c` beforehand into the one channel of the batch that has its
   * id is merging `c` after the whole batch.
   */
  lemma {:induction false} MergeAbsorbedInBatch(m: Merged, batch: seq<Channel>, j: nat, c: Channel)
    requires Valid(m) && j < |batch| && WellFormed(batch[j]) && WellFormed(c) && batch[j].paId == c.paId
    requires forall i :: 0 <= i < |batch| && i != j ==> batch[i].paId != c.paId
    ensures MergeBatch(m, batch[j := Absorb(batch[j], c)]) == MergeAfter(MergeBatch(m, batch), c)
    decreases |batch|
  {
    var n := |batch|;
    var init, last := batch[..n - 1], batch[n - 1];
    var a := Absorb(batch[j], c);
    var swapped := batch[j := a];
    assert batch == init + [last];
    MergeBatchSnoc(m, init, last);
    if j == n - 1 {
      assert swapped == init + [a];
      MergeBatchSnoc(m, init, a);
      if MergeBatch(m, init).Success? {
        MergeAbsorbed(MergeBatch(m, init).value, last, c);
      }
    } else {
      assert swapped == init[j := a] + [last];
      assert init[j] == batch[j];
      assert forall i :: 0 <= i < |init| && i != j ==> init[i] == batch[i];
      MergeAbsorbedInBatch(m, init, j, c);
      MergeBatchSnoc(m, init[j := a], last);
      if MergeBatch(m, init).Success? {
        var p := MergeBatch(m, init).value;
        MergeBatchKeepsKeyed(m, init, j);
        MergeCommutes(p, c, last);
      }
    }
  }

  /** The values of `d` after one more channel is merged into it. */
  lemma MergeValuesStep(m: Merged, d: Merged, c: Channel)
    requires Valid(m) && Valid(d) && IdsMatch(d) && MergeChannel(d, c).Success?
    ensures MergeBatch(m, Values(MergeChannel(d, c).value)) == MergeAfter(MergeBatch(m, Values(d)), c)
  {
    var x := c.paId.value;
    var v := Values(d);
    if x !in d.byId {
      ValuesOfAdded(d, x, c);
      MergeBatchSnoc(m, v, c);
    } else {
      var j := FirstIndex(d.ids, x);
      var stored := d.byId[x];
      assert WellFormed(stored) && WellFormed(c);
      ValuesOfReplaced(d, x, Absorb(stored, c));
      MergeAbsorbedInBatch(m, v, j, c);
    }
  }

  lemma ValuesOfAdded(d: Merged, x: string, c: Channel)
    requires Valid(d) && x !in d.byId
    ensures Valid(Merged(d.ids + [x], d.byId[x := c]))
    ensures Values(Merged(d.ids + [x], d.byId[x := c])) == Values(d) + [c]
  {
    var d' := Merged(d.ids + [x], d.byId[x := c]);
    assert forall i :: 0 <= i < |d.ids| ==> d.ids[i] != x;
  }

  lemma ValuesOfReplaced(d: Merged, x: string, t: Channel)
    requires Valid(d) && x in d.byId
    ensures x in d.ids && Valid(d.(byId := d.byId[x := t]))
    ensures Values(d.(byId := d.byId[x := t])) == Values(d)[FirstIndex(d.ids, x) := t]
  {
    var j := FirstIndex(d.ids, x);
    var d' := d.(byId := d.byId[x := t]);
    assert Valid(d');
    var l, r := Values(d'), Values(d)[j := t];
    forall i | 0 <= i < |d.ids| ensures l[i] == r[i] {
      if i != j {
        assert d.ids[i] != d.ids[j];
      }
    }
  }

  /**
   * Merging the channel list of an earlier merge is merging the pages that
   * went into it: a day's merged hours merged into the range are every hour's
   * page merged into the range.
   */
  lemma {:induction false} MergeOfMerged(m: Merged, batch: seq<Channel>)
    requires Valid(m) && MergeBatch(Empty, batch).Success?
    ensures MergeBatch(m, Values(MergeBatch(Empty, batch).value)) == MergeBatch(m, batch)
  {
    if batch == [] {
      assert Values(Empty) == [];
    } else {
      var init, c := batch[..|batch| - 1], batch[|batch| - 1];
      MergeBatchLast(Empty, batch);
      MergeOfMerged(m, init);
      MergeBatchIdsMatch(Empty, init);
      MergeValuesStep(m, MergeBatch(Empty, init).value, c);
      MergeBatchUnfold(m, batch);
    }
  }

  /**
   * Merging `b`'s merged result into `a`'s is merging `a` and then `b`, page
   * by page: splitting a range into two fetches does not change the result.
   */
  lemma MergeSplit(a: seq<Channel>, b: seq<Channel>)
    requires MergeBatch(Empty, a).Success? && MergeBatch(Empty, b).Success?
    ensures MergeBatch(MergeBatch(Empty, a).value, Values(MergeBatch(Empty, b).value)) == MergeBatch(Empty, a + b)
  {
    MergeOfMerged(MergeBatch(Empty, a).value, b);
    MergeBatchAppend(Empty, a, b);
  }
}
