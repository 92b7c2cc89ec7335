/** The hashtag-usage aggregate: every hashtag occurrence (already case-folded and hashed)
    is grouped by its hash into an insertion-ordered table holding the number of uses and
    the earliest and latest date of a post that used it. */
module Hashtags {
  import opened Timestamps
  import opened Multiplicity
  import opened Refined

  /** One occurrence of a hashtag: its hash and the date of the post that carries it. */
  datatype TagUse = TagUse(hash: string, date: Timestamp)

  datatype TagStats = TagStats(count: nat, firstUsed: Timestamp, lastUsed: Timestamp)

  /** A dictionary that remembers insertion order, as Python's dict does. */
  datatype TagTable = TagTable(order: seq<string>, stats: map<string, TagStats>)

  const EmptyTable: TagTable := TagTable([], map[])

  function Hashes(us: seq<TagUse>): (hs: seq<string>)
    ensures |hs| == |us| && forall i :: 0 <= i < |us| ==> hs[i] == us[i].hash
  {
    seq(|us|, i requires 0 <= i < |us| => us[i].hash)
  }

  /** One iteration of the grouping loop: the first use of a hash creates its entry,
      later uses add one and widen the [first, last] range. */
  function Note(t: TagTable, u: TagUse): TagTable {
    if u.hash in t.stats then
      var s := t.stats[u.hash];
      var first := if Before(u.date, s.firstUsed) then u.date else s.firstUsed;
      var last := if Before(s.lastUsed, u.date) then u.date else s.lastUsed;
      TagTable(t.order, t.stats[u.hash := TagStats(s.count + 1, first, last)])
    else
      TagTable(t.order + [u.hash], t.stats[u.hash := TagStats(1, u.date, u.date)])
  }

  /** The grouping loop over the uses, in order. */
  function Tally(t: TagTable, us: seq<TagUse>): TagTable
    decreases |us|
  {
    if us == [] then t else Tally(Note(t, us[0]), us[1..])
  }

  /** Some use in `seen` has hash h and date d. */
  ghost predicate UsedOn(seen: seq<TagUse>, h: string, d: Timestamp) {
    exists i :: 0 <= i < |seen| && seen[i] == TagUse(h, d)
  }

  /** One entry per distinct hash, listed once each in insertion order. */
  ghost predicate KeysListed(t: TagTable) {
    && Distinct(t.order)
    && (forall h :: h in t.stats <==> h in t.order)
  }

  /** Each entry counts the uses of its hash. */
  ghost predicate CountsUses(t: TagTable, seen: seq<TagUse>) {
    forall h :: h in t.stats ==> t.stats[h].count == Count(Hashes(seen), h)
  }

  /** Each entry's first and last date is the date of a use of its hash. */
  ghost predicate DatesWitnessed(t: TagTable, seen: seq<TagUse>) {
    forall h :: h in t.stats ==> UsedOn(seen, h, t.stats[h].firstUsed) && UsedOn(seen, h, t.stats[h].lastUsed)
  }

  /** Every use has an entry whose [first, last] range contains the use's date. */
  ghost predicate DatesBounded(t: TagTable, seen: seq<TagUse>) {
    forall i :: 0 <= i < |seen| ==>
      && seen[i].hash in t.stats
      && !Before(seen[i].date, t.stats[seen[i].hash].firstUsed)
      && !Before(t.stats[seen[i].hash].lastUsed, seen[i].date)
  }

  /** The entries are listed in order of first use: every listed hash has been used, and a hash
      first used earlier is listed earlier. */
  ghost predicate FirstUseOrder(t: TagTable, seen: seq<TagUse>) {
    ListedByFirstIndex(t.order, Hashes(seen))
  }

  /** The table is exactly the grouping of the uses seen so far: one entry per distinct hash,
      listed in order of first use, holding its number of uses and the earliest and latest of
      their dates. */
  ghost predicate Summarizes(t: TagTable, seen: seq<TagUse>) {
    && KeysListed(t) && CountsUses(t, seen) && DatesWitnessed(t, seen) && DatesBounded(t, seen)
    && FirstUseOrder(t, seen)
  }

  lemma UsedOnExtends(seen: seq<TagUse>, u: TagUse, h: string, d: Timestamp)
    requires UsedOn(seen, h, d)
    ensures UsedOn(seen + [u], h, d)
  {
    var i :| 0 <= i < |seen| && seen[i] == TagUse(h, d);
    assert (seen + [u])[i] == seen[i];
  }

  lemma NoteKeys(t: TagTable, seen: seq<TagUse>, u: TagUse)
    requires KeysListed(t) && DatesBounded(t, seen) && CountsUses(t, seen)
    ensures KeysListed(Note(t, u))
  {
  }

  lemma NoteCounts(t: TagTable, seen: seq<TagUse>, u: TagUse)
    requires KeysListed(t) && DatesBounded(t, seen) && CountsUses(t, seen)
    ensures CountsUses(Note(t, u), seen + [u])
  {
    var t' := Note(t, u);
    assert Hashes(seen + [u]) == Hashes(seen) + [u.hash];
    forall h | h in t'.stats ensures t'.stats[h].count == Count(Hashes(seen + [u]), h) {
      CountAppend(Hashes(seen), [u.hash], h);
      if h == u.hash && u.hash !in t.stats {
        CountPositive(Hashes(seen), h);
        assert h !in Hashes(seen);
      }
    }
  }

  lemma NoteWitnessed(t: TagTable, seen: seq<TagUse>, u: TagUse)
    requires DatesWitnessed(t, seen)
    ensures DatesWitnessed(Note(t, u), seen + [u])
  {
    var seen' := seen + [u];
    assert seen'[|seen|] == u;
    assert UsedOn(seen', u.hash, u.date);
    forall h | h in t.stats
      ensures UsedOn(seen', h, t.stats[h].firstUsed) && UsedOn(seen', h, t.stats[h].lastUsed)
    {
      UsedOnExtends(seen, u, h, t.stats[h].firstUsed);
      UsedOnExtends(seen, u, h, t.stats[h].lastUsed);
    }
  }

  lemma NoteBounded(t: TagTable, seen: seq<TagUse>, u: TagUse)
    requires DatesBounded(t, seen)
    ensures DatesBounded(Note(t, u), seen + [u])
  {
    var t' := Note(t, u);
    var seen' := seen + [u];
    forall i | 0 <= i < |seen'|
      ensures && seen'[i].hash in t'.stats
              && !Before(seen'[i].date, t'.stats[seen'[i].hash].firstUsed)
              && !Before(t'.stats[seen'[i].hash].lastUsed, seen'[i].date)
    {
      if i < |seen| {
        assert seen'[i] == seen[i];
      }
    }
  }

  /** A hash missing from the table was never used. */
  lemma UnlistedUnused(t: TagTable, seen: seq<TagUse>, h: string)
    requires DatesBounded(t, seen) && h !in t.stats
    ensures h !in Hashes(seen)
  {
    var hs := Hashes(seen);
    forall w | 0 <= w < |seen| ensures hs[w] != h {
      assert seen[w].hash in t.stats;
    }
  }

  lemma NoteOrdered(t: TagTable, seen: seq<TagUse>, u: TagUse)
    requires KeysListed(t) && DatesBounded(t, seen) && FirstUseOrder(t, seen)
    ensures FirstUseOrder(Note(t, u), seen + [u])
  {
    assert Hashes(seen + [u]) == Hashes(seen) + [u.hash];
    if u.hash in t.stats {
      assert Note(t, u).order == t.order;
      ListedByFirstIndexAppend(t.order, Hashes(seen), u.hash);
    } else {
      assert Note(t, u).order == t.order + [u.hash];
      UnlistedUnused(t, seen, u.hash);
      ListedByFirstIndexExtend(t.order, Hashes(seen), u.hash);
    }
  }

  lemma NotePreserves(t: TagTable, seen: seq<TagUse>, u: TagUse)
    requires Summarizes(t, seen)
    ensures Summarizes(Note(t, u), seen + [u])
  {
    NoteOrdered(t, seen, u);
    NoteKeys(t, seen, u);
    NoteCounts(t, seen, u);
    NoteWitnessed(t, seen, u);
    NoteBounded(t, seen, u);
  }

  lemma PrefixGrows(all: seq<TagUse>, k: nat)
    requires k < |all|
    ensures all[..k] + [all[k]] == all[..k + 1]
  {
  }

  lemma {:induction false} TallySummarizes(t: TagTable, all: seq<TagUse>, k: nat)
    requires k <= |all|
    requires Summarizes(t, all[..k])
    ensures Summarizes(Tally(t, all[k..]), all)
    decreases |all| - k
  {
    if k == |all| {
      assert all[..k] == all;
      assert all[k..] == [];
    } else {
      NotePreserves(t, all[..k], all[k]);
      PrefixGrows(all, k);
      assert all[k..][1..] == all[k + 1..];
      TallySummarizes(Note(t, all[k]), all, k + 1);
    }
  }

  function UsageRecord(userId: string, h: string, s: TagStats): Record {
    HashtagUsage(userId, h, s.count, s.firstUsed, s.lastUsed)
  }

  /** One record per table entry, in insertion order. */
  function UsageRecords(userId: string, t: TagTable): (r: seq<Record>)
    requires KeysListed(t)
    ensures |r| == |t.order|
    ensures forall i :: 0 <= i < |r| ==> r[i] == UsageRecord(userId, t.order[i], t.stats[t.order[i]])
  {
    seq(|t.order|, i requires 0 <= i < |t.order| => UsageRecord(userId, t.order[i], t.stats[t.order[i]]))
  }

  lemma RecordsCount(userId: string, t: TagTable, uses: seq<TagUse>)
    requires Summarizes(t, uses)
    ensures var r := UsageRecords(userId, t);
      forall i :: 0 <= i < |r| ==> r[i].usageCount == Count(Hashes(uses), r[i].hashtagHash) >= 1
  {
    var r := UsageRecords(userId, t);
    forall i | 0 <= i < |r| ensures Count(Hashes(uses), r[i].hashtagHash) >= 1 {
      var h := t.order[i];
      assert UsedOn(uses, h, t.stats[h].firstUsed);
      var w :| 0 <= w < |uses| && uses[w] == TagUse(h, t.stats[h].firstUsed);
      assert Hashes(uses)[w] == h;
      CountPositive(Hashes(uses), h);
    }
  }

  lemma RecordsWitnessed(userId: string, t: TagTable, uses: seq<TagUse>)
    requires KeysListed(t) && DatesWitnessed(t, uses) && DatesBounded(t, uses)
    ensures var r := UsageRecords(userId, t);
      forall i :: 0 <= i < |r| ==>
        && UsedOn(uses, r[i].hashtagHash, r[i].firstUsed)
        && UsedOn(uses, r[i].hashtagHash, r[i].lastUsed)
        && !Before(r[i].lastUsed, r[i].firstUsed)
  {
    var r := UsageRecords(userId, t);
    forall i | 0 <= i < |r| ensures !Before(r[i].lastUsed, r[i].firstUsed) {
      var h := t.order[i];
      var w :| 0 <= w < |uses| && uses[w] == TagUse(h, t.stats[h].lastUsed);
      assert uses[w].hash == h;
    }
  }

  lemma RecordsBound(userId: string, t: TagTable, uses: seq<TagUse>)
    requires KeysListed(t) && DatesBounded(t, uses)
    ensures var r := UsageRecords(userId, t);
      forall i, j :: 0 <= i < |r| && 0 <= j < |uses| && uses[j].hash == r[i].hashtagHash ==>
        !Before(uses[j].date, r[i].firstUsed) && !Before(r[i].lastUsed, uses[j].date)
  {
  }

  /** The hashes the hashtag records carry, in order (other records contribute ""). */
  function UsageHashes(r: seq<Record>): (hs: seq<string>)
    ensures |hs| == |r| && forall i :: 0 <= i < |r| && r[i].HashtagUsage? ==> hs[i] == r[i].hashtagHash
  {
    seq(|r|, i requires 0 <= i < |r| => if r[i].HashtagUsage? then r[i].hashtagHash else "")
  }

  lemma RecordsCover(userId: string, t: TagTable, uses: seq<TagUse>)
    requires Summarizes(t, uses)
    ensures Distinct(UsageHashes(UsageRecords(userId, t)))
    ensures forall h :: h in UsageHashes(UsageRecords(userId, t)) <==> h in Hashes(uses)
  {
    var r := UsageRecords(userId, t);
    var hs := UsageHashes(r);
    assert hs == t.order;
    forall h | h in Hashes(uses) ensures h in t.order {
      var j :| 0 <= j < |uses| && Hashes(uses)[j] == h;
      assert uses[j].hash in t.stats;
    }
    forall h | h in t.order ensures h in Hashes(uses) {
      var w :| 0 <= w < |uses| && uses[w] == TagUse(h, t.stats[h].firstUsed);
      assert Hashes(uses)[w] == h;
    }
  }

  /** `_create_hashtag_usage`: group the uses and emit one record per distinct hash, in order
      of first use. Each record counts the uses of its hash and spans the dates of the posts
      that used it; every used hash gets a record, and no hash gets two. */
  function CreateHashtagUsage(userId: string, uses: seq<TagUse>): (r: seq<Record>)
    ensures forall i :: 0 <= i < |r| ==> r[i].HashtagUsage? && r[i].userId == userId
    ensures forall i :: 0 <= i < |r| ==> r[i].usageCount == Count(Hashes(uses), r[i].hashtagHash) >= 1
    ensures forall i :: 0 <= i < |r| ==>
              && UsedOn(uses, r[i].hashtagHash, r[i].firstUsed)
              && UsedOn(uses, r[i].hashtagHash, r[i].lastUsed)
              && !Before(r[i].lastUsed, r[i].firstUsed)
    ensures forall i, j :: 0 <= i < |r| && 0 <= j < |uses| && uses[j].hash == r[i].hashtagHash ==>
              !Before(uses[j].date, r[i].firstUsed) && !Before(r[i].lastUsed, uses[j].date)
    ensures Distinct(UsageHashes(r))
    ensures forall h :: h in UsageHashes(r) <==> h in Hashes(uses)
  {
    assert uses[..0] == [];
    TallySummarizes(EmptyTable, uses, 0);
    assert uses[0..] == uses;
    var t := Tally(EmptyTable, uses);
    RecordsCount(userId, t, uses);
    RecordsWitnessed(userId, t, uses);
    RecordsBound(userId, t, uses);
    RecordsCover(userId, t, uses);
    UsageRecords(userId, t)
  }

  /** The records come in order of first use: a hash used earlier gets an earlier record. */
  lemma UsageInFirstUseOrder(userId: string, uses: seq<TagUse>)
    ensures var r := CreateHashtagUsage(userId, uses);
      forall i, j :: 0 <= i < j < |r| ==>
        && r[i].hashtagHash in Hashes(uses) && r[j].hashtagHash in Hashes(uses)
        && FirstIndex(Hashes(uses), r[i].hashtagHash) < FirstIndex(Hashes(uses), r[j].hashtagHash)
  {
    assert uses[..0] == [];
    TallySummarizes(EmptyTable, uses, 0);
    assert uses[0..] == uses;
    var t := Tally(EmptyTable, uses);
    var r := CreateHashtagUsage(userId, uses);
    assert r == UsageRecords(userId, t);
    forall i | 0 <= i < |r| ensures r[i].hashtagHash == t.order[i] {
    }
  }

  /** Sum of the usage counts of the hashtag records. */
  function TotalUsage(r: seq<Record>): int {
    if r == [] then 0 else (if r[0].HashtagUsage? then r[0].usageCount else 0) + TotalUsage(r[1..])
  }

  lemma {:induction false} TotalUsageIsSumCounts(r: seq<Record>, keys: seq<string>, xs: seq<string>)
    requires |r| == |keys|
    requires forall i :: 0 <= i < |r| ==> r[i].HashtagUsage? && r[i].hashtagHash == keys[i]
                                          && r[i].usageCount == Count(xs, keys[i])
    ensures TotalUsage(r) == SumCounts(keys, xs)
  {
    if r != [] {
      TotalUsageIsSumCounts(r[1..], keys[1..], xs);
    }
  }

  /** Conservation: the usage counts add up to the number of hashtag occurrences. */
  lemma UsageConserved(userId: string, uses: seq<TagUse>)
    ensures TotalUsage(CreateHashtagUsage(userId, uses)) == |uses|
  {
    var r := CreateHashtagUsage(userId, uses);
    var keys := UsageHashes(r);
    TotalUsageIsSumCounts(r, keys, Hashes(uses));
    SumCountsCovers(keys, Hashes(uses));
  }
}
