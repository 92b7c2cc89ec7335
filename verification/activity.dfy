/** The activity-pattern aggregate: every post, story, comment and direct message is placed
    in the (hour of day, day of week) bucket of its timestamp, and each bucket that received
    anything becomes one record counting the four kinds of activity separately. */
module Activity {
  import opened Timestamps
  import opened Multiplicity
  import opened Refined

  datatype Kind = PostKind | StoryKind | CommentKind | DmKind

  /** The dictionary key of the source: the pair (hour, weekday). */
  datatype Bucket = Bucket(hour: int, day: int)

  function BucketOf(ts: Timestamp): (b: Bucket)
    ensures 0 <= b.hour < 24 && 0 <= b.day < 7
  {
    Bucket(Hour(ts), Weekday(ts))
  }

  function Buckets(ts: seq<Timestamp>): (bs: seq<Bucket>)
    ensures |bs| == |ts| && forall i :: 0 <= i < |ts| ==> bs[i] == BucketOf(ts[i])
  {
    seq(|ts|, i requires 0 <= i < |ts| => BucketOf(ts[i]))
  }

  /** The parsed timestamps of the four kinds of activity, each list in input order. */
  datatype Stamps = Stamps(posts: seq<Timestamp>, stories: seq<Timestamp>, comments: seq<Timestamp>, dms: seq<Timestamp>) {
    function Of(k: Kind): seq<Timestamp> {
      match k
      case PostKind => posts
      case StoryKind => stories
      case CommentKind => comments
      case DmKind => dms
    }
  }

  /** The four counters of one bucket (the default value of the source's defaultdict is all zeros). */
  datatype Counts = Counts(posts: nat, stories: nat, comments: nat, dms: nat) {
    function Of(k: Kind): nat {
      match k
      case PostKind => posts
      case StoryKind => stories
      case CommentKind => comments
      case DmKind => dms
    }

    function Total(): nat {
      posts + stories + comments + dms
    }

    /** `counts[kind] += 1`: that counter goes up by one and no other changes. */
    function Bump(k: Kind): (c: Counts)
      ensures c.Of(k) == Of(k) + 1
      ensures forall k' :: k' != k ==> c.Of(k') == Of(k')
      ensures c.Total() == Total() + 1
    {
      match k
      case PostKind => this.(posts := posts + 1)
      case StoryKind => this.(stories := stories + 1)
      case CommentKind => this.(comments := comments + 1)
      case DmKind => this.(dms := dms + 1)
    }
  }

  /** The defaultdict, with the insertion order Python's dict keeps. */
  datatype Table = Table(order: seq<Bucket>, counts: map<Bucket, Counts>)

  const EmptyTable: Table := Table([], map[])

  /** The counter of kind k in bucket b; a bucket never touched reads as zero. */
  function Get(t: Table, b: Bucket, k: Kind): nat {
    if b in t.counts then t.counts[b].Of(k) else 0
  }

  /** One listing per bucket, in insertion order, and no bucket holds only zeros. */
  ghost predicate WellFormed(t: Table) {
    && Distinct(t.order)
    && (forall b :: b in t.counts <==> b in t.order)
    && (forall b :: b in t.counts ==> t.counts[b].Total() > 0)
  }

  /** The counters of a bucket on its first touch: the defaultdict's all-zero default with
      counter k bumped once. */
  function FirstTouch(k: Kind): (c: Counts)
    ensures c.Of(k) == 1
    ensures forall k' :: k' != k ==> c.Of(k') == 0
    ensures c.Total() == 1
  {
    match k
    case PostKind => Counts(1, 0, 0, 0)
    case StoryKind => Counts(0, 1, 0, 0)
    case CommentKind => Counts(0, 0, 1, 0)
    case DmKind => Counts(0, 0, 0, 1)
  }

  /** One iteration of a counting loop: the first touch of a bucket inserts it. */
  function Add(t: Table, k: Kind, b: Bucket): Table {
    if b in t.counts then Table(t.order, t.counts[b := t.counts[b].Bump(k)])
    else Table(t.order + [b], t.counts[b := FirstTouch(k)])
  }

  /** One of the four counting loops, over the buckets of one kind, in order. */
  function AddAll(t: Table, k: Kind, bs: seq<Bucket>): Table
    decreases |bs|
  {
    if bs == [] then t else AddAll(Add(t, k, bs[0]), k, bs[1..])
  }

  /** The four loops of the source, one after another: posts, stories, comments, messages. */
  function Group(s: Stamps): Table {
    var t1 := AddAll(EmptyTable, PostKind, Buckets(s.posts));
    var t2 := AddAll(t1, StoryKind, Buckets(s.stories));
    var t3 := AddAll(t2, CommentKind, Buckets(s.comments));
    AddAll(t3, DmKind, Buckets(s.dms))
  }

  /** Some activity of some kind fell in bucket b. */
  predicate Active(s: Stamps, b: Bucket) {
    b in Buckets(s.posts) || b in Buckets(s.stories) || b in Buckets(s.comments) || b in Buckets(s.dms)
  }

  lemma AddListed(t: Table, k: Kind, b: Bucket)
    requires WellFormed(t)
    ensures Distinct(Add(t, k, b).order)
    ensures forall c :: c in Add(t, k, b).counts <==> c in Add(t, k, b).order
  {
    if b !in t.counts {
      var o := t.order + [b];
      forall i, j | 0 <= i < j < |o| ensures o[i] != o[j] {
        if j == |t.order| {
          assert o[i] == t.order[i];
        } else {
          assert o[i] == t.order[i] && o[j] == t.order[j];
        }
      }
      forall c ensures c in o <==> c in t.order || c == b {
        assert c in o <==> c in t.order || c == b;
      }
    }
  }

  lemma AddPositive(t: Table, k: Kind, b: Bucket)
    requires WellFormed(t)
    ensures forall c :: c in Add(t, k, b).counts ==> Add(t, k, b).counts[c].Total() > 0
  {
    var after := if b in t.counts then t.counts[b].Bump(k) else FirstTouch(k);
    var m := Add(t, k, b).counts;
    assert m == t.counts[b := after];
    forall c | c in m ensures m[c].Total() > 0 {
      if c == b {
        assert m[c] == after;
      } else {
        assert m[c] == t.counts[c];
      }
    }
  }

  lemma AddKeys(t: Table, k: Kind, b: Bucket)
    ensures forall c :: c in Add(t, k, b).counts <==> c in t.counts || c == b
  {
  }

  lemma AddGet(t: Table, k: Kind, b: Bucket)
    ensures forall c, k' :: Get(Add(t, k, b), c, k') == Get(t, c, k') + (if c == b && k' == k then 1 else 0)
  {
    var t' := Add(t, k, b);
    forall c, k' ensures Get(t', c, k') == Get(t, c, k') + (if c == b && k' == k then 1 else 0) {
      if c != b {
        assert Get(t', c, k') == Get(t, c, k');
      } else {
        if b in t.counts {
          assert t'.counts[b] == t.counts[b].Bump(k);
        } else {
          assert t'.counts[b] == FirstTouch(k);
        }
      }
    }
  }

  lemma AddSpec(t: Table, k: Kind, b: Bucket)
    requires WellFormed(t)
    ensures WellFormed(Add(t, k, b))
    ensures forall c :: c in Add(t, k, b).counts <==> c in t.counts || c == b
  {
    AddListed(t, k, b);
    AddPositive(t, k, b);
    AddKeys(t, k, b);
  }

  lemma {:induction false} AddAllSpec(t: Table, k: Kind, bs: seq<Bucket>)
    requires WellFormed(t)
    ensures WellFormed(AddAll(t, k, bs))
    ensures forall c :: c in AddAll(t, k, bs).counts <==> c in t.counts || c in bs
    decreases |bs|
  {
    if bs != [] {
      var t1 := Add(t, k, bs[0]);
      AddSpec(t, k, bs[0]);
      AddAllSpec(t1, k, bs[1..]);
      assert bs == [bs[0]] + bs[1..];
      forall c ensures c in bs <==> c == bs[0] || c in bs[1..] {
      }
    }
  }

  lemma GroupKeys(s: Stamps)
    ensures WellFormed(Group(s))
    ensures forall c :: c in Group(s).counts <==> Active(s, c)
  {
    var t1 := AddAll(EmptyTable, PostKind, Buckets(s.posts));
    var t2 := AddAll(t1, StoryKind, Buckets(s.stories));
    var t3 := AddAll(t2, CommentKind, Buckets(s.comments));
    AddAllSpec(EmptyTable, PostKind, Buckets(s.posts));
    AddAllSpec(t1, StoryKind, Buckets(s.stories));
    AddAllSpec(t2, CommentKind, Buckets(s.comments));
    AddAllSpec(t3, DmKind, Buckets(s.dms));
  }

  /** One counting loop adds, to the counter of its own kind in each bucket, the number of
      its buckets equal to that bucket, and leaves every other counter alone. */
  lemma {:induction false} AddAllGet(t: Table, k: Kind, bs: seq<Bucket>, c: Bucket, k': Kind)
    ensures Get(AddAll(t, k, bs), c, k') == Get(t, c, k') + (if k' == k then Count(bs, c) else 0)
    decreases |bs|
  {
    if bs != [] {
      AddGet(t, k, bs[0]);
      AddAllGet(Add(t, k, bs[0]), k, bs[1..], c, k');
    }
  }

  lemma GroupCounts(s: Stamps)
    ensures forall c, k :: Get(Group(s), c, k) == Count(Buckets(s.Of(k)), c)
  {
    forall c, k ensures Get(Group(s), c, k) == Count(Buckets(s.Of(k)), c) {
      var t1 := AddAll(EmptyTable, PostKind, Buckets(s.posts));
      var t2 := AddAll(t1, StoryKind, Buckets(s.stories));
      var t3 := AddAll(t2, CommentKind, Buckets(s.comments));
      AddAllGet(EmptyTable, PostKind, Buckets(s.posts), c, k);
      AddAllGet(t1, StoryKind, Buckets(s.stories), c, k);
      AddAllGet(t2, CommentKind, Buckets(s.comments), c, k);
      AddAllGet(t3, DmKind, Buckets(s.dms), c, k);
      assert Get(EmptyTable, c, k) == 0;
      match k
      case PostKind =>
      case StoryKind =>
      case CommentKind =>
      case DmKind =>
    }
  }

  /** After the four loops, each counter is the number of activities of its kind in its bucket,
      and the buckets present are exactly the active ones. */
  lemma GroupSpec(s: Stamps)
    ensures WellFormed(Group(s))
    ensures forall c, k :: Get(Group(s), c, k) == Count(Buckets(s.Of(k)), c)
    ensures forall c :: c in Group(s).counts <==> Active(s, c)
  {
    GroupKeys(s);
    GroupCounts(s);
  }

  function PatternRecord(userId: string, b: Bucket, c: Counts): Record {
    ActivityPattern(userId, b.hour, b.day, c.posts, c.stories, c.comments, c.dms)
  }

  /** One record per bucket, in insertion order. */
  function PatternRecords(userId: string, t: Table): (r: seq<Record>)
    requires forall b :: b in t.order ==> b in t.counts
    ensures |r| == |t.order|
    ensures forall i :: 0 <= i < |r| ==> r[i] == PatternRecord(userId, t.order[i], t.counts[t.order[i]])
  {
    seq(|t.order|, i requires 0 <= i < |t.order| => PatternRecord(userId, t.order[i], t.counts[t.order[i]]))
  }

  /** The bucket each activity record stands for (other records map to an impossible bucket). */
  function PatternBuckets(r: seq<Record>): (bs: seq<Bucket>)
    ensures |bs| == |r|
    ensures forall i :: 0 <= i < |r| && r[i].ActivityPattern? ==> bs[i] == Bucket(r[i].hourOfDay, r[i].dayOfWeek)
  {
    seq(|r|, i requires 0 <= i < |r| => if r[i].ActivityPattern? then Bucket(r[i].hourOfDay, r[i].dayOfWeek) else Bucket(-1, -1))
  }

  /** The counter of kind k an activity record carries (zero for any other record). */
  function KindCount(rec: Record, k: Kind): int {
    if !rec.ActivityPattern? then 0
    else match k
      case PostKind => rec.postCount
      case StoryKind => rec.storyCount
      case CommentKind => rec.commentCount
      case DmKind => rec.dmCount
  }

  lemma ActiveInRange(s: Stamps, b: Bucket)
    requires Active(s, b)
    ensures 0 <= b.hour < 24 && 0 <= b.day < 7
  {
    var ts := if b in Buckets(s.posts) then s.posts
              else if b in Buckets(s.stories) then s.stories
              else if b in Buckets(s.comments) then s.comments
              else s.dms;
    var i :| 0 <= i < |Buckets(ts)| && Buckets(ts)[i] == b;
    assert b == BucketOf(ts[i]);
  }

  lemma PatternsInRange(userId: string, s: Stamps, t: Table)
    requires forall c :: c in t.counts <==> Active(s, c)
    requires forall c :: c in t.order ==> c in t.counts
    ensures var r := PatternRecords(userId, t);
      forall i :: 0 <= i < |r| ==> 0 <= r[i].hourOfDay < 24 && 0 <= r[i].dayOfWeek < 7
  {
    var r := PatternRecords(userId, t);
    forall i | 0 <= i < |r| ensures 0 <= r[i].hourOfDay < 24 && 0 <= r[i].dayOfWeek < 7 {
      ActiveInRange(s, t.order[i]);
    }
  }

  lemma PatternsCount(userId: string, s: Stamps, t: Table)
    requires forall c :: c in t.order ==> c in t.counts
    requires forall c, k :: Get(t, c, k) == Count(Buckets(s.Of(k)), c)
    ensures PatternBuckets(PatternRecords(userId, t)) == t.order
    ensures var r := PatternRecords(userId, t);
      forall i, k :: 0 <= i < |r| ==> KindCount(r[i], k) == Count(Buckets(s.Of(k)), PatternBuckets(r)[i])
  {
    var r := PatternRecords(userId, t);
    forall i, k | 0 <= i < |r| ensures KindCount(r[i], k) == Count(Buckets(s.Of(k)), PatternBuckets(r)[i]) {
      assert Get(t, t.order[i], k) == Count(Buckets(s.Of(k)), t.order[i]);
    }
  }

  /** `_create_activity_patterns`: one record per active (hour, weekday) bucket, in order of first
      activity; each counts the activities of each kind in its bucket; no bucket appears twice,
      every active bucket appears, and no record is all zeros. */
  function CreateActivityPatterns(userId: string, s: Stamps): (r: seq<Record>)
    ensures forall i :: 0 <= i < |r| ==> r[i].ActivityPattern? && r[i].userId == userId
    ensures forall i :: 0 <= i < |r| ==> 0 <= r[i].hourOfDay < 24 && 0 <= r[i].dayOfWeek < 7
    ensures Distinct(PatternBuckets(r))
    ensures forall b :: b in PatternBuckets(r) <==> Active(s, b)
    ensures forall i, k :: 0 <= i < |r| ==> KindCount(r[i], k) == Count(Buckets(s.Of(k)), PatternBuckets(r)[i])
    ensures forall i :: 0 <= i < |r| ==> r[i].postCount + r[i].storyCount + r[i].commentCount + r[i].dmCount > 0
  {
    GroupSpec(s);
    PatternsInRange(userId, s, Group(s));
    PatternsCount(userId, s, Group(s));
    PatternRecords(userId, Group(s))
  }

  /** The buckets of every activity in the order the four loops visit them: posts, stories,
      comments, then messages. */
  function AllBuckets(s: Stamps): seq<Bucket> {
    Buckets(s.posts) + Buckets(s.stories) + Buckets(s.comments) + Buckets(s.dms)
  }

  /** The table lists exactly the buckets seen, by first touch. */
  ghost predicate ListedByTouch(t: Table, seen: seq<Bucket>) {
    ListedByFirstIndex(t.order, seen) && forall c :: c in t.counts <==> c in seen
  }

  /** One loop iteration keeps the table listed by first touch among the buckets visited. */
  lemma AddOrdered(t: Table, k: Kind, b: Bucket, seen: seq<Bucket>)
    requires ListedByTouch(t, seen)
    ensures ListedByTouch(Add(t, k, b), seen + [b])
  {
    if b in t.counts {
      ListedByFirstIndexAppend(t.order, seen, b);
    } else {
      ListedByFirstIndexExtend(t.order, seen, b);
    }
  }

  lemma {:induction false} AddAllOrdered(t: Table, k: Kind, bs: seq<Bucket>, seen: seq<Bucket>)
    requires ListedByTouch(t, seen)
    ensures ListedByTouch(AddAll(t, k, bs), seen + bs)
    decreases |bs|
  {
    if bs == [] {
      assert seen + bs == seen;
    } else {
      AddOrdered(t, k, bs[0], seen);
      AddAllOrdered(Add(t, k, bs[0]), k, bs[1..], seen + [bs[0]]);
      assert seen + [bs[0]] + bs[1..] == seen + bs;
    }
  }

  lemma AfterStoriesOrdered(s: Stamps)
    ensures ListedByTouch(AddAll(AddAll(EmptyTable, PostKind, Buckets(s.posts)), StoryKind, Buckets(s.stories)),
                          Buckets(s.posts) + Buckets(s.stories))
  {
    var p := Buckets(s.posts);
    AddAllOrdered(EmptyTable, PostKind, p, []);
    assert [] + p == p;
    AddAllOrdered(AddAll(EmptyTable, PostKind, p), StoryKind, Buckets(s.stories), p);
  }

  lemma AfterCommentsOrdered(s: Stamps)
    ensures ListedByTouch(
              AddAll(AddAll(AddAll(EmptyTable, PostKind, Buckets(s.posts)), StoryKind, Buckets(s.stories)),
                     CommentKind, Buckets(s.comments)),
              Buckets(s.posts) + Buckets(s.stories) + Buckets(s.comments))
  {
    AfterStoriesOrdered(s);
    AddAllOrdered(AddAll(AddAll(EmptyTable, PostKind, Buckets(s.posts)), StoryKind, Buckets(s.stories)),
                  CommentKind, Buckets(s.comments), Buckets(s.posts) + Buckets(s.stories));
  }

  /** After the four loops the table lists its buckets by first touch. */
  lemma GroupOrdered(s: Stamps)
    ensures ListedByFirstIndex(Group(s).order, AllBuckets(s))
  {
    var t3 := AddAll(AddAll(AddAll(EmptyTable, PostKind, Buckets(s.posts)), StoryKind, Buckets(s.stories)),
                     CommentKind, Buckets(s.comments));
    AfterCommentsOrdered(s);
    AddAllOrdered(t3, DmKind, Buckets(s.dms), Buckets(s.posts) + Buckets(s.stories) + Buckets(s.comments));
    assert Group(s) == AddAll(t3, DmKind, Buckets(s.dms));
  }

  /** The records come in the order in which their buckets are first touched, over posts,
      then stories, comments and messages, as a dictionary iterates in insertion order. */
  lemma PatternsInFirstActivityOrder(userId: string, s: Stamps)
    ensures ListedByFirstIndex(PatternBuckets(CreateActivityPatterns(userId, s)), AllBuckets(s))
  {
    GroupOrdered(s);
    var t := Group(s);
    GroupSpec(s);
    assert CreateActivityPatterns(userId, s) == PatternRecords(userId, t);
    PatternsCount(userId, s, t);
  }

  /** Sum over the records of the counter of kind k. */
  function KindTotal(r: seq<Record>, k: Kind): int {
    if r == [] then 0 else KindCount(r[0], k) + KindTotal(r[1..], k)
  }

  lemma {:induction false} KindTotalIsSumCounts(r: seq<Record>, k: Kind, keys: seq<Bucket>, xs: seq<Bucket>)
    requires |r| == |keys|
    requires forall i :: 0 <= i < |r| ==> KindCount(r[i], k) == Count(xs, keys[i])
    ensures KindTotal(r, k) == SumCounts(keys, xs)
  {
    if r != [] {
      KindTotalIsSumCounts(r[1..], k, keys[1..], xs);
    }
  }

  /** Conservation: for each kind, the counters over all records add up to the number of
      activities of that kind, so nothing is dropped or counted twice. */
  lemma ActivityConserved(userId: string, s: Stamps, k: Kind)
    ensures KindTotal(CreateActivityPatterns(userId, s), k) == |s.Of(k)|
  {
    var r := CreateActivityPatterns(userId, s);
    var keys := PatternBuckets(r);
    var xs := Buckets(s.Of(k));
    KindTotalIsSumCounts(r, k, keys, xs);
    forall i | 0 <= i < |xs| ensures xs[i] in keys {
      assert Active(s, xs[i]) by {
        match k
        case PostKind =>
        case StoryKind =>
        case CommentKind =>
        case DmKind =>
      }
    }
    SumCountsCovers(keys, xs);
  }
}
