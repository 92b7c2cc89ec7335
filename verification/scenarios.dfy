/** Worked examples: the hashtag case-folding example and the end-to-end example of a small
    export, derived from the contracts of the aggregates rather than by unfolding them. */
module Scenarios {
  import opened Results
  import opened Timestamps
  import opened Multiplicity
  import opened Digests
  import opened Text
  import opened Pii
  import opened Unrefined
  import opened Refined
  import opened Transformer
  import opened ProofGenerator
  import Hashtags
  import Activity

  /** When every use has the same hash, the aggregate is a single record counting them all. */
  lemma OneHashOneRecord(userId: string, uses: seq<Hashtags.TagUse>, k: string)
    requires uses != []
    requires forall i :: 0 <= i < |uses| ==> uses[i].hash == k
    ensures var r := Hashtags.CreateHashtagUsage(userId, uses);
      |r| == 1 && r[0].HashtagUsage? && r[0].hashtagHash == k && r[0].usageCount == |uses|
  {
    var r := Hashtags.CreateHashtagUsage(userId, uses);
    var hs := Hashtags.Hashes(uses);
    assert hs[0] == k;
    forall x ensures x in Hashtags.UsageHashes(r) <==> x == k {
      assert x in hs <==> x == k;
    }
    DistinctOnly(Hashtags.UsageHashes(r), k);
    CountAll(hs, k);
  }

  /** Two uses of one hash on two dates make one record spanning exactly those dates. */
  lemma TwoUsesSpan(userId: string, k: string, t1: Timestamp, t2: Timestamp)
    requires Before(t1, t2)
    ensures var r := Hashtags.CreateHashtagUsage(userId, [Hashtags.TagUse(k, t1), Hashtags.TagUse(k, t2)]);
      && |r| == 1 && r[0].usageCount == 2 && r[0].hashtagHash == k
      && r[0].firstUsed == t1 && r[0].lastUsed == t2
  {
    var uses := [Hashtags.TagUse(k, t1), Hashtags.TagUse(k, t2)];
    OneHashOneRecord(userId, uses, k);
    var r := Hashtags.CreateHashtagUsage(userId, uses);
    var w :| 0 <= w < |uses| && uses[w] == Hashtags.TagUse(k, r[0].firstUsed);
    var z :| 0 <= z < |uses| && uses[z] == Hashtags.TagUse(k, r[0].lastUsed);
    assert !Before(uses[0].date, r[0].firstUsed) && !Before(r[0].lastUsed, uses[1].date);
  }

  /** `#Sun` on one post and `#sun` on another fold to the same hash: one record, used twice,
      spanning the two posts' dates. */
  lemma SunAndSun(o: Oracles, userId: string, p1: InstagramPost, p2: InstagramPost, t1: Timestamp, t2: Timestamp)
    requires p1.hashtags == ["Sun"] && p2.hashtags == ["sun"]
    requires Before(t1, t2)
    ensures var r := Hashtags.CreateHashtagUsage(userId, TagUses(o, [p1, p2], [t1, t2]));
      && |r| == 1 && r[0].usageCount == 2 && r[0].hashtagHash == TagKey(o, "sun")
      && r[0].firstUsed == t1 && r[0].lastUsed == t2
  {
    var k := TagKey(o, "sun");
    assert Lower("Sun") == Lower("sun") by {
      assert LowerChar('S') == 's';
    }
    var u1 := PostTagUses(o, p1, t1);
    var u2 := PostTagUses(o, p2, t2);
    assert u1 == [Hashtags.TagUse(k, t1)];
    assert u2 == [Hashtags.TagUse(k, t2)];
    assert [p1, p2][1..] == [p2] && [t1, t2][1..] == [t2];
    assert TagUses(o, [p2], [t2]) == u2 + TagUses(o, [], []);
    assert TagUses(o, [p1, p2], [t1, t2]) == [Hashtags.TagUse(k, t1), Hashtags.TagUse(k, t2)];
    TwoUsesSpan(userId, k, t1, t2);
  }

  /** A single post and no other activity: one pattern, for the post's hour and weekday,
      counting that post and nothing else. */
  lemma OnePostOneBucket(userId: string, t: Timestamp)
    ensures Activity.CreateActivityPatterns(userId, Activity.Stamps([t], [], [], []))
         == [ActivityPattern(userId, Hour(t), Weekday(t), 1, 0, 0, 0)]
  {
    var s := Activity.Stamps([t], [], [], []);
    var r := Activity.CreateActivityPatterns(userId, s);
    var b := Activity.BucketOf(t);
    assert Activity.Buckets([t]) == [b];
    forall c ensures c in Activity.PatternBuckets(r) <==> c == b {
      assert Activity.Active(s, c) <==> c == b;
    }
    DistinctOnly(Activity.PatternBuckets(r), b);
    assert Activity.PatternBuckets(r)[0] == b;
    assert Count([b], b) == 1;
    assert Activity.Buckets(s.Of(Activity.PostKind)) == [b];
    assert Activity.Buckets(s.Of(Activity.StoryKind)) == [];
    assert Activity.Buckets(s.Of(Activity.CommentKind)) == [];
    assert Activity.Buckets(s.Of(Activity.DmKind)) == [];
    assert Activity.KindCount(r[0], Activity.PostKind) == 1;
    assert Activity.KindCount(r[0], Activity.StoryKind) == 0;
    assert Activity.KindCount(r[0], Activity.CommentKind) == 0;
    assert Activity.KindCount(r[0], Activity.DmKind) == 0;
  }

  /** The small export of the end-to-end example: account u1 with 100 followers, not verified,
      one post with 5 likes, 5 comments, no media and the hashtags `a` and `A`, nothing else,
      and an export timestamp. */
  predicate SmallExport(d: InstagramData) {
    && d.userId == "u1" && d.profile.followerCount == 100 && !d.profile.isVerified
    && |d.posts| == 1 && d.posts[0].likeCount == 5 && d.posts[0].commentCount == 5
    && d.posts[0].media == [] && d.posts[0].hashtags == ["a", "A"]
    && d.stories == [] && d.comments == [] && d.directMessages == [] && d.engagementMetrics == []
    && d.dataExportTimestamp != []
  }

  /** Its attestation: profile, posts, post-count consistency and export timestamp make up the
      score, and posts without stories are classified as scraped. */
  lemma SmallExportProof(d: InstagramData)
    requires SmallExport(d)
    ensures ConfidenceScore(d) == 0.2 + 0.2 + Consistency(d.profile.postCount, 1) + 0.1
    ensures DetermineMethod(d).Label() == "api_scraping"
  {
  }

  /** The empty sections of the small export drop out of its output. */
  lemma SmallExportShape(o: Oracles, d: InstagramData, dates: Dates)
    requires SmallExport(d) && Fits(d, dates)
    ensures TransformData(o, d, dates)
         == [CreateUserProfile(o, d, dates.exportDate), PostRecord(d, d.posts[0], dates.posts[0])]
            + Hashtags.CreateHashtagUsage("u1", TagUses(o, d.posts, dates.posts))
            + [ActivityPattern("u1", Hour(dates.posts[0]), Weekday(dates.posts[0]), 1, 0, 0, 0)]
  {
    var t := dates.posts[0];
    assert d.posts[1..] == [] && dates.posts[1..] == [];
    var profile := CreateUserProfile(o, d, dates.exportDate);
    var posts := CreatePosts(d, d.posts, dates.posts);
    assert posts == [PostRecord(d, d.posts[0], t)];
    var stories := CreateStories(d, dates.stories);
    var comments := CreateComments(o, d, dates.comments);
    var messages := CreateDirectMessages(o, d, dates.dms);
    var metrics := CreateEngagementMetrics(d, dates.metrics);
    assert stories == [] && comments == [] && messages == [] && metrics == [];
    var tags := Hashtags.CreateHashtagUsage("u1", TagUses(o, d.posts, dates.posts));
    var activity := Activity.CreateActivityPatterns("u1", ActivityStamps(dates));
    assert ActivityStamps(dates) == Activity.Stamps([t], [], [], []);
    OnePostOneBucket("u1", t);
    assert TransformData(o, d, dates) == [profile] + posts + stories + comments + messages + metrics + tags + activity;
  }

  /** Its records: the profile, the post with engagement rate 10.0, one hashtag record used
      twice, and one activity pattern for the post's hour and weekday. */
  lemma SmallExportRecords(o: Oracles, d: InstagramData, dates: Dates)
    requires SmallExport(d) && Fits(d, dates)
    ensures var r := TransformData(o, d, dates);
      && |r| == 4
      && r[0].UserProfile? && r[0].userId == "u1"
      && r[1].Post? && r[1].engagementRate == 10.0 && r[1].hashtagCount == 2 && r[1].mediaCount == 0
      && r[2].HashtagUsage? && r[2].hashtagHash == TagKey(o, "a") && r[2].usageCount == 2
      && r[3] == ActivityPattern("u1", Hour(dates.posts[0]), Weekday(dates.posts[0]), 1, 0, 0, 0)
  {
    var p := d.posts[0];
    var t := dates.posts[0];
    var k := TagKey(o, "a");
    assert Lower("A") == Lower("a") by {
      assert LowerChar('A') == 'a';
    }
    PostRecordFields(d, p, t);
    var uses := TagUses(o, d.posts, dates.posts);
    assert uses == PostTagUses(o, p, t) + TagUses(o, [], []) by {
      assert d.posts[1..] == [] && dates.posts[1..] == [];
    }
    assert uses == [Hashtags.TagUse(k, t), Hashtags.TagUse(k, t)];
    OneHashOneRecord("u1", uses, k);
    SmallExportShape(o, d, dates);
  }
}
