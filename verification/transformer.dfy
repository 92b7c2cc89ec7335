/** The anonymising transformer: a validated export becomes the ordered list of analytic
    records, with every identifying text replaced by its hash or its length. */
module Transformer {
  import opened Results
  import opened Json
  import opened Timestamps
  import opened Multiplicity
  import opened Digests
  import opened Text
  import opened Pii
  import opened Unrefined
  import opened Refined
  import Hashtags
  import Activity

  // ---------------------------------------------------------------- failures and timestamps

  /** The two ways a transform can fail: the document does not validate, or one of its
      timestamps cannot be parsed. Either aborts the whole transform. */
  datatype TransformError = Invalid(violations: seq<Violation>) | MalformedTimestamp(text: string)

  /** Position of the first text the parser rejects, or |texts| when it accepts every one. */
  function FirstUnparsable(parse: Parser, texts: seq<string>): (i: nat)
    ensures i <= |texts|
    ensures forall j :: 0 <= j < i ==> parse(texts[j]).Some?
    ensures i < |texts| ==> parse(texts[i]).None?
    decreases |texts|
  {
    if texts == [] || parse(texts[0]).None? then 0 else 1 + FirstUnparsable(parse, texts[1..])
  }

  /** Parses the texts in order; the first rejected text aborts with its own error. */
  function ParseAll(parse: Parser, texts: seq<string>): (r: Result<seq<Timestamp>, TransformError>)
    ensures r.Success? <==> FirstUnparsable(parse, texts) == |texts|
    ensures r.Failure? ==> r.error == MalformedTimestamp(texts[FirstUnparsable(parse, texts)])
    ensures r.Success? ==> |r.value| == |texts|
    ensures r.Success? ==> forall i :: 0 <= i < |texts| ==> parse(texts[i]) == Some(r.value[i])
    decreases |texts|
  {
    if texts == [] then Success([])
    else match parse(texts[0])
      case None => Failure(MalformedTimestamp(texts[0]))
      case Some(t) =>
        var rest :- ParseAll(parse, texts[1..]);
        Success([t] + rest)
  }

  /** The timestamp text of each element of a collection, in order. */
  function TimesOf<T>(xs: seq<T>, time: T -> string): (r: seq<string>)
    ensures |r| == |xs| && forall i :: 0 <= i < |xs| ==> r[i] == time(xs[i])
  {
    seq(|xs|, i requires 0 <= i < |xs| => time(xs[i]))
  }

  /** Every timestamp text of the export, in the order the transform parses them: the export
      date first, then posts, stories, comments, messages and engagement snapshots. */
  function TimestampTexts(d: InstagramData): seq<string> {
    [d.dataExportTimestamp]
      + TimesOf(d.posts, (p: InstagramPost) => p.timestamp)
      + TimesOf(d.stories, (s: InstagramStory) => s.timestamp)
      + TimesOf(d.comments, (c: InstagramComment) => c.timestamp)
      + TimesOf(d.directMessages, (m: InstagramDM) => m.timestamp)
      + TimesOf(d.engagementMetrics, (e: InstagramEngagement) => e.date)
  }

  /** The parsed timestamps of an export, collection by collection. */
  datatype Dates = Dates(
    exportDate: Timestamp, posts: seq<Timestamp>, stories: seq<Timestamp>, comments: seq<Timestamp>,
    dms: seq<Timestamp>, metrics: seq<Timestamp>)

  /** One parsed timestamp per record of each collection. */
  predicate Fits(d: InstagramData, dates: Dates) {
    && |dates.posts| == |d.posts| && |dates.stories| == |d.stories| && |dates.comments| == |d.comments|
    && |dates.dms| == |d.directMessages| && |dates.metrics| == |d.engagementMetrics|
  }

  /** Each date is what the parser gives for the corresponding text. */
  ghost predicate ParsedFrom(parse: Parser, d: InstagramData, dates: Dates) {
    && Fits(d, dates)
    && parse(d.dataExportTimestamp) == Some(dates.exportDate)
    && (forall i :: 0 <= i < |d.posts| ==> parse(d.posts[i].timestamp) == Some(dates.posts[i]))
    && (forall i :: 0 <= i < |d.stories| ==> parse(d.stories[i].timestamp) == Some(dates.stories[i]))
    && (forall i :: 0 <= i < |d.comments| ==> parse(d.comments[i].timestamp) == Some(dates.comments[i]))
    && (forall i :: 0 <= i < |d.directMessages| ==> parse(d.directMessages[i].timestamp) == Some(dates.dms[i]))
    && (forall i :: 0 <= i < |d.engagementMetrics| ==> parse(d.engagementMetrics[i].date) == Some(dates.metrics[i]))
  }

  /** Cuts the parsed texts back into collections. */
  function Regroup(d: InstagramData, ts: seq<Timestamp>): (dates: Dates)
    requires |ts| == |TimestampTexts(d)|
    ensures Fits(d, dates)
  {
    var a := 1 + |d.posts|;
    var b := a + |d.stories|;
    var c := b + |d.comments|;
    var e := c + |d.directMessages|;
    Dates(ts[0], ts[1..a], ts[a..b], ts[b..c], ts[c..e], ts[e..])
  }

  lemma RegroupParsedFront(parse: Parser, d: InstagramData, ts: seq<Timestamp>)
    requires |ts| == |TimestampTexts(d)|
    requires forall i :: 0 <= i < |ts| ==> parse(TimestampTexts(d)[i]) == Some(ts[i])
    ensures var dates := Regroup(d, ts);
      && parse(d.dataExportTimestamp) == Some(dates.exportDate)
      && (forall i :: 0 <= i < |d.posts| ==> parse(d.posts[i].timestamp) == Some(dates.posts[i]))
      && (forall i :: 0 <= i < |d.stories| ==> parse(d.stories[i].timestamp) == Some(dates.stories[i]))
  {
    var texts := TimestampTexts(d);
    var dates := Regroup(d, ts);
    var a := 1 + |d.posts|;
    assert parse(texts[0]) == Some(ts[0]);
    forall i | 0 <= i < |d.posts| ensures parse(d.posts[i].timestamp) == Some(dates.posts[i]) {
      assert texts[1 + i] == d.posts[i].timestamp;
      assert parse(texts[1 + i]) == Some(ts[1 + i]);
    }
    forall i | 0 <= i < |d.stories| ensures parse(d.stories[i].timestamp) == Some(dates.stories[i]) {
      assert texts[a + i] == d.stories[i].timestamp;
      assert parse(texts[a + i]) == Some(ts[a + i]);
    }
  }

  lemma RegroupParsedBack(parse: Parser, d: InstagramData, ts: seq<Timestamp>)
    requires |ts| == |TimestampTexts(d)|
    requires forall i :: 0 <= i < |ts| ==> parse(TimestampTexts(d)[i]) == Some(ts[i])
    ensures var dates := Regroup(d, ts);
      && (forall i :: 0 <= i < |d.comments| ==> parse(d.comments[i].timestamp) == Some(dates.comments[i]))
      && (forall i :: 0 <= i < |d.directMessages| ==> parse(d.directMessages[i].timestamp) == Some(dates.dms[i]))
      && (forall i :: 0 <= i < |d.engagementMetrics| ==> parse(d.engagementMetrics[i].date) == Some(dates.metrics[i]))
  {
    var texts := TimestampTexts(d);
    var dates := Regroup(d, ts);
    var b := 1 + |d.posts| + |d.stories|;
    var c := b + |d.comments|;
    var e := c + |d.directMessages|;
    forall i | 0 <= i < |d.comments| ensures parse(d.comments[i].timestamp) == Some(dates.comments[i]) {
      assert texts[b + i] == d.comments[i].timestamp;
      assert parse(texts[b + i]) == Some(ts[b + i]);
    }
    forall i | 0 <= i < |d.directMessages| ensures parse(d.directMessages[i].timestamp) == Some(dates.dms[i]) {
      assert texts[c + i] == d.directMessages[i].timestamp;
      assert parse(texts[c + i]) == Some(ts[c + i]);
    }
    forall i | 0 <= i < |d.engagementMetrics| ensures parse(d.engagementMetrics[i].date) == Some(dates.metrics[i]) {
      assert texts[e + i] == d.engagementMetrics[i].date;
      assert parse(texts[e + i]) == Some(ts[e + i]);
    }
  }

  /** All timestamps of the export, parsed in the transform's order. The source parses each
      one just before it builds the record that needs it, so the first text the parser rejects
      in this order is the one whose error escapes; parsing them up front changes nothing
      observable, because nothing is emitted before the transform completes. */
  function ParseDates(parse: Parser, d: InstagramData): (r: Result<Dates, TransformError>)
    ensures r.Success? <==> FirstUnparsable(parse, TimestampTexts(d)) == |TimestampTexts(d)|
    ensures r.Failure? ==> r.error == MalformedTimestamp(TimestampTexts(d)[FirstUnparsable(parse, TimestampTexts(d))])
    ensures r.Success? ==> ParsedFrom(parse, d, r.value)
  {
    var ts :- ParseAll(parse, TimestampTexts(d));
    RegroupParsedFront(parse, d, ts);
    RegroupParsedBack(parse, d, ts);
    Success(Regroup(d, ts))
  }

  // ---------------------------------------------------------------- per-entity records

  /** `len(x) if x else 0` on an optional text: absent and empty both give 0. */
  function TextLength(s: Option<string>): (n: nat)
    ensures n == 0 <==> s.None? || |s.value| == 0
    ensures s.Some? ==> n == |s.value|
  {
    match s
    case None => 0
    case Some(t) => |t|
  }

  /** Python truthiness of an optional text: present and non-empty. */
  predicate Present(s: Option<string>) {
    s.Some? && s.value != []
  }

  /** `engagement_rate`: likes plus comments per follower, as a percentage; 0 for an account
      without followers. Exact rational arithmetic stands in for Python's float division. */
  function EngagementRate(likes: int, comments: int, followers: int): (rate: real)
    ensures followers <= 0 ==> rate == 0.0
    ensures followers > 0 ==> rate * followers as real == (likes + comments) as real * 100.0
  {
    if followers > 0 then (likes + comments) as real / followers as real * 100.0 else 0.0
  }

  lemma EngagementRateExample()
    ensures EngagementRate(18, 2, 200) == 10.0
    ensures EngagementRate(18, 2, 0) == 0.0
  {
    assert EngagementRate(18, 2, 200) * 200.0 == 2000.0;
  }

  /** `_create_user_profile`: the username and the full name are hashed with `hash_text`
      (the username is not case-folded first), the bio is reduced to its length, and the parsed
      export date becomes the as-of date. The account age is never filled in. */
  function CreateUserProfile(o: Oracles, d: InstagramData, exportDate: Timestamp): Record {
    var p := d.profile;
    UserProfile(d.userId, HashText(o, p.username), HashText(o, p.fullName), TextLength(p.bio),
                p.followerCount, p.followingCount, p.postCount, p.isVerified, p.isPrivate,
                None, exportDate)
  }

  /** The profile record: the export's user id; the username and full name through `hash_text`
      (empty names stay empty, others become 64-character digests); the bio's length (0 when absent
      or empty); the counts and flags as exported; no account age; the parsed export date. */
  lemma ProfileRecordFields(o: Oracles, d: InstagramData, exportDate: Timestamp)
    ensures var r := CreateUserProfile(o, d, exportDate);
      && r.UserProfile? && r.userId == d.userId
      && r.usernameHash == HashText(o, d.profile.username) && r.fullNameHash == HashText(o, d.profile.fullName)
      && (WellBehaved(o) ==> (r.usernameHash == [] <==> d.profile.username == []))
      && (r.bioLength == 0 <==> d.profile.bio.None? || |d.profile.bio.value| == 0)
      && (d.profile.bio.Some? ==> r.bioLength == |d.profile.bio.value|)
      && r.followerCount == d.profile.followerCount && r.followingCount == d.profile.followingCount
      && r.postCount == d.profile.postCount
      && r.isVerified == d.profile.isVerified && r.isPrivate == d.profile.isPrivate
      && r.accountAgeDays == None && r.dataExportDate == exportDate
  {
  }

  function PostRecord(d: InstagramData, p: InstagramPost, date: Timestamp): Record {
    Post(p.postId, d.userId, TextLength(p.caption), date, p.likeCount, p.commentCount, |p.media|,
         Present(p.location), |p.hashtags|, EngagementRate(p.likeCount, p.commentCount, d.profile.followerCount))
  }

  /** One media record per attached media item, each tied to its post. */
  function MediaRecords(p: InstagramPost): (r: seq<Record>)
    ensures |r| == |p.media|
    ensures forall j :: 0 <= j < |r| ==> r[j] == Media(p.postId, p.media[j].mediaType)
  {
    seq(|p.media|, j requires 0 <= j < |p.media| => Media(p.postId, p.media[j].mediaType))
  }

  /** Number of media items over a list of posts. */
  function MediaTotal(ps: seq<InstagramPost>): nat {
    if ps == [] then 0 else |ps[0].media| + MediaTotal(ps[1..])
  }

  /** `_create_posts`: each post record is followed by the media records of that post. */
  function CreatePosts(d: InstagramData, ps: seq<InstagramPost>, dates: seq<Timestamp>): (r: seq<Record>)
    requires |dates| == |ps|
    ensures |r| == |ps| + MediaTotal(ps)
    ensures forall i :: 0 <= i < |r| ==> r[i].Post? || r[i].Media?
    ensures forall i :: 0 <= i < |r| && r[i].Post? ==> r[i].userId == d.userId
    decreases |ps|
  {
    if ps == [] then []
    else [PostRecord(d, ps[0], dates[0])] + MediaRecords(ps[0]) + CreatePosts(d, ps[1..], dates[1..])
  }

  /** `_create_stories`: one record per story, nothing to anonymise. */
  function CreateStories(d: InstagramData, dates: seq<Timestamp>): (r: seq<Record>)
    requires |dates| == |d.stories|
    ensures |r| == |d.stories|
    ensures forall i :: 0 <= i < |r| ==>
              r[i] == Story(d.stories[i].storyId, d.userId, dates[i], d.stories[i].mediaType, d.stories[i].viewCount)
  {
    seq(|d.stories|, i requires 0 <= i < |d.stories| =>
      var s := d.stories[i];
      Story(s.storyId, d.userId, dates[i], s.mediaType, s.viewCount))
  }

  /** `_create_comments`: the text becomes its length and the author its hash. */
  function CreateComments(o: Oracles, d: InstagramData, dates: seq<Timestamp>): (r: seq<Record>)
    requires |dates| == |d.comments|
    ensures |r| == |d.comments|
    ensures forall i :: 0 <= i < |r| ==> r[i].Comment? && r[i].userId == d.userId && r[i].commentDate == dates[i]
    ensures forall i :: 0 <= i < |r| ==>
              && r[i].commentId == d.comments[i].commentId && r[i].postId == d.comments[i].postId
              && r[i].commentLength == |d.comments[i].text| && r[i].likeCount == d.comments[i].likeCount
              && r[i].authorUsernameHash == HashText(o, d.comments[i].authorUsername)
  {
    seq(|d.comments|, i requires 0 <= i < |d.comments| =>
      var c := d.comments[i];
      Comment(c.commentId, d.userId, c.postId, |c.text|, dates[i], c.likeCount, HashText(o, c.authorUsername)))
  }

  /** `_create_direct_messages`: the conversation id becomes its hash, the text its length,
      and the sender is compared in clear text with the account's own username. */
  function CreateDirectMessages(o: Oracles, d: InstagramData, dates: seq<Timestamp>): (r: seq<Record>)
    requires |dates| == |d.directMessages|
    ensures |r| == |d.directMessages|
    ensures forall i :: 0 <= i < |r| ==> r[i].DirectMessage? && r[i].userId == d.userId && r[i].messageDate == dates[i]
    ensures forall i :: 0 <= i < |r| ==> (r[i].isSender <==> d.directMessages[i].senderUsername == d.profile.username)
    ensures forall i :: 0 <= i < |r| ==>
              && r[i].messageId == d.directMessages[i].messageId && r[i].messageType == d.directMessages[i].messageType
              && r[i].conversationIdHash == HashText(o, d.directMessages[i].conversationId)
              && r[i].messageLength == TextLength(d.directMessages[i].messageText)
  {
    seq(|d.directMessages|, i requires 0 <= i < |d.directMessages| =>
      var m := d.directMessages[i];
      DirectMessage(m.messageId, d.userId, HashText(o, m.conversationId), TextLength(m.messageText),
                    dates[i], m.messageType, m.senderUsername == d.profile.username))
  }

  /** `_create_engagement_metrics`: the snapshots are copied as they are. */
  function CreateEngagementMetrics(d: InstagramData, dates: seq<Timestamp>): (r: seq<Record>)
    requires |dates| == |d.engagementMetrics|
    ensures |r| == |d.engagementMetrics|
    ensures forall i :: 0 <= i < |r| ==>
              var e := d.engagementMetrics[i];
              r[i] == EngagementMetric(d.userId, dates[i], e.profileViews, e.reach, e.impressions, e.websiteClicks)
  {
    seq(|d.engagementMetrics|, i requires 0 <= i < |d.engagementMetrics| =>
      var e := d.engagementMetrics[i];
      EngagementMetric(d.userId, dates[i], e.profileViews, e.reach, e.impressions, e.websiteClicks))
  }

  // ---------------------------------------------------------------- aggregates

  /** The grouping key of a hashtag: `hash_text(tag.lower())`. */
  function TagKey(o: Oracles, tag: string): string {
    HashText(o, Lower(tag))
  }

  /** Number of hashtag occurrences over a list of posts; repeats within a post count. */
  function TotalHashtags(ps: seq<InstagramPost>): nat {
    if ps == [] then 0 else |ps[0].hashtags| + TotalHashtags(ps[1..])
  }

  function PostTagUses(o: Oracles, p: InstagramPost, date: Timestamp): (r: seq<Hashtags.TagUse>)
    ensures |r| == |p.hashtags|
    ensures forall j :: 0 <= j < |r| ==> r[j] == Hashtags.TagUse(TagKey(o, p.hashtags[j]), date)
  {
    seq(|p.hashtags|, j requires 0 <= j < |p.hashtags| => Hashtags.TagUse(TagKey(o, p.hashtags[j]), date))
  }

  /** Every hashtag occurrence, post by post and tag by tag, with the date of its post. */
  function TagUses(o: Oracles, ps: seq<InstagramPost>, dates: seq<Timestamp>): (r: seq<Hashtags.TagUse>)
    requires |dates| == |ps|
    ensures |r| == TotalHashtags(ps)
    decreases |ps|
  {
    if ps == [] then [] else PostTagUses(o, ps[0], dates[0]) + TagUses(o, ps[1..], dates[1..])
  }

  /** A use is in the list exactly when some hashtag of some post gives it, dated by that post. */
  lemma {:induction false} TagUsesContents(o: Oracles, ps: seq<InstagramPost>, dates: seq<Timestamp>, u: Hashtags.TagUse)
    requires |dates| == |ps|
    ensures u in TagUses(o, ps, dates) <==>
              exists i, j :: 0 <= i < |ps| && 0 <= j < |ps[i].hashtags|
                             && u == Hashtags.TagUse(TagKey(o, ps[i].hashtags[j]), dates[i])
    decreases |ps|
  {
    if ps != [] {
      var head := PostTagUses(o, ps[0], dates[0]);
      var tail := TagUses(o, ps[1..], dates[1..]);
      assert TagUses(o, ps, dates) == head + tail;
      TagUsesContents(o, ps[1..], dates[1..], u);
      if u in head {
        var j :| 0 <= j < |head| && head[j] == u;
        assert u == Hashtags.TagUse(TagKey(o, ps[0].hashtags[j]), dates[0]);
      } else if u in tail {
        var i, j :| 0 <= i < |ps[1..]| && 0 <= j < |ps[1..][i].hashtags|
                    && u == Hashtags.TagUse(TagKey(o, ps[1..][i].hashtags[j]), dates[1..][i]);
        assert ps[1..][i] == ps[i + 1] && dates[1..][i] == dates[i + 1];
        assert u == Hashtags.TagUse(TagKey(o, ps[i + 1].hashtags[j]), dates[i + 1]);
      } else {
        forall i, j | 0 <= i < |ps| && 0 <= j < |ps[i].hashtags|
          ensures u != Hashtags.TagUse(TagKey(o, ps[i].hashtags[j]), dates[i])
        {
          if i == 0 {
            assert head[j] == Hashtags.TagUse(TagKey(o, ps[0].hashtags[j]), dates[0]);
          } else {
            assert ps[1..][i - 1] == ps[i] && dates[1..][i - 1] == dates[i];
          }
        }
      }
    }
  }

  function ActivityStamps(dates: Dates): Activity.Stamps {
    Activity.Stamps(dates.posts, dates.stories, dates.comments, dates.dms)
  }

  // ---------------------------------------------------------------- the transform

  /** `transform` once the export is validated and its timestamps parsed: the profile, then
      posts with their media, stories, comments, messages, engagement snapshots, hashtag
      usage and activity patterns, in that order. */
  function TransformData(o: Oracles, d: InstagramData, dates: Dates): (r: seq<Record>)
    requires Fits(d, dates)
    ensures |r| > 0 && r[0] == CreateUserProfile(o, d, dates.exportDate)
  {
    [CreateUserProfile(o, d, dates.exportDate)]
      + CreatePosts(d, d.posts, dates.posts)
      + CreateStories(d, dates.stories)
      + CreateComments(o, d, dates.comments)
      + CreateDirectMessages(o, d, dates.dms)
      + CreateEngagementMetrics(d, dates.metrics)
      + Hashtags.CreateHashtagUsage(d.userId, TagUses(o, d.posts, dates.posts))
      + Activity.CreateActivityPatterns(d.userId, ActivityStamps(dates))
  }

  /** The first and the last use of each hashtag record are the dates of posts that carry a tag
      with that record's hash. */
  lemma HashtagSpanFromPosts(o: Oracles, userId: string, ps: seq<InstagramPost>, dates: seq<Timestamp>)
    requires |dates| == |ps|
    ensures var r := Hashtags.CreateHashtagUsage(userId, TagUses(o, ps, dates));
      forall k :: 0 <= k < |r| ==>
        && (exists i, j :: 0 <= i < |ps| && 0 <= j < |ps[i].hashtags|
                           && TagKey(o, ps[i].hashtags[j]) == r[k].hashtagHash && dates[i] == r[k].firstUsed)
        && (exists i, j :: 0 <= i < |ps| && 0 <= j < |ps[i].hashtags|
                           && TagKey(o, ps[i].hashtags[j]) == r[k].hashtagHash && dates[i] == r[k].lastUsed)
  {
    var uses := TagUses(o, ps, dates);
    var r := Hashtags.CreateHashtagUsage(userId, uses);
    forall k | 0 <= k < |r|
      ensures exists i, j :: 0 <= i < |ps| && 0 <= j < |ps[i].hashtags|
                             && TagKey(o, ps[i].hashtags[j]) == r[k].hashtagHash && dates[i] == r[k].firstUsed
      ensures exists i, j :: 0 <= i < |ps| && 0 <= j < |ps[i].hashtags|
                             && TagKey(o, ps[i].hashtags[j]) == r[k].hashtagHash && dates[i] == r[k].lastUsed
    {
      var w :| 0 <= w < |uses| && uses[w] == Hashtags.TagUse(r[k].hashtagHash, r[k].firstUsed);
      TagUsesContents(o, ps, dates, uses[w]);
      var z :| 0 <= z < |uses| && uses[z] == Hashtags.TagUse(r[k].hashtagHash, r[k].lastUsed);
      TagUsesContents(o, ps, dates, uses[z]);
    }
  }

  // ---------------------------------------------------------------- layout of the output

  /** Where the record of post i starts: after i post records and the media of those posts. */
  function PostOffset(ps: seq<InstagramPost>, i: nat): nat
    requires i <= |ps|
  {
    i + MediaTotal(ps[..i])
  }

  lemma PostOffsetStep(ps: seq<InstagramPost>, i: nat)
    requires 0 < i <= |ps|
    ensures PostOffset(ps, i) == 1 + |ps[0].media| + PostOffset(ps[1..], i - 1)
  {
    assert ps[..i][1..] == ps[1..][..i - 1];
    assert ps[..i][0] == ps[0];
  }

  /** At position off of r: the record of post p, then one media record per media item of p,
      each tied to the post by its id, in order. */
  predicate BlockAt(r: seq<Record>, off: nat, d: InstagramData, p: InstagramPost, date: Timestamp) {
    && off + |p.media| < |r|
    && r[off] == PostRecord(d, p, date)
    && forall j :: 0 <= j < |p.media| ==> r[off + 1 + j] == Media(p.postId, p.media[j].mediaType)
  }

  lemma BlockFirst(d: InstagramData, p: InstagramPost, date: Timestamp, tail: seq<Record>)
    ensures BlockAt([PostRecord(d, p, date)] + MediaRecords(p) + tail, 0, d, p, date)
  {
    var r := [PostRecord(d, p, date)] + MediaRecords(p) + tail;
    forall j | 0 <= j < |p.media| ensures r[1 + j] == Media(p.postId, p.media[j].mediaType) {
      assert r[1 + j] == MediaRecords(p)[j];
    }
  }

  lemma BlockShift(head: seq<Record>, tail: seq<Record>, off: nat, d: InstagramData, p: InstagramPost, date: Timestamp)
    requires BlockAt(tail, off, d, p, date)
    ensures BlockAt(head + tail, |head| + off, d, p, date)
  {
    var r := head + tail;
    assert r[|head| + off] == tail[off];
    forall j | 0 <= j < |p.media| ensures r[|head| + off + 1 + j] == Media(p.postId, p.media[j].mediaType) {
      assert r[|head| + off + 1 + j] == tail[off + 1 + j];
    }
  }

  /** Each post record is immediately followed by one media record per media item of that post,
      each tied to the post by its id, in order; the post record carries the post's counts. */
  lemma {:induction false} PostBlockLayout(d: InstagramData, ps: seq<InstagramPost>, dates: seq<Timestamp>, i: nat)
    requires |dates| == |ps| && i < |ps|
    ensures BlockAt(CreatePosts(d, ps, dates), PostOffset(ps, i), d, ps[i], dates[i])
    decreases i
  {
    var head := [PostRecord(d, ps[0], dates[0])] + MediaRecords(ps[0]);
    var tail := CreatePosts(d, ps[1..], dates[1..]);
    assert CreatePosts(d, ps, dates) == head + tail;
    if i == 0 {
      assert ps[..0] == [];
      BlockFirst(d, ps[0], dates[0], tail);
    } else {
      PostBlockLayout(d, ps[1..], dates[1..], i - 1);
      assert ps[1..][i - 1] == ps[i] && dates[1..][i - 1] == dates[i];
      PostOffsetStep(ps, i);
      BlockShift(head, tail, PostOffset(ps[1..], i - 1), d, ps[i], dates[i]);
    }
  }

  /** The record of a post carries its media count, hashtag count, a location flag that is true
      exactly when the location is present and non-empty, the caption's length (0 when absent)
      and the engagement rate over the account's follower count. */
  lemma PostRecordFields(d: InstagramData, p: InstagramPost, date: Timestamp)
    ensures var r := PostRecord(d, p, date);
      && r.Post? && r.postId == p.postId && r.userId == d.userId && r.postDate == date
      && r.mediaCount == |p.media| && r.hashtagCount == |p.hashtags|
      && (r.hasLocation <==> p.location.Some? && |p.location.value| > 0)
      && r.captionLength == TextLength(p.caption)
      && (r.captionLength == 0 <==> p.caption.None? || |p.caption.value| == 0)
      && r.likeCount == p.likeCount && r.commentCount == p.commentCount
      && (d.profile.followerCount <= 0 ==> r.engagementRate == 0.0)
      && (d.profile.followerCount > 0 ==>
            r.engagementRate * d.profile.followerCount as real == (p.likeCount + p.commentCount) as real * 100.0)
  {
  }

  predicate SortedSections(rs: seq<Record>) {
    forall i, j :: 0 <= i <= j < |rs| ==> Section(rs[i]) <= Section(rs[j])
  }

  predicate AtMostSection(rs: seq<Record>, n: nat) {
    forall i :: 0 <= i < |rs| ==> Section(rs[i]) <= n
  }

  predicate InSection(rs: seq<Record>, n: nat) {
    forall i :: 0 <= i < |rs| ==> Section(rs[i]) == n
  }

  lemma SortedExtend(a: seq<Record>, b: seq<Record>, n: nat)
    requires SortedSections(a) && AtMostSection(a, n) && InSection(b, n)
    ensures SortedSections(a + b) && AtMostSection(a + b, n)
  {
    var c := a + b;
    forall i, j | 0 <= i <= j < |c| ensures Section(c[i]) <= Section(c[j]) {
      if j < |a| {
        assert c[i] == a[i] && c[j] == a[j];
      } else if i < |a| {
        assert c[i] == a[i] && c[j] == b[j - |a|];
      } else {
        assert c[i] == b[i - |a|] && c[j] == b[j - |a|];
      }
    }
  }

  /** Records other than media carry the user id of the export. */
  predicate OwnedBy(rs: seq<Record>, userId: string) {
    forall i :: 0 <= i < |rs| && !rs[i].Media? ==> rs[i].userId == userId
  }

  lemma OwnedAppend(a: seq<Record>, b: seq<Record>, userId: string)
    requires OwnedBy(a, userId) && OwnedBy(b, userId)
    ensures OwnedBy(a + b, userId)
  {
    forall i | 0 <= i < |a + b| && !(a + b)[i].Media? ensures (a + b)[i].userId == userId {
      if i < |a| {
        assert (a + b)[i] == a[i];
      } else {
        assert (a + b)[i] == b[i - |a|];
      }
    }
  }

  lemma ProfileBlock(o: Oracles, d: InstagramData, date: Timestamp)
    ensures SortedSections([CreateUserProfile(o, d, date)]) && AtMostSection([CreateUserProfile(o, d, date)], 0)
    ensures OwnedBy([CreateUserProfile(o, d, date)], d.userId)
  {
  }

  lemma PostsBlock(d: InstagramData, dates: seq<Timestamp>)
    requires |dates| == |d.posts|
    ensures InSection(CreatePosts(d, d.posts, dates), 1) && OwnedBy(CreatePosts(d, d.posts, dates), d.userId)
  {
  }

  lemma StoriesBlock(d: InstagramData, dates: seq<Timestamp>)
    requires |dates| == |d.stories|
    ensures InSection(CreateStories(d, dates), 2) && OwnedBy(CreateStories(d, dates), d.userId)
  {
  }

  lemma CommentsBlock(o: Oracles, d: InstagramData, dates: seq<Timestamp>)
    requires |dates| == |d.comments|
    ensures InSection(CreateComments(o, d, dates), 3) && OwnedBy(CreateComments(o, d, dates), d.userId)
  {
  }

  lemma MessagesBlock(o: Oracles, d: InstagramData, dates: seq<Timestamp>)
    requires |dates| == |d.directMessages|
    ensures InSection(CreateDirectMessages(o, d, dates), 4) && OwnedBy(CreateDirectMessages(o, d, dates), d.userId)
  {
  }

  lemma MetricsBlock(d: InstagramData, dates: seq<Timestamp>)
    requires |dates| == |d.engagementMetrics|
    ensures InSection(CreateEngagementMetrics(d, dates), 5) && OwnedBy(CreateEngagementMetrics(d, dates), d.userId)
  {
  }

  lemma HashtagBlock(userId: string, uses: seq<Hashtags.TagUse>)
    ensures InSection(Hashtags.CreateHashtagUsage(userId, uses), 6)
    ensures OwnedBy(Hashtags.CreateHashtagUsage(userId, uses), userId)
  {
  }

  lemma ActivityBlock(userId: string, s: Activity.Stamps)
    ensures InSection(Activity.CreateActivityPatterns(userId, s), 7)
    ensures OwnedBy(Activity.CreateActivityPatterns(userId, s), userId)
  {
  }

  /** Blocks of sections 1 to 7 after a profile record, in order, give a sorted, owned list. */
  lemma ChainBlocks(p: Record, b1: seq<Record>, b2: seq<Record>, b3: seq<Record>, b4: seq<Record>,
                    b5: seq<Record>, b6: seq<Record>, b7: seq<Record>, userId: string)
    requires p.UserProfile? && p.userId == userId
    requires InSection(b1, 1) && InSection(b2, 2) && InSection(b3, 3) && InSection(b4, 4)
    requires InSection(b5, 5) && InSection(b6, 6) && InSection(b7, 7)
    requires OwnedBy(b1, userId) && OwnedBy(b2, userId) && OwnedBy(b3, userId) && OwnedBy(b4, userId)
    requires OwnedBy(b5, userId) && OwnedBy(b6, userId) && OwnedBy(b7, userId)
    ensures SortedSections([p] + b1 + b2 + b3 + b4 + b5 + b6 + b7)
    ensures OwnedBy([p] + b1 + b2 + b3 + b4 + b5 + b6 + b7, userId)
  {
    var acc := [p];
    SortedExtend(acc, b1, 1);
    OwnedAppend(acc, b1, userId);
    acc := acc + b1;
    SortedExtend(acc, b2, 2);
    OwnedAppend(acc, b2, userId);
    acc := acc + b2;
    SortedExtend(acc, b3, 3);
    OwnedAppend(acc, b3, userId);
    acc := acc + b3;
    SortedExtend(acc, b4, 4);
    OwnedAppend(acc, b4, userId);
    acc := acc + b4;
    SortedExtend(acc, b5, 5);
    OwnedAppend(acc, b5, userId);
    acc := acc + b5;
    SortedExtend(acc, b6, 6);
    OwnedAppend(acc, b6, userId);
    acc := acc + b6;
    SortedExtend(acc, b7, 7);
    OwnedAppend(acc, b7, userId);
  }

  /** The shape of the output: the profile first, then post and media records, stories,
      comments, messages, engagement snapshots, hashtag usage and activity patterns, with no
      section revisited; the size is one per input record plus the two aggregates; every record
      except media carries the export's user id. */
  lemma OutputLayout(o: Oracles, d: InstagramData, dates: Dates)
    requires Fits(d, dates)
    ensures var r := TransformData(o, d, dates);
      && r[0] == CreateUserProfile(o, d, dates.exportDate) && r[0].UserProfile?
      && SortedSections(r)
      && OwnedBy(r, d.userId)
      && |r| == 1 + |d.posts| + MediaTotal(d.posts) + |d.stories| + |d.comments| + |d.directMessages|
                + |d.engagementMetrics| + |Hashtags.CreateHashtagUsage(d.userId, TagUses(o, d.posts, dates.posts))|
                + |Activity.CreateActivityPatterns(d.userId, ActivityStamps(dates))|
  {
    ProfileBlock(o, d, dates.exportDate);
    PostsBlock(d, dates.posts);
    StoriesBlock(d, dates.stories);
    CommentsBlock(o, d, dates.comments);
    MessagesBlock(o, d, dates.dms);
    MetricsBlock(d, dates.metrics);
    HashtagBlock(d.userId, TagUses(o, d.posts, dates.posts));
    ActivityBlock(d.userId, ActivityStamps(dates));
    ChainBlocks(CreateUserProfile(o, d, dates.exportDate),
      CreatePosts(d, d.posts, dates.posts), CreateStories(d, dates.stories),
      CreateComments(o, d, dates.comments), CreateDirectMessages(o, d, dates.dms),
      CreateEngagementMetrics(d, dates.metrics),
      Hashtags.CreateHashtagUsage(d.userId, TagUses(o, d.posts, dates.posts)),
      Activity.CreateActivityPatterns(d.userId, ActivityStamps(dates)), d.userId);
  }

  /** `transform` after validation: parse every timestamp, then build the records. The first
      timestamp the parser rejects, in the order the source parses them, aborts the transform;
      otherwise the records are built from exactly the parsed dates. */
  function TransformValid(o: Oracles, parse: Parser, d: InstagramData): (r: Result<seq<Record>, TransformError>)
    ensures r.Success? <==> FirstUnparsable(parse, TimestampTexts(d)) == |TimestampTexts(d)|
    ensures r.Failure? ==> r.error == MalformedTimestamp(TimestampTexts(d)[FirstUnparsable(parse, TimestampTexts(d))])
    ensures r.Success? ==> exists dates :: ParsedFrom(parse, d, dates) && r.value == TransformData(o, d, dates)
  {
    var dates :- ParseDates(parse, d);
    Success(TransformData(o, d, dates))
  }

  /** `transform`: a document that does not validate is rejected with every violation found,
      before any timestamp is looked at. */
  function Transform(o: Oracles, parse: Parser, doc: Json): (r: Result<seq<Record>, TransformError>)
    ensures Validate(doc).Failure? ==> r == Failure(Invalid(Validate(doc).error))
    ensures Validate(doc).Success? ==> r == TransformValid(o, parse, Validate(doc).value)
  {
    match Validate(doc)
    case Failure(vs) => Failure(Invalid(vs))
    case Success(d) => TransformValid(o, parse, d)
  }
}
