/** What the transformer is allowed to see of an export: identifying texts only through their
    hashes (or, for a direct message's sender, through the clear-text comparison with the
    account's username), free texts only through their lengths, and media, picture and story
    URLs and message recipients not at all. The non-interference lemma shows that two exports
    with the same view give the same records. */
module Privacy {
  import opened Results
  import opened Timestamps
  import opened Digests
  import opened Pii
  import opened Unrefined
  import opened Refined
  import opened Transformer
  import Hashtags

  datatype PostView = PostView(
    postId: string, captionLength: nat, likeCount: int, commentCount: int,
    mediaTypes: seq<string>, hasLocation: bool, tagKeys: seq<string>)

  datatype StoryView = StoryView(storyId: string, mediaType: string, viewCount: int)

  datatype CommentView = CommentView(
    commentId: string, postId: string, textLength: nat, likeCount: int, authorHash: string)

  datatype MessageView = MessageView(
    messageId: string, conversationHash: string, textLength: nat, messageType: string, fromOwner: bool)

  datatype MetricView = MetricView(profileViews: int, reach: int, impressions: int, websiteClicks: int)

  datatype ExportView = ExportView(
    userId: string, usernameHash: string, fullNameHash: string, bioLength: nat,
    followerCount: int, followingCount: int, postCount: int, isVerified: bool, isPrivate: bool,
    posts: seq<PostView>, stories: seq<StoryView>, comments: seq<CommentView>,
    messages: seq<MessageView>, metrics: seq<MetricView>)

  function MediaTypes(p: InstagramPost): (ts: seq<string>)
    ensures |ts| == |p.media| && forall j :: 0 <= j < |ts| ==> ts[j] == p.media[j].mediaType
  {
    seq(|p.media|, j requires 0 <= j < |p.media| => p.media[j].mediaType)
  }

  function TagKeys(o: Oracles, p: InstagramPost): (ks: seq<string>)
    ensures |ks| == |p.hashtags| && forall j :: 0 <= j < |ks| ==> ks[j] == TagKey(o, p.hashtags[j])
  {
    seq(|p.hashtags|, j requires 0 <= j < |p.hashtags| => TagKey(o, p.hashtags[j]))
  }

  function ViewPost(o: Oracles, p: InstagramPost): PostView {
    PostView(p.postId, TextLength(p.caption), p.likeCount, p.commentCount, MediaTypes(p),
             Present(p.location), TagKeys(o, p))
  }

  function ViewMessage(o: Oracles, owner: string, m: InstagramDM): MessageView {
    MessageView(m.messageId, HashText(o, m.conversationId), TextLength(m.messageText), m.messageType,
                m.senderUsername == owner)
  }

  /** The view of an export. */
  function View(o: Oracles, d: InstagramData): ExportView {
    var p := d.profile;
    ExportView(
      d.userId, HashText(o, p.username), HashText(o, p.fullName), TextLength(p.bio),
      p.followerCount, p.followingCount, p.postCount, p.isVerified, p.isPrivate,
      seq(|d.posts|, i requires 0 <= i < |d.posts| => ViewPost(o, d.posts[i])),
      seq(|d.stories|, i requires 0 <= i < |d.stories| =>
        StoryView(d.stories[i].storyId, d.stories[i].mediaType, d.stories[i].viewCount)),
      seq(|d.comments|, i requires 0 <= i < |d.comments| =>
        var c := d.comments[i];
        CommentView(c.commentId, c.postId, |c.text|, c.likeCount, HashText(o, c.authorUsername))),
      seq(|d.directMessages|, i requires 0 <= i < |d.directMessages| =>
        ViewMessage(o, p.username, d.directMessages[i])),
      seq(|d.engagementMetrics|, i requires 0 <= i < |d.engagementMetrics| =>
        var e := d.engagementMetrics[i];
        MetricView(e.profileViews, e.reach, e.impressions, e.websiteClicks)))
  }

  /** The post and media records of a post depend on its view only. */
  lemma SamePostBlock(o: Oracles, d1: InstagramData, d2: InstagramData, p1: InstagramPost, p2: InstagramPost, date: Timestamp)
    requires d1.userId == d2.userId && d1.profile.followerCount == d2.profile.followerCount
    requires ViewPost(o, p1) == ViewPost(o, p2)
    ensures PostRecord(d1, p1, date) == PostRecord(d2, p2, date)
    ensures MediaRecords(p1) == MediaRecords(p2)
  {
    assert MediaTypes(p1) == MediaTypes(p2);
    assert |p1.hashtags| == |TagKeys(o, p1)| == |TagKeys(o, p2)| == |p2.hashtags|;
  }

  lemma {:induction false} SamePosts(o: Oracles, d1: InstagramData, d2: InstagramData,
                                     ps1: seq<InstagramPost>, ps2: seq<InstagramPost>, dates: seq<Timestamp>)
    requires d1.userId == d2.userId && d1.profile.followerCount == d2.profile.followerCount
    requires |ps1| == |ps2| == |dates|
    requires forall i :: 0 <= i < |ps1| ==> ViewPost(o, ps1[i]) == ViewPost(o, ps2[i])
    ensures CreatePosts(d1, ps1, dates) == CreatePosts(d2, ps2, dates)
    ensures TagUses(o, ps1, dates) == TagUses(o, ps2, dates)
    decreases |ps1|
  {
    if ps1 != [] {
      SamePostBlock(o, d1, d2, ps1[0], ps2[0], dates[0]);
      assert TagKeys(o, ps1[0]) == TagKeys(o, ps2[0]);
      assert PostTagUses(o, ps1[0], dates[0]) == PostTagUses(o, ps2[0], dates[0]);
      SamePosts(o, d1, d2, ps1[1..], ps2[1..], dates[1..]);
    }
  }

  lemma SameViewParts(o: Oracles, d1: InstagramData, d2: InstagramData)
    requires View(o, d1) == View(o, d2)
    ensures d1.userId == d2.userId && d1.profile.followerCount == d2.profile.followerCount
    ensures |d1.posts| == |d2.posts|
    ensures forall i :: 0 <= i < |d1.posts| ==> ViewPost(o, d1.posts[i]) == ViewPost(o, d2.posts[i])
  {
    var v1 := View(o, d1);
    var v2 := View(o, d2);
    assert |d1.posts| == |v1.posts| == |v2.posts| == |d2.posts|;
    forall i | 0 <= i < |d1.posts| ensures ViewPost(o, d1.posts[i]) == ViewPost(o, d2.posts[i]) {
      assert v1.posts[i] == v2.posts[i];
    }
  }

  lemma SameProfile(o: Oracles, d1: InstagramData, d2: InstagramData, date: Timestamp)
    requires View(o, d1) == View(o, d2)
    ensures CreateUserProfile(o, d1, date) == CreateUserProfile(o, d2, date)
  {
  }

  lemma SameStories(o: Oracles, d1: InstagramData, d2: InstagramData, dates: seq<Timestamp>)
    requires View(o, d1) == View(o, d2)
    requires |dates| == |d1.stories| == |d2.stories|
    ensures CreateStories(d1, dates) == CreateStories(d2, dates)
  {
    var v1 := View(o, d1);
    var v2 := View(o, d2);
    forall i | 0 <= i < |dates| ensures CreateStories(d1, dates)[i] == CreateStories(d2, dates)[i] {
      assert v1.stories[i] == v2.stories[i];
    }
  }

  lemma SameComments(o: Oracles, d1: InstagramData, d2: InstagramData, dates: seq<Timestamp>)
    requires View(o, d1) == View(o, d2)
    requires |dates| == |d1.comments| == |d2.comments|
    ensures CreateComments(o, d1, dates) == CreateComments(o, d2, dates)
  {
    var v1 := View(o, d1);
    var v2 := View(o, d2);
    forall i | 0 <= i < |dates| ensures CreateComments(o, d1, dates)[i] == CreateComments(o, d2, dates)[i] {
      assert v1.comments[i] == v2.comments[i];
    }
  }

  lemma SameMessages(o: Oracles, d1: InstagramData, d2: InstagramData, dates: seq<Timestamp>)
    requires View(o, d1) == View(o, d2)
    requires |dates| == |d1.directMessages| == |d2.directMessages|
    ensures CreateDirectMessages(o, d1, dates) == CreateDirectMessages(o, d2, dates)
  {
    var v1 := View(o, d1);
    var v2 := View(o, d2);
    forall i | 0 <= i < |dates| ensures CreateDirectMessages(o, d1, dates)[i] == CreateDirectMessages(o, d2, dates)[i] {
      assert v1.messages[i] == v2.messages[i];
    }
  }

  lemma SameMetrics(o: Oracles, d1: InstagramData, d2: InstagramData, dates: seq<Timestamp>)
    requires View(o, d1) == View(o, d2)
    requires |dates| == |d1.engagementMetrics| == |d2.engagementMetrics|
    ensures CreateEngagementMetrics(d1, dates) == CreateEngagementMetrics(d2, dates)
  {
    var v1 := View(o, d1);
    var v2 := View(o, d2);
    forall i | 0 <= i < |dates| ensures CreateEngagementMetrics(d1, dates)[i] == CreateEngagementMetrics(d2, dates)[i] {
      assert v1.metrics[i] == v2.metrics[i];
    }
  }

  /** Non-interference: the records depend on an export only through its view (and the parsed
      dates). Clear-text usernames, full names, comment authors and conversation ids, and the
      texts of bios, captions, comments and messages, cannot reach the output except as hashes
      and lengths; URLs and recipients cannot reach it at all. */
  lemma TransformSeesOnlyView(o: Oracles, d1: InstagramData, d2: InstagramData, dates: Dates)
    requires Fits(d1, dates) && Fits(d2, dates)
    requires View(o, d1) == View(o, d2)
    ensures TransformData(o, d1, dates) == TransformData(o, d2, dates)
  {
    SameViewParts(o, d1, d2);
    SameProfile(o, d1, d2, dates.exportDate);
    SamePosts(o, d1, d2, d1.posts, d2.posts, dates.posts);
    SameStories(o, d1, d2, dates.stories);
    SameComments(o, d1, d2, dates.comments);
    SameMessages(o, d1, d2, dates.dms);
    SameMetrics(o, d1, d2, dates.metrics);
  }

  /** For instance: rewriting the bio to another text of the same length, dropping the profile
      picture URL and replacing a message's recipient leave the records unchanged. */
  lemma FreeTextNeverReachesOutput(o: Oracles, d: InstagramData, dates: Dates, bio: string, m: nat, recipient: string)
    requires Fits(d, dates)
    requires d.profile.bio.Some? && |bio| == |d.profile.bio.value|
    requires m < |d.directMessages|
    ensures var d' := d.(profile := d.profile.(bio := Some(bio), profilePicUrl := None),
                         directMessages := d.directMessages[m := d.directMessages[m].(recipientUsername := recipient)]);
      TransformData(o, d', dates) == TransformData(o, d, dates)
  {
    var d' := d.(profile := d.profile.(bio := Some(bio), profilePicUrl := None),
                 directMessages := d.directMessages[m := d.directMessages[m].(recipientUsername := recipient)]);
    assert View(o, d').messages == View(o, d).messages;
    TransformSeesOnlyView(o, d', d, dates);
  }
}
