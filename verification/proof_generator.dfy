/** The proof generator: an attestation of a raw (validated, not yet anonymised) export, made of
    five content hashes over fixed field subsets, the collection sizes, a heuristic confidence
    score and a label for how the export was probably obtained. */
module ProofGenerator {
  import opened Results
  import opened Json
  import opened Digests
  import opened Pii
  import opened Unrefined

  // ---------------------------------------------------------------- content hashes

  /** The profile fields that are hashed: username, full name, the three counts and the two flags. */
  function ProfileDocument(p: InstagramProfile): Json {
    JObj(map[
      "username" := JStr(p.username),
      "full_name" := JStr(p.fullName),
      "follower_count" := JInt(p.followerCount),
      "following_count" := JInt(p.followingCount),
      "post_count" := JInt(p.postCount),
      "is_verified" := JBool(p.isVerified),
      "is_private" := JBool(p.isPrivate)])
  }

  /** The post fields that are hashed: id, timestamp text, like and comment counts, media count. */
  function PostEntry(p: InstagramPost): Json {
    JObj(map[
      "post_id" := JStr(p.postId),
      "timestamp" := JStr(p.timestamp),
      "like_count" := JInt(p.likeCount),
      "comment_count" := JInt(p.commentCount),
      "media_count" := JInt(|p.media|)])
  }

  function StoryEntry(s: InstagramStory): Json {
    JObj(map[
      "story_id" := JStr(s.storyId),
      "timestamp" := JStr(s.timestamp),
      "view_count" := JInt(s.viewCount),
      "media_type" := JStr(s.mediaType)])
  }

  function CommentEntry(c: InstagramComment): Json {
    JObj(map[
      "comment_id" := JStr(c.commentId),
      "post_id" := JStr(c.postId),
      "timestamp" := JStr(c.timestamp),
      "like_count" := JInt(c.likeCount)])
  }

  function MessageEntry(m: InstagramDM): Json {
    JObj(map[
      "message_id" := JStr(m.messageId),
      "conversation_id" := JStr(m.conversationId),
      "timestamp" := JStr(m.timestamp),
      "message_type" := JStr(m.messageType)])
  }

  /** A list document keeps the records in input order; only the keys inside each entry are
      sorted, which the map representation already ignores. */
  function PostsDocument(ps: seq<InstagramPost>): Json {
    JArr(seq(|ps|, i requires 0 <= i < |ps| => PostEntry(ps[i])))
  }

  function StoriesDocument(ss: seq<InstagramStory>): Json {
    JArr(seq(|ss|, i requires 0 <= i < |ss| => StoryEntry(ss[i])))
  }

  function CommentsDocument(cs: seq<InstagramComment>): Json {
    JArr(seq(|cs|, i requires 0 <= i < |cs| => CommentEntry(cs[i])))
  }

  function MessagesDocument(ms: seq<InstagramDM>): Json {
    JArr(seq(|ms|, i requires 0 <= i < |ms| => MessageEntry(ms[i])))
  }

  /** Two posts have the same entry exactly when they agree on the five hashed fields. */
  lemma PostEntrySubset(p: InstagramPost, q: InstagramPost)
    ensures PostEntry(p) == PostEntry(q) <==>
              && p.postId == q.postId && p.timestamp == q.timestamp && p.likeCount == q.likeCount
              && p.commentCount == q.commentCount && |p.media| == |q.media|
  {
    if PostEntry(p) == PostEntry(q) {
      var f, g := PostEntry(p).fields, PostEntry(q).fields;
      assert f["post_id"] == g["post_id"] && f["timestamp"] == g["timestamp"];
      assert f["like_count"] == g["like_count"] && f["comment_count"] == g["comment_count"];
      assert f["media_count"] == g["media_count"];
    }
  }

  /** Two messages have the same entry exactly when they agree on the four hashed fields. */
  lemma MessageEntrySubset(m: InstagramDM, n: InstagramDM)
    ensures MessageEntry(m) == MessageEntry(n) <==>
              && m.messageId == n.messageId && m.conversationId == n.conversationId
              && m.timestamp == n.timestamp && m.messageType == n.messageType
  {
    if MessageEntry(m) == MessageEntry(n) {
      var f, g := MessageEntry(m).fields, MessageEntry(n).fields;
      assert f["message_id"] == g["message_id"] && f["conversation_id"] == g["conversation_id"];
      assert f["timestamp"] == g["timestamp"] && f["message_type"] == g["message_type"];
    }
  }

  /** Two profiles have the same document exactly when they agree on the seven hashed fields. */
  lemma ProfileDocumentSubset(p: InstagramProfile, q: InstagramProfile)
    ensures ProfileDocument(p) == ProfileDocument(q) <==>
              && p.username == q.username && p.fullName == q.fullName
              && p.followerCount == q.followerCount && p.followingCount == q.followingCount
              && p.postCount == q.postCount && p.isVerified == q.isVerified && p.isPrivate == q.isPrivate
  {
    if ProfileDocument(p) == ProfileDocument(q) {
      var f, g := ProfileDocument(p).fields, ProfileDocument(q).fields;
      assert f["username"] == g["username"] && f["full_name"] == g["full_name"];
      assert f["follower_count"] == g["follower_count"] && f["following_count"] == g["following_count"];
      assert f["post_count"] == g["post_count"];
      assert f["is_verified"] == g["is_verified"] && f["is_private"] == g["is_private"];
    }
  }

  /** Rewriting the bio or the picture URL leaves the profile hash unchanged. */
  lemma ProfileHashIgnoresBio(o: Oracles, p: InstagramProfile, bio: Option<string>, pic: Option<string>)
    ensures DocumentDigest(o, ProfileDocument(p.(bio := bio, profilePicUrl := pic))) == DocumentDigest(o, ProfileDocument(p))
  {
    ProfileDocumentSubset(p.(bio := bio, profilePicUrl := pic), p);
  }

  /** Two stories have the same entry exactly when they agree on the four hashed fields. */
  lemma StoryEntrySubset(a: InstagramStory, b: InstagramStory)
    ensures StoryEntry(a) == StoryEntry(b) <==>
              && a.storyId == b.storyId && a.timestamp == b.timestamp
              && a.viewCount == b.viewCount && a.mediaType == b.mediaType
  {
    if StoryEntry(a) == StoryEntry(b) {
      var f, g := StoryEntry(a).fields, StoryEntry(b).fields;
      assert f["story_id"] == g["story_id"] && f["timestamp"] == g["timestamp"];
      assert f["view_count"] == g["view_count"] && f["media_type"] == g["media_type"];
    }
  }

  /** Two comments have the same entry exactly when they agree on the four hashed fields. */
  lemma CommentEntrySubset(a: InstagramComment, b: InstagramComment)
    ensures CommentEntry(a) == CommentEntry(b) <==>
              && a.commentId == b.commentId && a.postId == b.postId
              && a.timestamp == b.timestamp && a.likeCount == b.likeCount
  {
    if CommentEntry(a) == CommentEntry(b) {
      var f, g := CommentEntry(a).fields, CommentEntry(b).fields;
      assert f["comment_id"] == g["comment_id"] && f["post_id"] == g["post_id"];
      assert f["timestamp"] == g["timestamp"] && f["like_count"] == g["like_count"];
    }
  }

  /** Replacing a story's media URL leaves the stories hash unchanged. */
  lemma StoriesHashIgnoresUrl(o: Oracles, ss: seq<InstagramStory>, i: nat, url: string)
    requires i < |ss|
    ensures DocumentDigest(o, StoriesDocument(ss[i := ss[i].(mediaUrl := url)])) == DocumentDigest(o, StoriesDocument(ss))
  {
    var ts := ss[i := ss[i].(mediaUrl := url)];
    StoryEntrySubset(ts[i], ss[i]);
    assert StoriesDocument(ts).items == StoriesDocument(ss).items;
  }

  /** Rewriting a comment's text or its author leaves the comments hash unchanged. */
  lemma CommentsHashIgnoresText(o: Oracles, cs: seq<InstagramComment>, i: nat, text: string, author: string)
    requires i < |cs|
    ensures DocumentDigest(o, CommentsDocument(cs[i := cs[i].(text := text, authorUsername := author)]))
         == DocumentDigest(o, CommentsDocument(cs))
  {
    var ds := cs[i := cs[i].(text := text, authorUsername := author)];
    CommentEntrySubset(ds[i], cs[i]);
    assert CommentsDocument(ds).items == CommentsDocument(cs).items;
  }

  /** Two post lists have the same document exactly when they have the same length and agree,
      position by position, on the hashed fields. */
  lemma PostsDocumentPositional(ps: seq<InstagramPost>, qs: seq<InstagramPost>)
    ensures PostsDocument(ps) == PostsDocument(qs) <==>
              |ps| == |qs| && forall i :: 0 <= i < |ps| ==> PostEntry(ps[i]) == PostEntry(qs[i])
  {
    if PostsDocument(ps) == PostsDocument(qs) {
      assert |ps| == |PostsDocument(ps).items| == |PostsDocument(qs).items| == |qs|;
      forall i | 0 <= i < |ps| ensures PostEntry(ps[i]) == PostEntry(qs[i]) {
        assert PostsDocument(ps).items[i] == PostsDocument(qs).items[i];
      }
    }
  }

  /** Rewriting a post's caption, hashtags or location leaves the posts hash unchanged. */
  lemma PostsHashIgnoresCaptionAndTags(o: Oracles, ps: seq<InstagramPost>, i: nat,
                                       caption: Option<string>, hashtags: seq<string>, location: Option<string>)
    requires i < |ps|
    ensures DocumentDigest(o, PostsDocument(ps[i := ps[i].(caption := caption, hashtags := hashtags, location := location)]))
         == DocumentDigest(o, PostsDocument(ps))
  {
    var qs := ps[i := ps[i].(caption := caption, hashtags := hashtags, location := location)];
    PostEntrySubset(qs[i], ps[i]);
    forall k | 0 <= k < |ps| ensures PostEntry(qs[k]) == PostEntry(ps[k]) {
      if k != i {
        assert qs[k] == ps[k];
      }
    }
    PostsDocumentPositional(qs, ps);
  }

  /** Rewriting a message's text, or its sender and recipient, leaves the messages hash unchanged. */
  lemma MessagesHashIgnoresText(o: Oracles, ms: seq<InstagramDM>, i: nat,
                                text: Option<string>, sender: string, recipient: string)
    requires i < |ms|
    ensures DocumentDigest(o, MessagesDocument(ms[i := ms[i].(messageText := text, senderUsername := sender, recipientUsername := recipient)]))
         == DocumentDigest(o, MessagesDocument(ms))
  {
    var ns := ms[i := ms[i].(messageText := text, senderUsername := sender, recipientUsername := recipient)];
    MessageEntrySubset(ns[i], ms[i]);
    assert MessagesDocument(ns).items == MessagesDocument(ms).items;
  }

  /** The posts document is order-sensitive: swapping two posts with different ids changes it,
      so the posts hash is taken over a different serialisation. */
  lemma PostsDocumentOrderMatters(p: InstagramPost, q: InstagramPost)
    requires p.postId != q.postId
    ensures PostsDocument([p, q]) != PostsDocument([q, p])
  {
    PostEntrySubset(p, q);
    PostsDocumentPositional([p, q], [q, p]);
    assert [p, q][0] == p && [q, p][0] == q;
  }

  // ---------------------------------------------------------------- confidence score

  /** Python's `abs` on integers. */
  function Abs(x: int): nat {
    if x < 0 then -x else x
  }

  /** The post-count consistency contribution. */
  function Consistency(declared: int, actual: int): real {
    if declared == actual then 0.1
    else if Abs(declared - actual) <= 5 then 0.05
    else 0.0
  }

  /** Exactly one of the three cases applies, and each has its own value. */
  lemma ConsistencyTrichotomy(declared: int, actual: int)
    ensures Consistency(declared, actual) == 0.1 <==> declared == actual
    ensures Consistency(declared, actual) == 0.05 <==> declared != actual && -5 <= declared - actual <= 5
    ensures Consistency(declared, actual) == 0.0 <==> declared - actual < -5 || declared - actual > 5
  {
  }

  function Bonus(c: bool, amount: real): real {
    if c then amount else 0.0
  }

  /** `_calculate_confidence_score`: the sum of the contributions, capped at 1.0. A profile is
      always present once the export validates, so its 0.2 is always earned. */
  function ConfidenceScore(d: InstagramData): (score: real)
    ensures 0.0 <= score <= 1.0
  {
    var sum := 0.2
      + Bonus(|d.posts| > 0, 0.2)
      + Bonus(|d.engagementMetrics| > 0, 0.2)
      + Consistency(d.profile.postCount, |d.posts|)
      + Bonus(d.dataExportTimestamp != [], 0.1)
      + Bonus(|d.comments| > 0 || |d.directMessages| > 0, 0.1)
      + Bonus(d.profile.isVerified, 0.1);
    if sum < 1.0 then sum else 1.0
  }

  /** The score counted in twentieths (0.05 steps), an independent integer reference. */
  function ScoreUnits(d: InstagramData): nat {
    4
      + (if |d.posts| > 0 then 4 else 0)
      + (if |d.engagementMetrics| > 0 then 4 else 0)
      + (if d.profile.postCount == |d.posts| then 2 else if Abs(d.profile.postCount - |d.posts|) <= 5 then 1 else 0)
      + (if d.dataExportTimestamp != [] then 2 else 0)
      + (if |d.comments| > 0 || |d.directMessages| > 0 then 2 else 0)
      + (if d.profile.isVerified then 2 else 0)
  }

  /** The contributions add up to at most exactly 1.0, so the cap never changes the score: it
      is always a whole number of twentieths, at least 0.2. */
  lemma ScoreInTwentieths(d: InstagramData)
    ensures 4 <= ScoreUnits(d) <= 20
    ensures ConfidenceScore(d) == ScoreUnits(d) as real / 20.0
  {
  }

  /** More evidence never lowers the score: `e` has engagement metrics whenever `d` has, has
      comments or messages whenever `d` has, is verified whenever `d` is, and agrees with `d`
      on everything else the score reads. */
  ghost predicate AtLeastAsEvident(d: InstagramData, e: InstagramData) {
    && (|d.engagementMetrics| > 0 ==> |e.engagementMetrics| > 0)
    && (|d.comments| > 0 || |d.directMessages| > 0 ==> |e.comments| > 0 || |e.directMessages| > 0)
    && (d.profile.isVerified ==> e.profile.isVerified)
    && |d.posts| == |e.posts| && d.profile.postCount == e.profile.postCount
    && d.dataExportTimestamp == e.dataExportTimestamp
  }

  lemma ScoreMonotone(d: InstagramData, e: InstagramData)
    requires AtLeastAsEvident(d, e)
    ensures ConfidenceScore(d) <= ConfidenceScore(e)
  {
    ScoreInTwentieths(d);
    ScoreInTwentieths(e);
  }

  /** Adding an engagement snapshot, a comment or a message, or setting the verified flag,
      never lowers the score. */
  lemma AddingEvidence(d: InstagramData, m: InstagramEngagement, c: InstagramComment, dm: InstagramDM)
    ensures ConfidenceScore(d) <= ConfidenceScore(d.(engagementMetrics := d.engagementMetrics + [m]))
    ensures ConfidenceScore(d) <= ConfidenceScore(d.(comments := d.comments + [c]))
    ensures ConfidenceScore(d) <= ConfidenceScore(d.(directMessages := d.directMessages + [dm]))
    ensures ConfidenceScore(d) <= ConfidenceScore(d.(profile := d.profile.(isVerified := true)))
  {
    ScoreMonotone(d, d.(engagementMetrics := d.engagementMetrics + [m]));
    ScoreMonotone(d, d.(comments := d.comments + [c]));
    ScoreMonotone(d, d.(directMessages := d.directMessages + [dm]));
    ScoreMonotone(d, d.(profile := d.profile.(isVerified := true)));
  }

  // ---------------------------------------------------------------- verification method

  datatype Method = OfficialDataExport | ApiScraping | ComprehensiveDataExport | ManualVerification {
    function Label(): string {
      match this
      case OfficialDataExport => "official_data_export"
      case ApiScraping => "api_scraping"
      case ComprehensiveDataExport => "comprehensive_data_export"
      case ManualVerification => "manual_verification"
    }
  }

  /** `_determine_verification_method`: the first matching rule wins. */
  function DetermineMethod(d: InstagramData): (m: Method)
    ensures |d.engagementMetrics| > 0 ==> m == OfficialDataExport
    ensures m == ComprehensiveDataExport ==> |d.stories| > 0
  {
    if |d.engagementMetrics| > 0 then OfficialDataExport
    else if |d.posts| > 0 && |d.stories| == 0 then ApiScraping
    else if |d.posts| > 0 && |d.comments| > 0 && |d.directMessages| > 0 then ComprehensiveDataExport
    else ManualVerification
  }

  /** Each label, characterised by the collections alone once the earlier rules are taken into
      account: engagement metrics decide on their own; a comprehensive export needs stories,
      because posts without stories were already taken as scraping. */
  lemma MethodCharacterised(d: InstagramData)
    ensures DetermineMethod(d) == OfficialDataExport <==> |d.engagementMetrics| > 0
    ensures DetermineMethod(d) == ApiScraping <==>
              |d.engagementMetrics| == 0 && |d.posts| > 0 && |d.stories| == 0
    ensures DetermineMethod(d) == ComprehensiveDataExport <==>
              && |d.engagementMetrics| == 0 && |d.posts| > 0 && |d.stories| > 0
              && |d.comments| > 0 && |d.directMessages| > 0
    ensures DetermineMethod(d) == ManualVerification <==>
              && |d.engagementMetrics| == 0
              && (|d.posts| == 0 || (|d.stories| > 0 && (|d.comments| == 0 || |d.directMessages| == 0)))
  {
  }

  /** The four labels are distinct strings. */
  lemma LabelsDistinct(m: Method, n: Method)
    ensures m.Label() == n.Label() <==> m == n
  {
    if m != n {
      assert m.Label()[0] != n.Label()[0] || |m.Label()| != |n.Label()|;
    }
  }

  // ---------------------------------------------------------------- the proof document

  /** The attestation record; the two optional fields are never filled in. */
  datatype InstagramProof = InstagramProof(
    userId: string, usernameHash: string, proofType: string,
    dataExportTimestamp: string, proofGenerationTimestamp: string,
    totalPosts: int, totalStories: int, totalComments: int, totalDms: int,
    accountCreationEstimate: Option<string>,
    followerCount: int, followingCount: int, isVerified: bool, isPrivate: bool,
    profileHash: string, postsHash: string, storiesHash: string, commentsHash: string, dmsHash: string,
    apiResponses: Option<seq<Json>>,
    confidenceScore: real, verificationMethod: string)

  const ProofType: string := "instagram_data_export"

  /** `generate_proof`, with the generation time (an ISO-8601 text read from the clock in the
      source) passed in. */
  function GenerateProof(o: Oracles, d: InstagramData, now: string): (p: InstagramProof)
    ensures p.totalPosts == |d.posts| && p.totalStories == |d.stories|
    ensures p.totalComments == |d.comments| && p.totalDms == |d.directMessages|
    ensures p.usernameHash == HashText(o, d.profile.username)
    ensures WellBehaved(o) ==>
              && |p.profileHash| == 64 && |p.postsHash| == 64 && |p.storiesHash| == 64
              && |p.commentsHash| == 64 && |p.dmsHash| == 64
    ensures 0.0 <= p.confidenceScore <= 1.0
    ensures |d.engagementMetrics| > 0 ==> p.verificationMethod == "official_data_export"
    ensures p.userId == d.userId && p.proofType == "instagram_data_export"
    ensures p.dataExportTimestamp == d.dataExportTimestamp && p.proofGenerationTimestamp == now
    ensures p.followerCount == d.profile.followerCount && p.followingCount == d.profile.followingCount
    ensures p.isVerified == d.profile.isVerified && p.isPrivate == d.profile.isPrivate
    ensures p.accountCreationEstimate == None && p.apiResponses == None
    ensures p.profileHash == DocumentDigest(o, ProfileDocument(d.profile))
    ensures p.postsHash == DocumentDigest(o, PostsDocument(d.posts))
    ensures p.storiesHash == DocumentDigest(o, StoriesDocument(d.stories))
    ensures p.commentsHash == DocumentDigest(o, CommentsDocument(d.comments))
    ensures p.dmsHash == DocumentDigest(o, MessagesDocument(d.directMessages))
    ensures p.confidenceScore == ConfidenceScore(d) && p.verificationMethod == DetermineMethod(d).Label()
  {
    InstagramProof(
      d.userId, HashText(o, d.profile.username), ProofType,
      d.dataExportTimestamp, now,
      |d.posts|, |d.stories|, |d.comments|, |d.directMessages|,
      None,
      d.profile.followerCount, d.profile.followingCount, d.profile.isVerified, d.profile.isPrivate,
      DocumentDigest(o, ProfileDocument(d.profile)),
      DocumentDigest(o, PostsDocument(d.posts)),
      DocumentDigest(o, StoriesDocument(d.stories)),
      DocumentDigest(o, CommentsDocument(d.comments)),
      DocumentDigest(o, MessagesDocument(d.directMessages)),
      None,
      ConfidenceScore(d), DetermineMethod(d).Label())
  }

  /** Two runs on the same export differ at most in the generation time. */
  lemma OnlyTheClockDiffers(o: Oracles, d: InstagramData, now1: string, now2: string)
    ensures GenerateProof(o, d, now1) == GenerateProof(o, d, now2).(proofGenerationTimestamp := now1)
  {
  }
}
