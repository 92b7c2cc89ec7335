/** The raw export as the pipeline accepts it: typed records with required fields,
    optional fields and defaults, and the validator that turns an untyped JSON document
    into them, reporting every violation it finds. */
module Unrefined {
  import opened Results
  import opened Json

  datatype InstagramProfile = InstagramProfile(
    username: string,
    fullName: string,
    bio: Option<string>,              // default None
    followerCount: int,
    followingCount: int,
    postCount: int,
    isVerified: bool,                 // default false
    isPrivate: bool,                  // default false
    profilePicUrl: Option<string>)    // default None

  datatype PostMedia = PostMedia(mediaType: string, url: string, thumbnailUrl: Option<string>)

  datatype InstagramPost = InstagramPost(
    postId: string,
    caption: Option<string>,          // default None
    timestamp: string,
    likeCount: int,
    commentCount: int,
    media: seq<PostMedia>,            // required
    location: Option<string>,         // default None
    hashtags: seq<string>)            // default []

  datatype InstagramStory = InstagramStory(
    storyId: string, timestamp: string, mediaType: string, viewCount: int, mediaUrl: string)

  datatype InstagramComment = InstagramComment(
    commentId: string,
    postId: string,
    text: string,
    timestamp: string,
    likeCount: int,                   // default 0
    authorUsername: string)

  datatype InstagramDM = InstagramDM(
    messageId: string,
    conversationId: string,
    senderUsername: string,
    recipientUsername: string,
    messageText: Option<string>,      // default None
    timestamp: string,
    messageType: string)

  datatype InstagramEngagement = InstagramEngagement(
    date: string, profileViews: int, reach: int, impressions: int,
    websiteClicks: int)               // default 0

  datatype InstagramData = InstagramData(
    userId: string,
    profile: InstagramProfile,
    posts: seq<InstagramPost>,                    // default []
    stories: seq<InstagramStory>,                 // default []
    comments: seq<InstagramComment>,              // default []
    directMessages: seq<InstagramDM>,             // default []
    engagementMetrics: seq<InstagramEngagement>,  // default []
    dataExportTimestamp: string)

  // ---------------------------------------------------------------- validation

  datatype PathElem = Key(name: string) | Index(i: nat)
  datatype Problem = Missing | WrongType(expected: string)
  /** One violation: where in the document, and what is wrong there. */
  datatype Violation = Violation(loc: seq<PathElem>, problem: Problem)
  type Decoded<T> = Result<T, seq<Violation>>

  function Errors<T>(r: Decoded<T>): seq<Violation> {
    if r.Failure? then r.error else []
  }

  /** A decoder that never fails silently. */
  ghost predicate Reports<T>(decode: Json -> Decoded<T>) {
    forall j :: decode(j).Failure? ==> decode(j).error != []
  }

  /** Violations found inside a nested value, relocated under `prefix`. */
  function Nest(prefix: seq<PathElem>, vs: seq<Violation>): (r: seq<Violation>)
    ensures |r| == |vs|
    ensures forall i :: 0 <= i < |vs| ==> r[i] == Violation(prefix + vs[i].loc, vs[i].problem)
  {
    seq(|vs|, i requires 0 <= i < |vs| => Violation(prefix + vs[i].loc, vs[i].problem))
  }

  function Absent<T>(key: string): Decoded<T> {
    Failure([Violation([Key(key)], Missing)])
  }

  function Wrong<T>(key: string, expected: string): Decoded<T> {
    Failure([Violation([Key(key)], WrongType(expected))])
  }

  /** A required `str` field. */
  function Str(obj: map<string, Json>, key: string): Decoded<string> {
    if key !in obj then Absent(key)
    else if obj[key].JStr? then Success(obj[key].s)
    else Wrong(key, "string")
  }

  /** An `Optional[str] = None` field: absent or null gives None. */
  function OptStr(obj: map<string, Json>, key: string): Decoded<Option<string>> {
    if key !in obj || obj[key] == JNull then Success(None)
    else if obj[key].JStr? then Success(Some(obj[key].s))
    else Wrong(key, "string")
  }

  /** An `int` field, required when `default` is None. */
  function Int(obj: map<string, Json>, key: string, default: Option<int>): Decoded<int> {
    if key !in obj then (if default.Some? then Success(default.value) else Absent(key))
    else if obj[key].JInt? then Success(obj[key].i)
    else Wrong(key, "int")
  }

  /** A `bool` field with a default. */
  function Bool(obj: map<string, Json>, key: string, default: bool): Decoded<bool> {
    if key !in obj then Success(default)
    else if obj[key].JBool? then Success(obj[key].b)
    else Wrong(key, "bool")
  }

  /** Decodes every element, collecting the violations of all failing elements. */
  function Items<T>(items: seq<Json>, decode: Json -> Decoded<T>, start: nat): (r: Decoded<seq<T>>)
    requires Reports(decode)
    ensures r.Success? <==> forall i :: 0 <= i < |items| ==> decode(items[i]).Success?
    ensures r.Success? ==> |r.value| == |items|
    ensures r.Success? ==> forall i :: 0 <= i < |items| ==> decode(items[i]) == Success(r.value[i])
    ensures r.Failure? ==> r.error != []
    decreases |items|
  {
    if items == [] then Success([])
    else
      var first := decode(items[0]);
      var rest := Items(items[1..], decode, start + 1);
      if first.Success? && rest.Success? then Success([first.value] + rest.value)
      else Failure(Nest([Index(start)], Errors(first)) + Errors(rest))
  }

  /** A `List[T]` field; an absent list is empty unless the field is required. */
  function List<T>(obj: map<string, Json>, key: string, decode: Json -> Decoded<T>, required: bool): (r: Decoded<seq<T>>)
    requires Reports(decode)
    ensures r.Failure? ==> r.error != []
    ensures key !in obj ==> r == if required then Absent(key) else Success([])
  {
    if key !in obj then (if required then Absent(key) else Success([]))
    else if obj[key].JArr? then
      match Items(obj[key].items, decode, 0)
      case Success(v) => Success(v)
      case Failure(e) => Failure(Nest([Key(key)], e))
    else Wrong(key, "list")
  }

  /** Relocating keeps every violation, under the prefix. */
  lemma NestKeeps(prefix: seq<PathElem>, vs: seq<Violation>, v: Violation)
    requires v in vs
    ensures Violation(prefix + v.loc, v.problem) in Nest(prefix, vs)
  {
    var k :| 0 <= k < |vs| && vs[k] == v;
    assert Nest(prefix, vs)[k] == Violation(prefix + v.loc, v.problem);
  }

  /** A violation inside element i of a list is reported, located at that element's index. */
  lemma {:induction false} ItemsReports<T>(items: seq<Json>, decode: Json -> Decoded<T>, start: nat, i: nat, v: Violation)
    requires Reports(decode) && i < |items| && v in Errors(decode(items[i]))
    ensures Items(items, decode, start).Failure?
    ensures Violation([Index(start + i)] + v.loc, v.problem) in Items(items, decode, start).error
    decreases |items|
  {
    var first := decode(items[0]);
    var rest := Items(items[1..], decode, start + 1);
    if i == 0 {
      assert first.Failure?;
      assert Items(items, decode, start) == Failure(Nest([Index(start)], Errors(first)) + Errors(rest));
      NestKeeps([Index(start)], Errors(first), v);
    } else {
      assert items[1..][i - 1] == items[i];
      ItemsReports(items[1..], decode, start + 1, i - 1, v);
      assert Items(items, decode, start) == Failure(Nest([Index(start)], Errors(first)) + Errors(rest));
      assert start + 1 + (i - 1) == start + i;
    }
  }

  lemma TwoSteps(a: PathElem, b: PathElem, loc: seq<PathElem>)
    ensures [a] + ([b] + loc) == [a, b] + loc
  {
    assert [a] + [b] == [a, b];
  }

  /** A present list field whose elements fail reports their violations under its key. */
  lemma ListRelocates<T>(obj: map<string, Json>, key: string, decode: Json -> Decoded<T>, required: bool)
    requires Reports(decode) && key in obj && obj[key].JArr? && Items(obj[key].items, decode, 0).Failure?
    ensures List(obj, key, decode, required) == Failure(Nest([Key(key)], Items(obj[key].items, decode, 0).error))
  {
  }

  /** A violation inside element i of a present list field is reported under the field's key
      and the element's index. */
  lemma ListReports<T>(obj: map<string, Json>, key: string, decode: Json -> Decoded<T>, required: bool, i: nat, v: Violation)
    requires Reports(decode) && key in obj && obj[key].JArr? && i < |obj[key].items|
    requires v in Errors(decode(obj[key].items[i]))
    ensures List(obj, key, decode, required).Failure?
    ensures Violation([Key(key), Index(i)] + v.loc, v.problem) in List(obj, key, decode, required).error
  {
    var items := obj[key].items;
    ItemsReports(items, decode, 0, i, v);
    var e := Items(items, decode, 0).error;
    ListRelocates(obj, key, decode, required);
    NestKeeps([Key(key)], e, Violation([Index(i)] + v.loc, v.problem));
    TwoSteps(Key(key), Index(i), v.loc);
  }

  function NotObject<T>(): Decoded<T> {
    Failure([Violation([], WrongType("object"))])
  }

  function DecodeProfile(j: Json): (r: Decoded<InstagramProfile>)
    ensures r.Failure? ==> r.error != []
    ensures r.Success? ==> j.JObj? && ("is_verified" !in j.fields ==> !r.value.isVerified)
    ensures r.Success? ==> j.JObj? && ("is_private" !in j.fields ==> !r.value.isPrivate)
    ensures r.Success? ==> j.JObj? && ("bio" !in j.fields ==> r.value.bio == None)
  {
    if !j.JObj? then NotObject() else
    var f := j.fields;
    var username := Str(f, "username");
    var fullName := Str(f, "full_name");
    var bio := OptStr(f, "bio");
    var followers := Int(f, "follower_count", None);
    var following := Int(f, "following_count", None);
    var postCount := Int(f, "post_count", None);
    var verified := Bool(f, "is_verified", false);
    var private := Bool(f, "is_private", false);
    var pic := OptStr(f, "profile_pic_url");
    if && username.Success? && fullName.Success? && bio.Success? && followers.Success?
       && following.Success? && postCount.Success? && verified.Success? && private.Success? && pic.Success?
    then Success(InstagramProfile(username.value, fullName.value, bio.value, followers.value,
                                  following.value, postCount.value, verified.value, private.value, pic.value))
    else Failure(Errors(username) + Errors(fullName) + Errors(bio) + Errors(followers) + Errors(following)
                 + Errors(postCount) + Errors(verified) + Errors(private) + Errors(pic))
  }

  function DecodeMedia(j: Json): (r: Decoded<PostMedia>)
    ensures r.Failure? ==> r.error != []
  {
    if !j.JObj? then NotObject() else
    var f := j.fields;
    var mediaType := Str(f, "media_type");
    var url := Str(f, "url");
    var thumb := OptStr(f, "thumbnail_url");
    if mediaType.Success? && url.Success? && thumb.Success?
    then Success(PostMedia(mediaType.value, url.value, thumb.value))
    else Failure(Errors(mediaType) + Errors(url) + Errors(thumb))
  }

  function DecodeTag(j: Json): (r: Decoded<string>)
    ensures r.Failure? ==> r.error != []
  {
    if j.JStr? then Success(j.s) else Failure([Violation([], WrongType("string"))])
  }

  function DecodePost(j: Json): (r: Decoded<InstagramPost>)
    ensures r.Failure? ==> r.error != []
    ensures r.Success? ==> j.JObj? && ("hashtags" !in j.fields ==> r.value.hashtags == [])
    ensures r.Success? ==> j.JObj? && ("caption" !in j.fields ==> r.value.caption == None)
    ensures r.Success? ==> j.JObj? && ("location" !in j.fields ==> r.value.location == None)
    ensures j.JObj? && "media" !in j.fields ==> r.Failure? && Violation([Key("media")], Missing) in r.error
  {
    if !j.JObj? then NotObject() else
    var f := j.fields;
    var postId := Str(f, "post_id");
    var caption := OptStr(f, "caption");
    var timestamp := Str(f, "timestamp");
    var likes := Int(f, "like_count", None);
    var comments := Int(f, "comment_count", None);
    var media := List(f, "media", DecodeMedia, true);
    var location := OptStr(f, "location");
    var hashtags := List(f, "hashtags", DecodeTag, false);
    if && postId.Success? && caption.Success? && timestamp.Success? && likes.Success?
       && comments.Success? && media.Success? && location.Success? && hashtags.Success?
    then Success(InstagramPost(postId.value, caption.value, timestamp.value, likes.value,
                               comments.value, media.value, location.value, hashtags.value))
    else Failure(Errors(postId) + Errors(caption) + Errors(timestamp) + Errors(likes)
                 + Errors(comments) + Errors(media) + Errors(location) + Errors(hashtags))
  }

  function DecodeStory(j: Json): (r: Decoded<InstagramStory>)
    ensures r.Failure? ==> r.error != []
  {
    if !j.JObj? then NotObject() else
    var f := j.fields;
    var storyId := Str(f, "story_id");
    var timestamp := Str(f, "timestamp");
    var mediaType := Str(f, "media_type");
    var views := Int(f, "view_count", None);
    var url := Str(f, "media_url");
    if storyId.Success? && timestamp.Success? && mediaType.Success? && views.Success? && url.Success?
    then Success(InstagramStory(storyId.value, timestamp.value, mediaType.value, views.value, url.value))
    else Failure(Errors(storyId) + Errors(timestamp) + Errors(mediaType) + Errors(views) + Errors(url))
  }

  function DecodeComment(j: Json): (r: Decoded<InstagramComment>)
    ensures r.Failure? ==> r.error != []
    ensures r.Success? ==> j.JObj? && ("like_count" !in j.fields ==> r.value.likeCount == 0)
  {
    if !j.JObj? then NotObject() else
    var f := j.fields;
    var commentId := Str(f, "comment_id");
    var postId := Str(f, "post_id");
    var text := Str(f, "text");
    var timestamp := Str(f, "timestamp");
    var likes := Int(f, "like_count", Some(0));
    var author := Str(f, "author_username");
    if && commentId.Success? && postId.Success? && text.Success? && timestamp.Success?
       && likes.Success? && author.Success?
    then Success(InstagramComment(commentId.value, postId.value, text.value, timestamp.value,
                                  likes.value, author.value))
    else Failure(Errors(commentId) + Errors(postId) + Errors(text) + Errors(timestamp)
                 + Errors(likes) + Errors(author))
  }

  function DecodeDM(j: Json): (r: Decoded<InstagramDM>)
    ensures r.Failure? ==> r.error != []
    ensures r.Success? ==> j.JObj? && ("message_text" !in j.fields ==> r.value.messageText == None)
    ensures j.JObj? && "sender_username" !in j.fields ==> r.Failure? && Violation([Key("sender_username")], Missing) in r.error
    ensures j.JObj? && "conversation_id" !in j.fields ==> r.Failure? && Violation([Key("conversation_id")], Missing) in r.error
  {
    if !j.JObj? then NotObject() else
    var f := j.fields;
    var messageId := Str(f, "message_id");
    var conversation := Str(f, "conversation_id");
    var sender := Str(f, "sender_username");
    var recipient := Str(f, "recipient_username");
    var text := OptStr(f, "message_text");
    var timestamp := Str(f, "timestamp");
    var kind := Str(f, "message_type");
    if && messageId.Success? && conversation.Success? && sender.Success? && recipient.Success?
       && text.Success? && timestamp.Success? && kind.Success?
    then Success(InstagramDM(messageId.value, conversation.value, sender.value, recipient.value,
                             text.value, timestamp.value, kind.value))
    else Failure(Errors(messageId) + Errors(conversation) + Errors(sender) + Errors(recipient)
                 + Errors(text) + Errors(timestamp) + Errors(kind))
  }

  function DecodeEngagement(j: Json): (r: Decoded<InstagramEngagement>)
    ensures r.Failure? ==> r.error != []
    ensures r.Success? ==> j.JObj? && ("website_clicks" !in j.fields ==> r.value.websiteClicks == 0)
  {
    if !j.JObj? then NotObject() else
    var f := j.fields;
    var date := Str(f, "date");
    var views := Int(f, "profile_views", None);
    var reach := Int(f, "reach", None);
    var impressions := Int(f, "impressions", None);
    var clicks := Int(f, "website_clicks", Some(0));
    if date.Success? && views.Success? && reach.Success? && impressions.Success? && clicks.Success?
    then Success(InstagramEngagement(date.value, views.value, reach.value, impressions.value, clicks.value))
    else Failure(Errors(date) + Errors(views) + Errors(reach) + Errors(impressions) + Errors(clicks))
  }

  /** A required nested record field. */
  function Nested<T>(obj: map<string, Json>, key: string, decode: Json -> Decoded<T>): (r: Decoded<T>)
    requires Reports(decode)
    ensures r.Failure? ==> r.error != []
  {
    if key !in obj then Absent(key)
    else match decode(obj[key])
      case Success(v) => Success(v)
      case Failure(e) => Failure(Nest([Key(key)], e))
  }

  /** `InstagramData.model_validate`: the document must be an object holding `user_id`,
      `profile` and `data_export_timestamp`; the five collections default to empty;
      every violation found anywhere is reported. */
  function Validate(doc: Json): (r: Decoded<InstagramData>)
    ensures r.Failure? ==> r.error != []
    ensures r.Success? ==> doc.JObj?
  {
    if !doc.JObj? then NotObject() else
    var f := doc.fields;
    var userId := Str(f, "user_id");
    var profile := Nested(f, "profile", DecodeProfile);
    var posts := List(f, "posts", DecodePost, false);
    var stories := List(f, "stories", DecodeStory, false);
    var comments := List(f, "comments", DecodeComment, false);
    var dms := List(f, "direct_messages", DecodeDM, false);
    var metrics := List(f, "engagement_metrics", DecodeEngagement, false);
    var exportTs := Str(f, "data_export_timestamp");
    if && userId.Success? && profile.Success? && posts.Success? && stories.Success?
       && comments.Success? && dms.Success? && metrics.Success? && exportTs.Success?
    then Success(InstagramData(userId.value, profile.value, posts.value, stories.value,
                               comments.value, dms.value, metrics.value, exportTs.value))
    else Failure(Errors(userId) + Errors(profile) + Errors(posts) + Errors(stories)
                 + Errors(comments) + Errors(dms) + Errors(metrics) + Errors(exportTs))
  }

  /** `user_id`, `profile` and `data_export_timestamp` are required: validation of an object
      without one of them fails and reports that field as missing. */
  lemma ValidateRequired(doc: Json)
    requires doc.JObj?
    ensures "user_id" !in doc.fields ==>
              Validate(doc).Failure? && Violation([Key("user_id")], Missing) in Validate(doc).error
    ensures "profile" !in doc.fields ==>
              Validate(doc).Failure? && Violation([Key("profile")], Missing) in Validate(doc).error
    ensures "data_export_timestamp" !in doc.fields ==>
              Validate(doc).Failure? && Violation([Key("data_export_timestamp")], Missing) in Validate(doc).error
  {
  }

  /** Validation keeps every violation of every field: nothing a field reports is dropped. */
  lemma ValidateCollects(doc: Json)
    requires doc.JObj?
    ensures var f := doc.fields; var e := Errors(Validate(doc));
      && (forall v :: v in Errors(Str(f, "user_id")) ==> v in e)
      && (forall v :: v in Errors(Nested(f, "profile", DecodeProfile)) ==> v in e)
      && (forall v :: v in Errors(List(f, "posts", DecodePost, false)) ==> v in e)
      && (forall v :: v in Errors(List(f, "stories", DecodeStory, false)) ==> v in e)
      && (forall v :: v in Errors(List(f, "comments", DecodeComment, false)) ==> v in e)
      && (forall v :: v in Errors(List(f, "direct_messages", DecodeDM, false)) ==> v in e)
      && (forall v :: v in Errors(List(f, "engagement_metrics", DecodeEngagement, false)) ==> v in e)
      && (forall v :: v in Errors(Str(f, "data_export_timestamp")) ==> v in e)
  {
  }

  /** Element i of the list field `key` is present and decoding it reports violation v. */
  ghost predicate InElement<T>(f: map<string, Json>, key: string, decode: Json -> Decoded<T>, i: nat, v: Violation) {
    key in f && f[key].JArr? && i < |f[key].items| && v in Errors(decode(f[key].items[i]))
  }

  /** Every violation inside every post is reported, under `posts` and the post's index, and
      likewise for the other four collections: one failing element never hides another. */
  lemma ValidateReportsElements(doc: Json, i: nat, v: Violation)
    requires doc.JObj?
    ensures InElement(doc.fields, "posts", DecodePost, i, v) ==>
              Violation([Key("posts"), Index(i)] + v.loc, v.problem) in Errors(Validate(doc))
    ensures InElement(doc.fields, "stories", DecodeStory, i, v) ==>
              Violation([Key("stories"), Index(i)] + v.loc, v.problem) in Errors(Validate(doc))
    ensures InElement(doc.fields, "comments", DecodeComment, i, v) ==>
              Violation([Key("comments"), Index(i)] + v.loc, v.problem) in Errors(Validate(doc))
    ensures InElement(doc.fields, "direct_messages", DecodeDM, i, v) ==>
              Violation([Key("direct_messages"), Index(i)] + v.loc, v.problem) in Errors(Validate(doc))
    ensures InElement(doc.fields, "engagement_metrics", DecodeEngagement, i, v) ==>
              Violation([Key("engagement_metrics"), Index(i)] + v.loc, v.problem) in Errors(Validate(doc))
  {
    var f := doc.fields;
    ValidateCollects(doc);
    if InElement(f, "posts", DecodePost, i, v) {
      ListReports(f, "posts", DecodePost, false, i, v);
    }
    if InElement(f, "stories", DecodeStory, i, v) {
      ListReports(f, "stories", DecodeStory, false, i, v);
    }
    if InElement(f, "comments", DecodeComment, i, v) {
      ListReports(f, "comments", DecodeComment, false, i, v);
    }
    if InElement(f, "direct_messages", DecodeDM, i, v) {
      ListReports(f, "direct_messages", DecodeDM, false, i, v);
    }
    if InElement(f, "engagement_metrics", DecodeEngagement, i, v) {
      ListReports(f, "engagement_metrics", DecodeEngagement, false, i, v);
    }
  }

  /** An accepted export carries the document's `user_id` and `data_export_timestamp` strings,
      and each of the five collections the document leaves out is empty. */
  lemma ValidateDefaults(doc: Json)
    requires Validate(doc).Success?
    ensures var d := Validate(doc).value;
      && doc.JObj?
      && "user_id" in doc.fields && doc.fields["user_id"] == JStr(d.userId)
      && "data_export_timestamp" in doc.fields && doc.fields["data_export_timestamp"] == JStr(d.dataExportTimestamp)
      && ("posts" !in doc.fields ==> d.posts == [])
      && ("stories" !in doc.fields ==> d.stories == [])
      && ("comments" !in doc.fields ==> d.comments == [])
      && ("direct_messages" !in doc.fields ==> d.directMessages == [])
      && ("engagement_metrics" !in doc.fields ==> d.engagementMetrics == [])
  {
  }

  // ---------------------------------------------------------------- encoding (round-trip partner)

  function OptJson(s: Option<string>): Json {
    if s.Some? then JStr(s.value) else JNull
  }

  function Array<T>(xs: seq<T>, encode: T -> Json): (r: seq<Json>)
    ensures |r| == |xs| && forall i :: 0 <= i < |xs| ==> r[i] == encode(xs[i])
  {
    seq(|xs|, i requires 0 <= i < |xs| => encode(xs[i]))
  }

  function EncodeProfile(p: InstagramProfile): Json {
    JObj(map[
      "username" := JStr(p.username), "full_name" := JStr(p.fullName), "bio" := OptJson(p.bio),
      "follower_count" := JInt(p.followerCount), "following_count" := JInt(p.followingCount),
      "post_count" := JInt(p.postCount), "is_verified" := JBool(p.isVerified),
      "is_private" := JBool(p.isPrivate), "profile_pic_url" := OptJson(p.profilePicUrl)])
  }

  function EncodeMedia(m: PostMedia): Json {
    JObj(map["media_type" := JStr(m.mediaType), "url" := JStr(m.url), "thumbnail_url" := OptJson(m.thumbnailUrl)])
  }

  function EncodeTag(t: string): Json {
    JStr(t)
  }

  function EncodePost(p: InstagramPost): Json {
    JObj(map[
      "post_id" := JStr(p.postId), "caption" := OptJson(p.caption), "timestamp" := JStr(p.timestamp),
      "like_count" := JInt(p.likeCount), "comment_count" := JInt(p.commentCount),
      "media" := JArr(Array(p.media, EncodeMedia)), "location" := OptJson(p.location),
      "hashtags" := JArr(Array(p.hashtags, EncodeTag))])
  }

  function EncodeStory(s: InstagramStory): Json {
    JObj(map[
      "story_id" := JStr(s.storyId), "timestamp" := JStr(s.timestamp), "media_type" := JStr(s.mediaType),
      "view_count" := JInt(s.viewCount), "media_url" := JStr(s.mediaUrl)])
  }

  function EncodeComment(c: InstagramComment): Json {
    JObj(map[
      "comment_id" := JStr(c.commentId), "post_id" := JStr(c.postId), "text" := JStr(c.text),
      "timestamp" := JStr(c.timestamp), "like_count" := JInt(c.likeCount),
      "author_username" := JStr(c.authorUsername)])
  }

  function EncodeDM(m: InstagramDM): Json {
    JObj(map[
      "message_id" := JStr(m.messageId), "conversation_id" := JStr(m.conversationId),
      "sender_username" := JStr(m.senderUsername), "recipient_username" := JStr(m.recipientUsername),
      "message_text" := OptJson(m.messageText), "timestamp" := JStr(m.timestamp),
      "message_type" := JStr(m.messageType)])
  }

  function EncodeEngagement(e: InstagramEngagement): Json {
    JObj(map[
      "date" := JStr(e.date), "profile_views" := JInt(e.profileViews), "reach" := JInt(e.reach),
      "impressions" := JInt(e.impressions), "website_clicks" := JInt(e.websiteClicks)])
  }

  /** The export as the JSON document it was read from, every field written out. */
  function Encode(d: InstagramData): Json {
    JObj(map[
      "user_id" := JStr(d.userId), "profile" := EncodeProfile(d.profile),
      "posts" := JArr(Array(d.posts, EncodePost)), "stories" := JArr(Array(d.stories, EncodeStory)),
      "comments" := JArr(Array(d.comments, EncodeComment)),
      "direct_messages" := JArr(Array(d.directMessages, EncodeDM)),
      "engagement_metrics" := JArr(Array(d.engagementMetrics, EncodeEngagement)),
      "data_export_timestamp" := JStr(d.dataExportTimestamp)])
  }

  lemma {:induction false} ItemsRoundTrip<T>(xs: seq<T>, encode: T -> Json, decode: Json -> Decoded<T>, start: nat)
    requires Reports(decode)
    requires forall x :: decode(encode(x)) == Success(x)
    ensures Items(Array(xs, encode), decode, start) == Success(xs)
    decreases |xs|
  {
    if xs != [] {
      assert Array(xs, encode)[1..] == Array(xs[1..], encode);
      ItemsRoundTrip(xs[1..], encode, decode, start + 1);
      assert xs == [xs[0]] + xs[1..];
    }
  }

  lemma ProfileRoundTrip(p: InstagramProfile)
    ensures DecodeProfile(EncodeProfile(p)) == Success(p)
  {
  }

  lemma MediaRoundTrip(m: PostMedia)
    ensures DecodeMedia(EncodeMedia(m)) == Success(m)
  {
  }

  lemma PostKeys(p: InstagramPost)
    ensures var f := EncodePost(p).fields;
      && "post_id" in f && f["post_id"] == JStr(p.postId)
      && "caption" in f && f["caption"] == OptJson(p.caption)
      && "timestamp" in f && f["timestamp"] == JStr(p.timestamp)
      && "like_count" in f && f["like_count"] == JInt(p.likeCount)
      && "comment_count" in f && f["comment_count"] == JInt(p.commentCount)
      && "media" in f && f["media"] == JArr(Array(p.media, EncodeMedia))
      && "location" in f && f["location"] == OptJson(p.location)
      && "hashtags" in f && f["hashtags"] == JArr(Array(p.hashtags, EncodeTag))
  {
  }

  lemma PostListsRoundTrip(p: InstagramPost)
    ensures var f := EncodePost(p).fields;
      && List(f, "media", DecodeMedia, true) == Success(p.media)
      && List(f, "hashtags", DecodeTag, false) == Success(p.hashtags)
  {
    forall m | true ensures DecodeMedia(EncodeMedia(m)) == Success(m) {
      MediaRoundTrip(m);
    }
    assert forall t :: DecodeTag(EncodeTag(t)) == Success(t);
    ItemsRoundTrip(p.media, EncodeMedia, DecodeMedia, 0);
    ItemsRoundTrip(p.hashtags, EncodeTag, DecodeTag, 0);
    PostKeys(p);
  }

  lemma PostFieldsRoundTrip(p: InstagramPost)
    ensures var f := EncodePost(p).fields;
      && Str(f, "post_id") == Success(p.postId)
      && OptStr(f, "caption") == Success(p.caption)
      && Str(f, "timestamp") == Success(p.timestamp)
      && Int(f, "like_count", None) == Success(p.likeCount)
      && Int(f, "comment_count", None) == Success(p.commentCount)
      && List(f, "media", DecodeMedia, true) == Success(p.media)
      && OptStr(f, "location") == Success(p.location)
      && List(f, "hashtags", DecodeTag, false) == Success(p.hashtags)
  {
    PostKeys(p);
    PostListsRoundTrip(p);
  }

  lemma PostRoundTrip(p: InstagramPost)
    ensures DecodePost(EncodePost(p)) == Success(p)
  {
    PostFieldsRoundTrip(p);
  }

  lemma StoryRoundTrip(s: InstagramStory)
    ensures DecodeStory(EncodeStory(s)) == Success(s)
  {
  }

  lemma CommentRoundTrip(c: InstagramComment)
    ensures DecodeComment(EncodeComment(c)) == Success(c)
  {
  }

  lemma DMRoundTrip(m: InstagramDM)
    ensures DecodeDM(EncodeDM(m)) == Success(m)
  {
  }

  lemma EngagementRoundTrip(e: InstagramEngagement)
    ensures DecodeEngagement(EncodeEngagement(e)) == Success(e)
  {
  }

  lemma DataKeys(d: InstagramData)
    ensures var f := Encode(d).fields;
      && "user_id" in f && f["user_id"] == JStr(d.userId)
      && "profile" in f && f["profile"] == EncodeProfile(d.profile)
      && "posts" in f && f["posts"] == JArr(Array(d.posts, EncodePost))
      && "stories" in f && f["stories"] == JArr(Array(d.stories, EncodeStory))
      && "comments" in f && f["comments"] == JArr(Array(d.comments, EncodeComment))
      && "direct_messages" in f && f["direct_messages"] == JArr(Array(d.directMessages, EncodeDM))
      && "engagement_metrics" in f && f["engagement_metrics"] == JArr(Array(d.engagementMetrics, EncodeEngagement))
      && "data_export_timestamp" in f && f["data_export_timestamp"] == JStr(d.dataExportTimestamp)
  {
  }

  lemma DataFieldsRoundTrip(d: InstagramData)
    ensures var f := Encode(d).fields;
      && Str(f, "user_id") == Success(d.userId)
      && Nested(f, "profile", DecodeProfile) == Success(d.profile)
      && List(f, "posts", DecodePost, false) == Success(d.posts)
      && List(f, "stories", DecodeStory, false) == Success(d.stories)
      && List(f, "comments", DecodeComment, false) == Success(d.comments)
      && List(f, "direct_messages", DecodeDM, false) == Success(d.directMessages)
      && List(f, "engagement_metrics", DecodeEngagement, false) == Success(d.engagementMetrics)
      && Str(f, "data_export_timestamp") == Success(d.dataExportTimestamp)
  {
    ProfileRoundTrip(d.profile);
    forall p | true ensures DecodePost(EncodePost(p)) == Success(p) {
      PostRoundTrip(p);
    }
    forall x | true ensures DecodeStory(EncodeStory(x)) == Success(x) {
      StoryRoundTrip(x);
    }
    forall x | true ensures DecodeComment(EncodeComment(x)) == Success(x) {
      CommentRoundTrip(x);
    }
    forall x | true ensures DecodeDM(EncodeDM(x)) == Success(x) {
      DMRoundTrip(x);
    }
    forall x | true ensures DecodeEngagement(EncodeEngagement(x)) == Success(x) {
      EngagementRoundTrip(x);
    }
    ItemsRoundTrip(d.posts, EncodePost, DecodePost, 0);
    ItemsRoundTrip(d.stories, EncodeStory, DecodeStory, 0);
    ItemsRoundTrip(d.comments, EncodeComment, DecodeComment, 0);
    ItemsRoundTrip(d.directMessages, EncodeDM, DecodeDM, 0);
    ItemsRoundTrip(d.engagementMetrics, EncodeEngagement, DecodeEngagement, 0);
    DataKeys(d);
  }

  /** Validation accepts every fully written-out export and gives back exactly that export. */
  lemma ValidateEncodeRoundTrip(d: InstagramData)
    ensures Validate(Encode(d)) == Success(d)
  {
    DataFieldsRoundTrip(d);
  }
}
