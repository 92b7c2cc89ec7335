/** The anonymised analytic records the transformer emits, one constructor per output table.
    Identifying text never appears here: it is replaced by a hash or a length. */
module Refined {
  import opened Results
  import opened Timestamps

  datatype Record =
    | UserProfile(
        userId: string, usernameHash: string, fullNameHash: string, bioLength: int,
        followerCount: int, followingCount: int, postCount: int,
        isVerified: bool, isPrivate: bool, accountAgeDays: Option<int>, dataExportDate: Timestamp)
    | Post(
        postId: string, userId: string, captionLength: int, postDate: Timestamp,
        likeCount: int, commentCount: int, mediaCount: int, hasLocation: bool,
        hashtagCount: int, engagementRate: real)
    | Media(postId: string, mediaType: string)
    | Story(storyId: string, userId: string, storyDate: Timestamp, mediaType: string, viewCount: int)
    | Comment(
        commentId: string, userId: string, postId: string, commentLength: int,
        commentDate: Timestamp, likeCount: int, authorUsernameHash: string)
    | DirectMessage(
        messageId: string, userId: string, conversationIdHash: string, messageLength: int,
        messageDate: Timestamp, messageType: string, isSender: bool)
    | EngagementMetric(
        userId: string, metricDate: Timestamp, profileViews: int, reach: int,
        impressions: int, websiteClicks: int)
    | HashtagUsage(
        userId: string, hashtagHash: string, usageCount: int, firstUsed: Timestamp, lastUsed: Timestamp)
    | ActivityPattern(
        userId: string, hourOfDay: int, dayOfWeek: int,
        postCount: int, storyCount: int, commentCount: int, dmCount: int)

  /** Position of each kind of record in the transformer's output; Post and Media share a section. */
  function Section(r: Record): nat {
    match r
    case UserProfile(_, _, _, _, _, _, _, _, _, _, _) => 0
    case Post(_, _, _, _, _, _, _, _, _, _) => 1
    case Media(_, _) => 1
    case Story(_, _, _, _, _) => 2
    case Comment(_, _, _, _, _, _, _) => 3
    case DirectMessage(_, _, _, _, _, _, _) => 4
    case EngagementMetric(_, _, _, _, _, _) => 5
    case HashtagUsage(_, _, _, _, _) => 6
    case ActivityPattern(_, _, _, _, _, _, _) => 7
  }
}
