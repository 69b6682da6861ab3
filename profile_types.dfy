/**
 * The profile schema: plain values describing a news-digest profile,
 * its RSS feeds, its six category flags and the record that is stored.
 */
module ProfileTypes {

  /** A feed is either being read (`'active'`) or suspended (`'paused'`). */
  datatype FeedStatus = Active | Paused

  /** An RSS source; `selected` is transient user-interface state. */
  datatype RssFeed = RssFeed(id: int, name: string, url: string, status: FeedStatus, selected: bool)

  /** The six fixed topic flags of a profile, in declaration order. */
  datatype CategoryTags = CategoryTags(
    inTheNews: bool,
    transHealth: bool,
    genderSenseLatest: bool,
    transitionCoaching: bool,
    communityHighlights: bool,
    transRights: bool)

  /** Timestamps are ISO-8601 strings; they are treated as opaque text. */
  datatype Metadata = Metadata(createdAt: string, updatedAt: string, version: string)

  datatype ProfileData = ProfileData(
    profileName: string,
    profileDescription: string,
    toneOfVoice: string,
    evaluationCriteria: seq<string>,
    summaryLength: int,
    categoryTags: CategoryTags,
    rssFeeds: seq<RssFeed>,
    metadata: Metadata)

  /** The row drafted for the `profiles` table: top-level columns plus the nested profile. */
  datatype DatabaseProfile = DatabaseProfile(
    profileName: string,
    profileDescription: string,
    isActive: bool,
    profileJson: ProfileData)
}
