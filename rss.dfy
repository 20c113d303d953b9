/** The values the aggregator moves between the feed document and the store. */
module Rss {

  /** A `uuid.UUID`; identities are drawn by the store and the caller, never computed here. */
  type Uuid = nat

  /** A `time.Time`, as an abstract instant. */
  type Instant = int

  /** One `<item>` of a decoded feed document (RSSItem). */
  datatype RssItem = RssItem(title: string, link: string, description: string, pubDate: string)

  /** The `<channel>` element of a decoded feed document. */
  datatype Channel = Channel(title: string, link: string, description: string, items: seq<RssItem>)

  /** A decoded feed document (RSSFeed). */
  datatype RssFeed = RssFeed(channel: Channel)

  /** The rows of the store that handlers read back: database.User and database.Feed. */
  datatype User = User(id: Uuid, name: string)

  datatype Feed = Feed(id: Uuid, name: string, url: string, userId: Uuid)

  /** The fields of database.CreatePostParams that come from the feed; the fresh
      id and the creation and update timestamps are left out. */
  datatype Post = Post(title: string, url: string, description: string, publishedAt: Instant, feedId: Uuid)
}
