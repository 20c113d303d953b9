/**
 * The program's external collaborators: the store (database.Queries), the
 * HTTP client with the XML decoder, the configuration file and the ticker.
 * The store, the fetch and the configuration write are oracles: their answer
 * to a call is a function of the call and the trace of every external event
 * before it. The unescaping and the date and duration parsers are pure
 * functions of their argument. A run of the program is thus determined by
 * the oracles and the trace of events it produces.
 */
module Effects {
  import opened Wrappers
  import opened Rss

  /** The store operations main.go issues, with the arguments it passes. */
  datatype Call =
    | GetUser(name: string)
    | CreateUser(name: string)
    | DeleteUsers
    | GetUsers
    | AddFeed(feedName: string, url: string, userId: Uuid)
    | CreateFeedFollow(userId: Uuid, feedId: Uuid)
    | GetFeeds
    | GetUserById(userId: Uuid)
    | GetFeed(url: string)
    | GetFeedFollowsForUser(userName: string)
    | DeleteFeedFollow(userId: Uuid, url: string)
    | GetPosts(limit: int)
    | GenNextFeedToFetch
    | MarkFeedFetched(feedId: Uuid)
    | CreatePost(post: Post)

  /** One external event, in the order the program causes it. */
  datatype Event =
    | Query(call: Call)
    | HttpGet(url: string)
    | ConfigWrite(userName: string)
    | Wait(interval: int)

  type Trace = seq<Event>

  /** The store's answers. `exec` answers the calls whose result the program
      only prints or ignores (None is success, Some carries the error message);
      the others return the row the program goes on to use. */
  datatype Store = Store(
    exec: (Trace, Call) -> Option<string>,
    user: (Trace, Call) -> Result<User>,
    feed: (Trace, Call) -> Result<Feed>,
    feeds: Trace -> Result<seq<Feed>>)

  /** Everything outside main.go that a run depends on. `http` stands for the
      request, the body read and the XML decoding of fetchFeed together;
      `setUser` for Config.SetUser; `unescape`, `parseDate` and `parseDuration`
      for html.UnescapeString, dateparse.ParseAny and time.ParseDuration
      (a duration in nanoseconds); `currentUserName` is the configuration read at
      start-up; `ticks` is how many ticker periods of `agg` the model follows. */
  datatype Env = Env(
    store: Store,
    http: (Trace, string) -> Result<RssFeed>,
    setUser: (Trace, string) -> Option<string>,
    unescape: string -> string,
    parseDate: string -> Result<Instant>,
    parseDuration: string -> Result<int>,
    currentUserName: string,
    ticks: nat)

  /** How a command ends: it returns nil, it returns an error, the process
      stops (log.Fatal or a panic), or, for `agg`, it is still running once the
      followed ticks are over. */
  datatype Outcome = Done | Failed(err: string) | Halted(reason: string) | Running

  /** The outcome of a handler together with the trace after it. */
  datatype Step = Step(outcome: Outcome, trace: Trace)

  /** Go's `state`: the handle on the store and the configuration. The trace
      records every external event so far. */
  class State {
    var trace: Trace
    const env: Env

    constructor (env: Env, history: Trace)
      ensures this.env == env && trace == history
    {
      this.env := env;
      trace := history;
    }

    /** A store call whose row is not used. */
    method Exec(c: Call) returns (err: Option<string>)
      modifies this
      ensures trace == old(trace) + [Query(c)]
      ensures err == env.store.exec(old(trace), c)
    {
      err := env.store.exec(trace, c);
      trace := trace + [Query(c)];
    }

    /** A store call that returns a feed row. */
    method QueryFeed(c: Call) returns (r: Result<Feed>)
      modifies this
      ensures trace == old(trace) + [Query(c)]
      ensures r == env.store.feed(old(trace), c)
    {
      r := env.store.feed(trace, c);
      trace := trace + [Query(c)];
    }

    /** A store call that returns a user row. */
    method QueryUser(c: Call) returns (r: Result<User>)
      modifies this
      ensures trace == old(trace) + [Query(c)]
      ensures r == env.store.user(old(trace), c)
    {
      r := env.store.user(trace, c);
      trace := trace + [Query(c)];
    }

    /** GetFeeds, which returns every feed row. */
    method QueryFeeds() returns (r: Result<seq<Feed>>)
      modifies this
      ensures trace == old(trace) + [Query(GetFeeds)]
      ensures r == env.store.feeds(old(trace))
    {
      r := env.store.feeds(trace);
      trace := trace + [Query(GetFeeds)];
    }

    /** GET of a feed URL, reading and decoding the body. */
    method Get(url: string) returns (r: Result<RssFeed>)
      modifies this
      ensures trace == old(trace) + [HttpGet(url)]
      ensures r == env.http(old(trace), url)
    {
      r := env.http(trace, url);
      trace := trace + [HttpGet(url)];
    }

    /** `<-ticker.C`: wait for the next tick of a ticker with the given interval. */
    method AwaitTick(interval: int)
      modifies this
      ensures trace == old(trace) + [Wait(interval)]
    {
      trace := trace + [Wait(interval)];
    }
  }
}
