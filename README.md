# gatorcli command dispatch and feed aggregator, modelled in Dafny

gatorcli is a command-line RSS aggregator written in Go. Users register,
add feeds, follow them, and `agg <interval>` runs a loop that, on every
tick, selects the next feed, marks it fetched, downloads and decodes it, and
stores one post per item, skipping items the store already holds. This
project models the logic of `main.go`:

- the command table (`commands.register`, `commands.run`), every handler's
  argument guard and store calls, and the `middlewareLoggedIn` wrapper;
- `handlerBrowse`'s limit: the default of 2, `strconv.Atoi` and the
  `int32` conversion;
- `fetchFeed` after decoding, one `scrapeFeeds` cycle and `handlerAgg`'s
  ticker loop, with the rule that decides which insert errors are skipped.

## How the model is built

- External collaborators are oracles (module `Effects`). The store
  (`database.Queries`), the HTTP fetch with the body read and XML decoding,
  the configuration write, `html.UnescapeString`, `dateparse.ParseAny` and
  `time.ParseDuration` are fields of an `Env` value. The store, the fetch
  and the configuration write answer a call as a function of the call and
  the trace of all external events before it. `unescape`, `parseDate` and
  `parseDuration` are pure: their answer depends on their argument alone.
  Every store call, GET, configuration write and ticker wait is appended to
  that trace. Go's `state` is the class `Effects.State`, which owns the trace.
- Handlers are values of the datatype `Handlers.Handler`.
  `LoggedIn(h)` stands for `middlewareLoggedIn(h)`. Handlers without loops are
  functions returning a `Step`. A `Step` is the outcome plus the trace after
  the handler. `handlerFeeds`, `scrapeFeeds` and `handlerAgg` loop, so they
  are methods. Each such method is proved equal to a specification function.
- `log.Fatal` and Go panics become the outcome `Halted`. `handlerAgg` never
  returns. The model follows `Env.ticks` iterations of its loop and then
  reports `Running`.
- `fetchFeed` is modelled as written. The loop over `feed.Channel.Item`
  unescapes copies of the items, so items keep their decoded text.
  `PostDecode` proves this, and `scrapeFeeds` stores the items as decoded.
- Behaviour of the code that is easy to miss; the model follows it:
  - A non-2xx HTTP status is not an error. The body is decoded as usual, so
    the fetch oracle alone decides success.
  - A date or insert failure ends the whole process, not just that item.
  - `agg 0s` and negative intervals parse, then `time.NewTicker` panics.
    This is modelled as `Halted("non-positive interval for NewTicker")`.
  - `Config.SetUser` has a value receiver. It writes the file but does not
    change the configuration held in memory, so `currentUserName` is fixed
    for a run.
  - `handlerFeeds`, `handlerFollowing` and `handlerBrowse` return nil when
    their listing query fails.

## Model

| member | source | states |
|---|---|---|
| `Text.ToLowerAt` | main.go:406 | lower-casing (ASCII) leaves no upper-case letter; it moves an upper-case letter to its lower-case partner and keeps every other character |
| `Text.ToLowerSlice` | main.go:406 | lower-casing commutes with taking a slice |
| `Text.ContainsOccurs` | main.go:406 | `strings.Contains(s, sub)` holds exactly when sub occurs at some position of s |
| `Text.UniqueViolationAnyCase` | main.go:406 | an insert error counts as a duplicate exactly when some six characters of its message spell "unique" in any mix of cases |
| `Numbers.ToInt32` | main.go:349 | `int32(limit)` lies in the int32 range, is congruent to limit modulo 2^32, and is limit itself when limit fits |
| `Numbers.ScanDigits` | main.go:343 | on a digit string, Atoi's digit loop returns the digits' value, or a range error exactly when the value exceeds the largest uint64 |
| `Numbers.AtoiMeaning` | main.go:343 | `strconv.Atoi` succeeds exactly on an optional sign followed by digits whose value is in the int64 range, and then returns that value |
| `Numbers.FormatIntRoundTrip` | main.go:343 | Atoi reads back every int64 written in base 10 |
| `Cli.Lookup` | main.go:90-94 | run's lookup finds the registered handler exactly when the name is in the table; otherwise the error is `command '<name>' not found` |
| `Cli.RegisterThenLookup` | main.go:90-100 | after register(name, f), looking up name finds f; every other name finds what it found before |
| `Cli.Commands.Register` | main.go:98-100 | registering replaces the name's entry and leaves every other entry unchanged |
| `Cli.Commands.Run` | main.go:90-96 | an unregistered name returns the not-found error and leaves the trace unchanged; a registered name runs its handler with the command's arguments |
| `Cli.NewCommands` | main.go:42-56 | the table main builds: eleven names, with addfeed, follow, following and unfollow wrapped by middlewareLoggedIn |
| `Handlers.LoginStep` | main.go:102-119 | no argument: usage error, no external call; otherwise GetUser first; the process halts exactly when the user is unknown, right after the lookup and with nothing written; only a known user is written to the configuration, and then the result is nil when the write succeeds and the write's error otherwise |
| `Handlers.RegisterStep` | main.go:121-142 | no argument: usage error, no external call; otherwise CreateUser first; its error is returned; only a created user is written to the configuration, and then the result is nil when the write succeeds and the write's error otherwise |
| `Handlers.ResetStep` | main.go:144-152 | one DeleteUsers call; nil exactly when it succeeds, otherwise its error |
| `Handlers.UsersStep` | main.go:154-169 | one GetUsers call; nil exactly when it succeeds, otherwise its error |
| `Handlers.SingleCallStep` | main.go:329-336 | a handler that makes one store call returns nil exactly when the call succeeds, and otherwise returns the call's error |
| `Handlers.FeedOwnersInOrder` | main.go:277-283 | handlerFeeds looks up each feed's owner in order, one lookup per feed and nothing else; it returns nil only after looking up every owner |
| `Handlers.FeedOwnersAnswers` | main.go:277-283 | every owner lookup before the last succeeded; on nil the last one succeeded too; on an error it is the last lookup's error, and no later owner is looked up |
| `Handlers.FeedsMethod` | main.go:271-285 | the imperative handlerFeeds loop equals its specification, which returns nil when GetFeeds fails |
| `Handlers.BrowseLimitMeaning` | main.go:340-347 | the limit is 2 without an argument; otherwise it is the argument's value when Atoi accepts it, and an error otherwise |
| `Handlers.BrowseQueriesOnlyParsedLimit` | main.go:339-352 | browse makes no store call exactly when the limit fails to parse, and returns that error; otherwise it calls GetPosts once with the limit truncated to int32 and returns nil |
| `Handlers.AddFeedStep` | main.go:239-269 | fewer than two arguments: usage error, no store call; otherwise AddFeed for the user, whose error is returned; a follow of the new feed by the user is created only if AddFeed succeeded, and then the result is nil when the follow is created and its error otherwise |
| `Handlers.FollowStep` | main.go:287-310 | no argument: usage error, no store call; otherwise GetFeed by URL, whose error is returned; a follow of that feed by the user is created only if the lookup succeeded, and then the result is nil when the follow is created and its error otherwise |
| `Handlers.FollowingStep` | main.go:312-322 | one GetFeedFollowsForUser call for the user's name; always returns nil |
| `Handlers.UnfollowStep` | main.go:324-337 | no argument: usage error, no store call; otherwise one DeleteFeedFollow of that URL for the user; nil exactly when it succeeds, otherwise its error |
| `Handlers.LoggedInPassesUser` | main.go:364-372 | the current user is looked up first; the wrapped handler runs only if the lookup succeeds, and it gets that user; otherwise the lookup error is returned and nothing else happens |
| `Handlers.LoggedInGuardAfterLookup` | main.go:51-55 | behind the wrapper, the argument guard of addfeed, follow and unfollow fires only after the user lookup; a failed lookup returns its error, a successful one the handler's usage error |
| `Handlers.Invoke` | main.go:95 | calling a stored handler does exactly what its specification says |
| `Aggregator.PostDecode` | main.go:227-233 | after decoding, the channel title and description are the unescaped decoded values; the link and the item sequence are exactly the decoded ones |
| `Aggregator.FetchFeed` | main.go:203-237 | one GET of the URL; a fetch or decode failure is returned unchanged; a decoded document is post-processed as PostDecode states |
| `Aggregator.PostOf` | main.go:396-405 | a post carries the item's title, link and description, the parsed date and the selected feed's id |
| `Aggregator.IngestInsertsInOrder` | main.go:391-409 | the item loop inserts items in order, one insert per item and nothing else; it completes exactly when it gets through every item; no item after the stopping one is inserted |
| `Aggregator.IngestHaltsExactly` | main.go:391-409 | every item the loop gets through has a parsed date and an insert that succeeded or failed with a "unique" message; it stops on a date only if that date fails to parse, and on an insert only if the error is not a unique violation |
| `Aggregator.ScrapeSelectsOnce` | main.go:374-378 | a cycle starts by selecting a feed, selects exactly once, never waits, and halts at once if the selection fails |
| `Aggregator.ScrapeMarksBeforeFetch` | main.go:380-405 | the selected feed is marked fetched right after selection; the one GET is for its URL and comes only after a successful mark, so a failed fetch leaves the feed marked; every later event is an insert of a post for that feed |
| `Aggregator.ScrapeHaltsExactly` | main.go:374-409 | a failed selection, mark or fetch ends the process with that error; after a fetch the cycle's trace is the item loop's, and the process ends exactly when the loop did not get through every item, with the error that stopped it |
| `Aggregator.ScrapeFeeds` | main.go:374-410 | the imperative cycle, with its item loop, equals the specification of a cycle |
| `Aggregator.AggExtends` | main.go:181-184 | over any number of ticks the loop only extends the trace and is either still running or halted |
| `Aggregator.AggCounts` | main.go:181-184 | still running after n ticks: the loop has selected and waited n times each; halted: one more selection than waits, at most n selections |
| `Aggregator.AggWaitsForInterval` | main.go:181-182 | every wait is for the parsed interval |
| `Aggregator.AggLoopScrapesFirst` | main.go:182-183 | the first cycle runs before the first wait |
| `Aggregator.AggNeedsValidInterval` | main.go:171-181 | no argument or an unparsable interval: an error with no external call; an interval that is not positive: the NewTicker panic; otherwise the loop runs |
| `Aggregator.HandlerAgg` | main.go:171-185 | the imperative handlerAgg, with its ticker loop, equals its specification |

## Left out

- HTTP, the body read and XML decoding in fetchFeed (main.go:204-225) form one oracle, `Env.http`. It returns a decoded document or an error message. The User-Agent header is not modelled.
- `html.UnescapeString`, `dateparse.ParseAny` and `time.ParseDuration` are abstract functions in `Env`. `uuid.New` and `time.Now` are not modelled: posts, users and follows carry no fresh id or timestamps, and ids are abstract numbers.
- The store's SQL is not part of this model: the unique constraint, the order of `GenNextFeedToFetch` and what each query returns. The model makes no claim about which feed is selected. It also makes no claim that re-ingesting a document adds no posts, because that rests on the unique constraint in the SQL.
- `Text.ToLower`: models ASCII lower-casing only. Go's `strings.ToLower` also lower-cases other Unicode letters. The test is only about the ASCII word "unique", but a message where "unique" appears only through non-ASCII case folding is not covered.
- `Numbers.Atoi`: takes Go's `int` to be 64 bits, as on the 64-bit platforms the program is built for. On a 32-bit platform `strconv.Atoi` has the int32 range, and the browse limit would then need no truncation.
- `Numbers.AtoiMessage`: quotes the input as it is. `strconv.Quote` would also escape special characters.
- Printing (`fmt.Println`, `fmt.Printf`) and the exit status of `log.Fatal` are not modelled. Messages printed on success are not modelled either.
- `main` itself (main.go:24-74) is not modelled: reading the configuration, opening the database, and splitting `os.Args` into a command. `Cli.NewCommands` models only its registration table.
- internal/config/config.go is not part of this model. `Config.SetUser` is the oracle `Env.setUser`, and it leaves the in-memory user name unchanged.
- Wall-clock timing of the ticker is not modelled. A tick is a `Wait` event, and the model follows a fixed number of loop iterations.
- Per-call stepping for the handlers without a loop: `Handlers.Invoke` applies their specification function to the trace in a single assignment. No method mirrors their individual store calls.
