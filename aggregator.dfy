/**
 * The feed aggregator: fetchFeed's post-decode step, one scrapeFeeds cycle
 * and handlerAgg's ticker loop. Each imperative method is proved equal to a
 * specification function over the trace of external events, and the
 * properties of the aggregator are lemmas about those functions.
 */
module Aggregator {
  import opened Wrappers
  import opened Text
  import opened Rss
  import opened Effects

  // ---------------------------------------------------------------- fetchFeed

  /** fetchFeed after xml.Unmarshal: the channel title and description are
      unescaped in place. The item loop unescapes copies of the items (Go's
      `for _, item := range`), so the items of the result are the decoded ones. */
  method PostDecode(unescape: string -> string, decoded: RssFeed) returns (feed: RssFeed)
    ensures feed.channel.title == unescape(decoded.channel.title)
    ensures feed.channel.description == unescape(decoded.channel.description)
    ensures feed.channel.link == decoded.channel.link
    ensures feed.channel.items == decoded.channel.items
  {
    feed := decoded;
    feed := feed.(channel := feed.channel.(title := unescape(feed.channel.title)));
    feed := feed.(channel := feed.channel.(description := unescape(feed.channel.description)));
    for i := 0 to |feed.channel.items| {
      var item := feed.channel.items[i];
      item := item.(title := unescape(item.title));
      item := item.(description := unescape(item.description));
    }
  }

  /** fetchFeed: one GET of the URL (request, body read and decoding are the
      `http` oracle); a failure is returned as it is, a decoded document goes
      through PostDecode. */
  method FetchFeed(s: State, url: string) returns (r: Result<RssFeed>)
    modifies s
    ensures s.trace == old(s.trace) + [HttpGet(url)]
    ensures match s.env.http(old(s.trace), url)
      case Err(e) => r == Err(e)
      case Ok(d) =>
        && r.Ok?
        && r.value.channel.title == s.env.unescape(d.channel.title)
        && r.value.channel.description == s.env.unescape(d.channel.description)
        && r.value.channel.link == d.channel.link
        && r.value.channel.items == d.channel.items
  {
    var decoded := s.Get(url);
    if decoded.Err? {
      return Err(decoded.msg);
    }
    var feed := PostDecode(s.env.unescape, decoded.value);
    return Ok(feed);
  }

  // --------------------------------------------------- inserting the items

  /** The post scrapeFeeds builds from an item: the item's title, link and
      description, the parsed publication date and the selected feed's id. */
  function PostOf(item: RssItem, publishedAt: Instant, feedId: Uuid): (p: Post)
    ensures p.title == item.title && p.url == item.link && p.description == item.description
    ensures p.publishedAt == publishedAt && p.feedId == feedId
  {
    Post(item.title, item.link, item.description, publishedAt, feedId)
  }

  /** The insert issued for an item whose date parses. */
  function InsertFor(env: Env, item: RssItem, feedId: Uuid): Call
    requires env.parseDate(item.pubDate).Ok?
  {
    CreatePost(PostOf(item, env.parseDate(item.pubDate).value, feedId))
  }

  /** An insert answer that scrapeFeeds lets pass: success, or an error whose
      message reads as a unique-constraint violation. */
  predicate Accepted(answer: Option<string>) {
    answer.None? || IsUniqueViolation(answer.value)
  }

  /** Why the item loop stopped (the last two end the process). */
  datatype Stop = Completed | BadDate(reason: string) | InsertFailed(reason: string)

  /** The trace after the item loop, how many items it got through, and why it stopped. */
  datatype Ingestion = Ingestion(trace: Trace, processed: nat, stop: Stop)

  /** scrapeFeeds' loop over the items, from trace t. */
  function Ingest(env: Env, t: Trace, feedId: Uuid, items: seq<RssItem>): Ingestion
    decreases |items|
  {
    if items == [] then Ingestion(t, 0, Completed)
    else match env.parseDate(items[0].pubDate)
      case Err(e) => Ingestion(t, 0, BadDate(e))
      case Ok(_) =>
        var c := InsertFor(env, items[0], feedId);
        var answer := env.store.exec(t, c);
        if !Accepted(answer) then Ingestion(t + [Query(c)], 0, InsertFailed(answer.value))
        else
          var rest := Ingest(env, t + [Query(c)], feedId, items[1..]);
          rest.(processed := rest.processed + 1)
  }

  /** How many inserts the loop issued: one per item it got through, plus the
      failing one when an insert stopped it. */
  function Attempted(r: Ingestion): nat {
    r.processed + if r.stop.InsertFailed? then 1 else 0
  }

  /** The loop inserts the items in order, one insert per item and nothing
      else; it gets through every item exactly when it completes, and after it
      stops no later item is inserted. */
  lemma {:induction false} IngestInsertsInOrder(env: Env, t: Trace, feedId: Uuid, items: seq<RssItem>)
    ensures var r := Ingest(env, t, feedId, items);
      && Attempted(r) <= |items|
      && (r.stop.Completed? <==> r.processed == |items|)
      && |r.trace| == |t| + Attempted(r)
      && r.trace[..|t|] == t
      && forall i :: 0 <= i < Attempted(r) ==>
           env.parseDate(items[i].pubDate).Ok? && r.trace[|t| + i] == Query(InsertFor(env, items[i], feedId))
    decreases |items|
  {
    var r := Ingest(env, t, feedId, items);
    if items != [] && env.parseDate(items[0].pubDate).Ok? {
      var c := InsertFor(env, items[0], feedId);
      var t' := t + [Query(c)];
      if Accepted(env.store.exec(t, c)) {
        var rest := Ingest(env, t', feedId, items[1..]);
        IngestInsertsInOrder(env, t', feedId, items[1..]);
        assert r == rest.(processed := rest.processed + 1);
        assert r.trace[..|t'|] == t';
        assert r.trace[..|t|] == t'[..|t|] == t;
        forall i | 0 <= i < Attempted(r)
          ensures env.parseDate(items[i].pubDate).Ok? && r.trace[|t| + i] == Query(InsertFor(env, items[i], feedId))
        {
          if i == 0 {
            assert r.trace[|t|] == t'[|t|];
          } else {
            assert items[1..][i - 1] == items[i];
          }
        }
      }
    }
  }

  /** Every item the loop got through had a date that parsed and an insert
      that was accepted; it stopped on a date only for a date that did not
      parse, and on an insert only for an error that is not a unique violation;
      each insert was answered by the store as it stood before that insert. */
  lemma {:induction false} IngestHaltsExactly(env: Env, t: Trace, feedId: Uuid, items: seq<RssItem>)
    ensures var r := Ingest(env, t, feedId, items);
      && r.processed <= |items| && |t| + r.processed <= |r.trace|
      && (forall i :: 0 <= i < r.processed ==>
           env.parseDate(items[i].pubDate).Ok? &&
           Accepted(env.store.exec(r.trace[..|t| + i], InsertFor(env, items[i], feedId))))
      && (r.stop.BadDate? ==>
           r.processed < |items| && env.parseDate(items[r.processed].pubDate) == Err(r.stop.reason))
      && (r.stop.InsertFailed? ==>
           && r.processed < |items|
           && env.parseDate(items[r.processed].pubDate).Ok?
           && env.store.exec(r.trace[..|t| + r.processed], InsertFor(env, items[r.processed], feedId))
              == Some(r.stop.reason)
           && !IsUniqueViolation(r.stop.reason))
    decreases |items|
  {
    var r := Ingest(env, t, feedId, items);
    IngestInsertsInOrder(env, t, feedId, items);
    if items != [] && env.parseDate(items[0].pubDate).Ok? {
      var c := InsertFor(env, items[0], feedId);
      var t' := t + [Query(c)];
      if Accepted(env.store.exec(t, c)) {
        var rest := Ingest(env, t', feedId, items[1..]);
        IngestHaltsExactly(env, t', feedId, items[1..]);
        IngestInsertsInOrder(env, t', feedId, items[1..]);
        assert r == rest.(processed := rest.processed + 1);
        assert r.trace[..|t|] == t;
        forall i | 0 <= i < r.processed
          ensures env.parseDate(items[i].pubDate).Ok? &&
            Accepted(env.store.exec(r.trace[..|t| + i], InsertFor(env, items[i], feedId)))
        {
          if i > 0 {
            assert items[1..][i - 1] == items[i];
          }
        }
        if r.stop.BadDate? || r.stop.InsertFailed? {
          assert items[1..][rest.processed] == items[r.processed];
        }
      } else {
        assert r.trace[..|t|] == t;
      }
    }
  }

  // ----------------------------------------------------------- scrapeFeeds

  /** The trace after one scrapeFeeds cycle and, if the cycle ended the
      process, the message log.Fatal prints. */
  datatype Scrape = Scrape(trace: Trace, halt: Option<string>)

  function StopMessage(stop: Stop): Option<string> {
    match stop
    case Completed => None
    case BadDate(e) => Some(e)
    case InsertFailed(e) => Some(e)
  }

  /** scrapeFeeds from trace t: select a feed, mark it fetched, fetch it and
      insert its items; any failure but an accepted insert error halts. */
  function ScrapeSpec(env: Env, t: Trace): Scrape {
    var t1 := t + [Query(GenNextFeedToFetch)];
    match env.store.feed(t, GenNextFeedToFetch)
    case Err(e) => Scrape(t1, Some(e))
    case Ok(feed) =>
      var t2 := t1 + [Query(MarkFeedFetched(feed.id))];
      match env.store.exec(t1, MarkFeedFetched(feed.id))
      case Some(e) => Scrape(t2, Some(e))
      case None =>
        var t3 := t2 + [HttpGet(feed.url)];
        match env.http(t2, feed.url)
        case Err(e) => Scrape(t3, Some(e))
        case Ok(doc) =>
          var r := Ingest(env, t3, feed.id, doc.channel.items);
          Scrape(r.trace, StopMessage(r.stop))
  }

  /** One scrapeFeeds cycle. The `for _, post := range` loop is the item loop
      of Ingest, from the trace after the fetch. */
  method ScrapeFeeds(s: State) returns (halt: Option<string>)
    modifies s
    ensures ScrapeSpec(s.env, old(s.trace)) == Scrape(s.trace, halt)
  {
    var next := s.QueryFeed(GenNextFeedToFetch);
    if next.Err? {
      return Some(next.msg);
    }
    var feed := next.value;
    var marked := s.Exec(MarkFeedFetched(feed.id));
    if marked.Some? {
      return marked;
    }
    var rssFeed := FetchFeed(s, feed.url);
    if rssFeed.Err? {
      return Some(rssFeed.msg);
    }
    var items := rssFeed.value.channel.items;
    ghost var fetched := s.trace;
    for i := 0 to |items|
      invariant Ingest(s.env, fetched, feed.id, items) ==
        var rest := Ingest(s.env, s.trace, feed.id, items[i..]); rest.(processed := rest.processed + i)
    {
      var post := items[i];
      assert items[i..][0] == post && items[i..][1..] == items[i + 1..];
      var pubDate := s.env.parseDate(post.pubDate);
      if pubDate.Err? {
        return Some(pubDate.msg);
      }
      var err := s.Exec(CreatePost(PostOf(post, pubDate.value, feed.id)));
      if err.Some? && !IsUniqueViolation(err.value) {
        return err;
      }
    }
    assert items[|items|..] == [];
    return None;
  }

  // ----------------------------------------------------- counting events

  predicate IsSelection(e: Event) {
    e == Query(GenNextFeedToFetch)
  }

  predicate IsWait(e: Event) {
    e.Wait?
  }

  /** The number of events of s that satisfy p. */
  function CountIf(s: Trace, p: Event -> bool): nat {
    if s == [] then 0 else (if p(s[0]) then 1 else 0) + CountIf(s[1..], p)
  }

  lemma {:induction false} CountIfConcat(a: Trace, b: Trace, p: Event -> bool)
    ensures CountIf(a + b, p) == CountIf(a, p) + CountIf(b, p)
  {
    if a != [] {
      assert (a + b)[1..] == a[1..] + b;
      CountIfConcat(a[1..], b, p);
    } else {
      assert a + b == b;
    }
  }

  lemma {:induction false} CountIfNone(s: Trace, p: Event -> bool)
    requires forall j :: 0 <= j < |s| ==> !p(s[j])
    ensures CountIf(s, p) == 0
  {
    if s != [] {
      assert forall j :: 0 <= j < |s| - 1 ==> s[1..][j] == s[j + 1];
      CountIfNone(s[1..], p);
    }
  }

  /** The feed a cycle from trace t selects. */
  function Selected(env: Env, t: Trace): Result<Feed> {
    env.store.feed(t, GenNextFeedToFetch)
  }

  /** The trace of a cycle up to the mark of the selected feed. */
  function UpToMark(t: Trace, f: Feed): Trace {
    t + [Query(GenNextFeedToFetch), Query(MarkFeedFetched(f.id))]
  }

  /** One cycle extends the trace, starts by selecting a feed, selects exactly
      once and never waits; if the selection fails, nothing else happens. */
  lemma ScrapeSelectsOnce(env: Env, t: Trace)
    ensures var r := ScrapeSpec(env, t);
      && |r.trace| > |t| && r.trace[..|t|] == t
      && r.trace[|t|] == Query(GenNextFeedToFetch)
      && CountIf(r.trace[|t|..], IsSelection) == 1
      && (forall j :: |t| <= j < |r.trace| ==> !r.trace[j].Wait?)
      && (Selected(env, t).Err? ==>
            r == Scrape(t + [Query(GenNextFeedToFetch)], Some(Selected(env, t).msg)))
  {
    var r := ScrapeSpec(env, t);
    var t1 := t + [Query(GenNextFeedToFetch)];
    if Selected(env, t).Ok? {
      var f := Selected(env, t).value;
      var t2 := UpToMark(t, f);
      ScrapeMarksBeforeFetch(env, t);
      var tail := r.trace[|t2|..];
      assert r.trace[|t|..] == [Query(GenNextFeedToFetch), Query(MarkFeedFetched(f.id))] + tail;
      assert forall j :: 0 <= j < |tail| ==> tail[j] == r.trace[|t2| + j];
      CountIfConcat([Query(GenNextFeedToFetch), Query(MarkFeedFetched(f.id))], tail, IsSelection);
      CountIfNone(tail, IsSelection);
    } else {
      assert r.trace[|t|..] == [Query(GenNextFeedToFetch)];
    }
  }

  /** A selected feed is marked fetched right after the selection and before
      anything else. The one GET of a cycle is for that feed's URL and is
      issued only after a successful mark, so a failed fetch leaves the feed
      marked. Everything after the GET is an insert of a post that carries the
      selected feed's id. */
  lemma ScrapeMarksBeforeFetch(env: Env, t: Trace)
    requires Selected(env, t).Ok?
    ensures var r := ScrapeSpec(env, t);
      var f := Selected(env, t).value;
      var t2 := UpToMark(t, f);
      && |r.trace| >= |t2| && r.trace[..|t2|] == t2
      && (env.store.exec(t + [Query(GenNextFeedToFetch)], MarkFeedFetched(f.id)).Some? <==> r.trace == t2)
      && (r.trace != t2 ==> |r.trace| > |t2| && r.trace[|t2|] == HttpGet(f.url))
      && (forall j :: |t2| < j < |r.trace| ==>
            r.trace[j].Query? && r.trace[j].call.CreatePost? && r.trace[j].call.post.feedId == f.id)
      && (env.http(t2, f.url).Err? && r.trace != t2 ==>
            r == Scrape(t2 + [HttpGet(f.url)], Some(env.http(t2, f.url).msg)))
  {
    var r := ScrapeSpec(env, t);
    var f := Selected(env, t).value;
    var t1 := t + [Query(GenNextFeedToFetch)];
    var t2 := UpToMark(t, f);
    assert t2 == t1 + [Query(MarkFeedFetched(f.id))];
    if env.store.exec(t1, MarkFeedFetched(f.id)).None? {
      var t3 := t2 + [HttpGet(f.url)];
      if env.http(t2, f.url).Ok? {
        var items := env.http(t2, f.url).value.channel.items;
        IngestInsertsInOrder(env, t3, f.id, items);
        var ing := Ingest(env, t3, f.id, items);
        assert r.trace == ing.trace;
        assert r.trace[..|t3|] == t3;
        assert r.trace[..|t2|] == t3[..|t2|] == t2;
        forall j | |t3| <= j < |r.trace|
          ensures r.trace[j].Query? && r.trace[j].call.CreatePost? && r.trace[j].call.post.feedId == f.id
        {
          assert r.trace[|t3| + (j - |t3|)] == Query(InsertFor(env, items[j - |t3|], f.id));
        }
        assert r.trace[|t2|] == t3[|t2|];
      }
    }
  }

  /** How a cycle ends. A failed selection, mark or fetch ends the process
      with that error. After a successful fetch the cycle's trace is the item
      loop's, and the cycle ends the process exactly when the loop did not get
      through every item, with the error that stopped it. */
  lemma ScrapeHaltsExactly(env: Env, t: Trace)
    ensures var r := ScrapeSpec(env, t);
      var t1 := t + [Query(GenNextFeedToFetch)];
      && (Selected(env, t).Err? ==> r.halt == Some(Selected(env, t).msg))
      && (Selected(env, t).Ok? ==>
            var f := Selected(env, t).value;
            var t2 := UpToMark(t, f);
            var mark := env.store.exec(t1, MarkFeedFetched(f.id));
            && (mark.Some? ==> r == Scrape(t2, mark))
            && (mark.None? && env.http(t2, f.url).Err? ==>
                  r == Scrape(t2 + [HttpGet(f.url)], Some(env.http(t2, f.url).msg)))
            && (mark.None? && env.http(t2, f.url).Ok? ==>
                  var items := env.http(t2, f.url).value.channel.items;
                  var ing := Ingest(env, t2 + [HttpGet(f.url)], f.id, items);
                  && r.trace == ing.trace
                  && (r.halt.None? <==> ing.processed == |items|)
                  && (r.halt.Some? ==> !ing.stop.Completed? && r.halt == Some(ing.stop.reason))))
  {
    if Selected(env, t).Ok? {
      var f := Selected(env, t).value;
      var t1 := t + [Query(GenNextFeedToFetch)];
      var t2 := UpToMark(t, f);
      assert t2 == t1 + [Query(MarkFeedFetched(f.id))];
      if env.store.exec(t1, MarkFeedFetched(f.id)).None? && env.http(t2, f.url).Ok? {
        var items := env.http(t2, f.url).value.channel.items;
        IngestInsertsInOrder(env, t2 + [HttpGet(f.url)], f.id, items);
      }
    }
  }

  // ------------------------------------------------------------ handlerAgg

  /** `for ; ; <-ticker.C { scrapeFeeds(s) }`, followed for n iterations: each
      runs a cycle and then waits for the next tick; a cycle that halts ends
      the process. */
  function AggLoop(env: Env, t: Trace, interval: int, n: nat): Step
    decreases n
  {
    if n == 0 then Step(Running, t)
    else
      var s := ScrapeSpec(env, t);
      if s.halt.Some? then Step(Halted(s.halt.value), s.trace)
      else AggLoop(env, s.trace + [Wait(interval)], interval, n - 1)
  }

  const AggUsage := "command 'agg' expects 1 argument (timeBetweenReqs)"

  /** The panic of time.NewTicker for an interval that is not positive. */
  const NewTickerPanic := "non-positive interval for NewTicker"

  /** handlerAgg: the argument guard, the duration parse, the ticker, the loop. */
  function HandlerAggSpec(env: Env, t: Trace, args: seq<string>): Step {
    if |args| == 0 then Step(Failed(AggUsage), t)
    else match env.parseDuration(args[0])
      case Err(e) => Step(Failed(e), t)
      case Ok(d) => if d <= 0 then Step(Halted(NewTickerPanic), t) else AggLoop(env, t, d, env.ticks)
  }

  /** Over n ticks the loop only extends the trace, and either keeps running
      or halts. */
  lemma {:induction false} AggExtends(env: Env, t: Trace, interval: int, n: nat)
    ensures var r := AggLoop(env, t, interval, n);
      && |r.trace| >= |t| && r.trace[..|t|] == t
      && (r.outcome.Running? || r.outcome.Halted?)
    decreases n
  {
    if n > 0 {
      var s := ScrapeSpec(env, t);
      ScrapeSelectsOnce(env, t);
      if s.halt.None? {
        var t' := s.trace + [Wait(interval)];
        AggExtends(env, t', interval, n - 1);
        var r := AggLoop(env, t', interval, n - 1);
        assert r.trace[..|t|] == t'[..|t|] == s.trace[..|t|];
      }
    }
  }

  /** Still running after n ticks, the loop has selected a feed n times and
      waited n times; halted, it has selected once more than it waited (the
      halting cycle is never followed by a wait) and at most n times. */
  lemma {:induction false} AggCounts(env: Env, t: Trace, interval: int, n: nat)
    ensures var r := AggLoop(env, t, interval, n);
      && |r.trace| >= |t|
      && (r.outcome.Running? ==>
            CountIf(r.trace[|t|..], IsSelection) == n && CountIf(r.trace[|t|..], IsWait) == n)
      && (r.outcome.Halted? ==>
            CountIf(r.trace[|t|..], IsSelection) == CountIf(r.trace[|t|..], IsWait) + 1 <= n)
    decreases n
  {
    AggExtends(env, t, interval, n);
    var r := AggLoop(env, t, interval, n);
    if n > 0 {
      var s := ScrapeSpec(env, t);
      ScrapeSelectsOnce(env, t);
      var cycle := s.trace[|t|..];
      CountIfNone(cycle, IsWait);
      if s.halt.None? {
        var t' := s.trace + [Wait(interval)];
        AggCounts(env, t', interval, n - 1);
        AggExtends(env, t', interval, n - 1);
        assert r == AggLoop(env, t', interval, n - 1);
        var rest := r.trace[|t'|..];
        assert r.trace[|t|..] == (cycle + [Wait(interval)]) + rest by {
          assert r.trace[..|t'|] == t';
        }
        CountIfConcat(cycle + [Wait(interval)], rest, IsSelection);
        CountIfConcat(cycle + [Wait(interval)], rest, IsWait);
        CountIfConcat(cycle, [Wait(interval)], IsSelection);
        CountIfConcat(cycle, [Wait(interval)], IsWait);
      } else {
        assert r.trace[|t|..] == cycle;
      }
    }
  }

  /** Every wait of the loop is for the ticker's interval. */
  lemma {:induction false} AggWaitsForInterval(env: Env, t: Trace, interval: int, n: nat)
    ensures var r := AggLoop(env, t, interval, n);
      forall j :: |t| <= j < |r.trace| && r.trace[j].Wait? ==> r.trace[j].interval == interval
    decreases n
  {
    if n > 0 {
      var s := ScrapeSpec(env, t);
      ScrapeSelectsOnce(env, t);
      if s.halt.None? {
        var t' := s.trace + [Wait(interval)];
        AggWaitsForInterval(env, t', interval, n - 1);
        AggExtends(env, t', interval, n - 1);
        var r := AggLoop(env, t', interval, n - 1);
        assert r.trace[..|s.trace|] == t'[..|s.trace|] == s.trace;
        forall j | |t| <= j < |r.trace| && r.trace[j].Wait? ensures r.trace[j].interval == interval {
          if j == |s.trace| {
            assert r.trace[j] == t'[j];
          }
        }
      }
    }
  }

  /** The first cycle of the loop runs before the first wait: the loop's
      trace begins with a full scrapeFeeds cycle. */
  lemma AggLoopScrapesFirst(env: Env, t: Trace, interval: int, n: nat)
    requires n > 0
    ensures var first := ScrapeSpec(env, t).trace;
      var r := AggLoop(env, t, interval, n);
      |r.trace| >= |first| && r.trace[..|first|] == first
  {
    var s := ScrapeSpec(env, t);
    if s.halt.None? {
      var t' := s.trace + [Wait(interval)];
      AggExtends(env, t', interval, n - 1);
      var r := AggLoop(env, t', interval, n - 1);
      assert r.trace[..|s.trace|] == t'[..|s.trace|] == s.trace;
    }
  }

  /** handlerAgg never touches the store or the ticker without an argument or
      with an interval that does not parse, and panics in NewTicker for a
      non-positive one; with a positive interval it runs the loop, whose first
      cycle comes before any wait. */
  lemma AggNeedsValidInterval(env: Env, t: Trace, args: seq<string>)
    ensures var r := HandlerAggSpec(env, t, args);
      && (|args| == 0 ==> r == Step(Failed(AggUsage), t))
      && (|args| > 0 && env.parseDuration(args[0]).Err? ==>
            r == Step(Failed(env.parseDuration(args[0]).msg), t))
      && (|args| > 0 && env.parseDuration(args[0]).Ok? && env.parseDuration(args[0]).value <= 0 ==>
            r == Step(Halted(NewTickerPanic), t))
      && (|args| > 0 && env.parseDuration(args[0]).Ok? && env.parseDuration(args[0]).value > 0 ==>
            r == AggLoop(env, t, env.parseDuration(args[0]).value, env.ticks))
  {
  }

  /** handlerAgg, with the ticker followed for `ticks` periods. */
  method HandlerAgg(s: State, args: seq<string>) returns (o: Outcome)
    modifies s
    ensures HandlerAggSpec(s.env, old(s.trace), args) == Step(o, s.trace)
  {
    if |args| == 0 {
      return Failed(AggUsage);
    }
    var timeBetweenRequests := s.env.parseDuration(args[0]);
    if timeBetweenRequests.Err? {
      return Failed(timeBetweenRequests.msg);
    }
    var interval := timeBetweenRequests.value;
    if interval <= 0 {
      return Halted(NewTickerPanic);
    }
    var tick := 0;
    while tick < s.env.ticks
      invariant tick <= s.env.ticks
      invariant AggLoop(s.env, old(s.trace), interval, s.env.ticks) ==
        AggLoop(s.env, s.trace, interval, s.env.ticks - tick)
    {
      var halt := ScrapeFeeds(s);
      if halt.Some? {
        return Halted(halt.value);
      }
      s.AwaitTick(interval);
      tick := tick + 1;
    }
    return Running;
  }
}
