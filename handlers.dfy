/**
 * The command handlers of main.go and middlewareLoggedIn. A handler's effect
 * is a Step: its outcome and the trace it leaves. Handlers whose body is a
 * short sequence of calls are functions; handlerFeeds and handlerAgg loop and
 * are methods proved equal to their specification functions.
 */
module Handlers {
  import opened Wrappers
  import opened Numbers
  import opened Rss
  import opened Effects
  import Aggregator

  /** The handlers main registers; LoggedIn(h) is `middlewareLoggedIn(h)`. */
  datatype Handler =
    | HandlerLogin | HandlerRegister | HandlerReset | HandlerUsers
    | HandlerAgg | HandlerFeeds | HandlerBrowse
    | LoggedIn(inner: UserHandler)

  /** The handlers that take the logged-in user as a third argument. */
  datatype UserHandler = HandlerAddFeed | HandlerFollow | HandlerFollowing | HandlerUnfollow

  const LoginUsage := "command 'login' expects 1 argument (username)"
  const RegisterUsage := "command 'register' expects 1 argument (username)"
  const AddFeedUsage := "command 'addfeed' expects 2 arguments (feedName, feedURL)"
  const FollowUsage := "command 'follow' expects 1 argument (url)"
  const UnfollowUsage := "command 'unfollow' expects 1 argument (url)"

  /** The message handlerLogin passes to log.Fatal when the user is unknown. */
  const UnknownUser := "User doesn't exist"

  /** `s.config.SetUser(name)`: writes the configuration file. */
  function SetUserStep(env: Env, t: Trace, name: string): Step {
    var t1 := t + [ConfigWrite(name)];
    match env.setUser(t, name)
    case Some(e) => Step(Failed(e), t1)
    case None => Step(Done, t1)
  }

  /** handlerLogin: without an argument, the usage error and no external call;
      with one, the user is looked up first, an unknown user ends the process,
      and only a known user is written to the configuration. */
  function LoginStep(env: Env, t: Trace, args: seq<string>): (r: Step)
    ensures r.trace == t <==> |args| == 0
    ensures |args| == 0 ==> r.outcome == Failed(LoginUsage)
    ensures |args| > 0 ==>
      && |r.trace| > |t| && r.trace[..|t| + 1] == t + [Query(GetUser(args[0]))]
      && (r.outcome == Halted(UnknownUser) <==> env.store.user(t, GetUser(args[0])).Err?)
      && (env.store.user(t, GetUser(args[0])).Err? ==>
            r == Step(Halted(UnknownUser), t + [Query(GetUser(args[0]))]))
      && (env.store.user(t, GetUser(args[0])).Ok? ==>
            var w := env.setUser(t + [Query(GetUser(args[0]))], args[0]);
            && r.trace == t + [Query(GetUser(args[0])), ConfigWrite(args[0])]
            && (w.None? ==> r.outcome == Done)
            && (w.Some? ==> r.outcome == Failed(w.value)))
  {
    if |args| == 0 then Step(Failed(LoginUsage), t)
    else
      var c := GetUser(args[0]);
      if env.store.user(t, c).Err? then Step(Halted(UnknownUser), t + [Query(c)])
      else SetUserStep(env, t + [Query(c)], args[0])
  }

  /** handlerRegister: without an argument, the usage error and no external
      call; with one, the user is created first, a failed creation is
      returned, and only a created user is written to the configuration. */
  function RegisterStep(env: Env, t: Trace, args: seq<string>): (r: Step)
    ensures r.trace == t <==> |args| == 0
    ensures |args| == 0 ==> r.outcome == Failed(RegisterUsage)
    ensures |args| > 0 ==>
      && |r.trace| > |t| && r.trace[..|t| + 1] == t + [Query(CreateUser(args[0]))]
      && (env.store.user(t, CreateUser(args[0])).Err? ==>
            r == Step(Failed(env.store.user(t, CreateUser(args[0])).msg), t + [Query(CreateUser(args[0]))]))
      && (env.store.user(t, CreateUser(args[0])).Ok? ==>
            var w := env.setUser(t + [Query(CreateUser(args[0]))], args[0]);
            && r.trace == t + [Query(CreateUser(args[0])), ConfigWrite(args[0])]
            && (w.None? ==> r.outcome == Done)
            && (w.Some? ==> r.outcome == Failed(w.value)))
  {
    if |args| == 0 then Step(Failed(RegisterUsage), t)
    else
      var c := CreateUser(args[0]);
      match env.store.user(t, c)
      case Err(e) => Step(Failed(e), t + [Query(c)])
      case Ok(_) => SetUserStep(env, t + [Query(c)], args[0])
  }

  /** A handler whose only store call is c, returning its error. */
  function SingleCallStep(env: Env, t: Trace, c: Call): (r: Step)
    ensures r.trace == t + [Query(c)]
    ensures r.outcome.Done? || r.outcome.Failed?
    ensures r.outcome.Done? <==> env.store.exec(t, c).None?
    ensures r.outcome.Failed? ==> env.store.exec(t, c) == Some(r.outcome.err)
  {
    match env.store.exec(t, c)
    case Some(e) => Step(Failed(e), t + [Query(c)])
    case None => Step(Done, t + [Query(c)])
  }

  /** handlerReset: one DeleteUsers call, whose error is returned. */
  function ResetStep(env: Env, t: Trace): (r: Step)
    ensures r.trace == t + [Query(DeleteUsers)]
    ensures r.outcome.Done? <==> env.store.exec(t, DeleteUsers).None?
    ensures env.store.exec(t, DeleteUsers).Some? ==> r.outcome == Failed(env.store.exec(t, DeleteUsers).value)
  {
    SingleCallStep(env, t, DeleteUsers)
  }

  /** handlerUsers: one GetUsers call, whose error is returned; the listing is printed. */
  function UsersStep(env: Env, t: Trace): (r: Step)
    ensures r.trace == t + [Query(GetUsers)]
    ensures r.outcome.Done? <==> env.store.exec(t, GetUsers).None?
    ensures env.store.exec(t, GetUsers).Some? ==> r.outcome == Failed(env.store.exec(t, GetUsers).value)
  {
    SingleCallStep(env, t, GetUsers)
  }

  /** handlerFeeds' loop: look up the owner of each feed, in order; the first
      failed lookup is returned. */
  function FeedOwners(env: Env, t: Trace, feeds: seq<Feed>): Step
    decreases |feeds|
  {
    if feeds == [] then Step(Done, t)
    else
      var c := GetUserById(feeds[0].userId);
      match env.store.user(t, c)
      case Err(e) => Step(Failed(e), t + [Query(c)])
      case Ok(_) => FeedOwners(env, t + [Query(c)], feeds[1..])
  }

  /** handlerFeeds: a failed GetFeeds is not reported (the handler returns nil). */
  function FeedsStep(env: Env, t: Trace): Step {
    var t1 := t + [Query(GetFeeds)];
    match env.store.feeds(t)
    case Err(_) => Step(Done, t1)
    case Ok(feeds) => FeedOwners(env, t1, feeds)
  }

  /** handlerFeeds' owner lookups are one per feed, in order, and nothing else. */
  lemma {:induction false} FeedOwnersInOrder(env: Env, t: Trace, feeds: seq<Feed>)
    ensures var r := FeedOwners(env, t, feeds);
      && |t| <= |r.trace| <= |t| + |feeds| && r.trace[..|t|] == t
      && (r.outcome.Done? || r.outcome.Failed?)
      && (r.outcome.Done? ==> |r.trace| == |t| + |feeds|)
      && (r.outcome.Failed? ==> |r.trace| > |t|)
      && (forall i :: 0 <= i < |r.trace| - |t| ==> r.trace[|t| + i] == Query(GetUserById(feeds[i].userId)))
    decreases |feeds|
  {
    var r := FeedOwners(env, t, feeds);
    if feeds != [] {
      var c := GetUserById(feeds[0].userId);
      var t1 := t + [Query(c)];
      if env.store.user(t, c).Ok? {
        FeedOwnersInOrder(env, t1, feeds[1..]);
        assert r == FeedOwners(env, t1, feeds[1..]);
        assert r.trace[..|t1|] == t1;
        assert r.trace[..|t|] == t1[..|t|] == t;
        forall i | 0 <= i < |r.trace| - |t| ensures r.trace[|t| + i] == Query(GetUserById(feeds[i].userId)) {
          if i == 0 {
            assert r.trace[|t|] == t1[|t|];
          } else {
            assert feeds[1..][i - 1] == feeds[i];
          }
        }
      }
    }
  }

  /** handlerFeeds returns nil exactly when every owner lookup succeeded;
      otherwise it returns the error of the first one that failed and looks
      up no owner after it. */
  lemma {:induction false} FeedOwnersAnswers(env: Env, t: Trace, feeds: seq<Feed>)
    ensures var r := FeedOwners(env, t, feeds);
      && |t| <= |r.trace| <= |t| + |feeds|
      && (forall i :: 0 <= i < |r.trace| - |t| - 1 ==>
            env.store.user(r.trace[..|t| + i], GetUserById(feeds[i].userId)).Ok?)
      && (r.outcome.Done? && feeds != [] ==>
            |r.trace| == |t| + |feeds| &&
            env.store.user(r.trace[..|r.trace| - 1], GetUserById(feeds[|feeds| - 1].userId)).Ok?)
      && (r.outcome.Failed? ==>
            && |r.trace| > |t|
            && env.store.user(r.trace[..|r.trace| - 1], GetUserById(feeds[|r.trace| - |t| - 1].userId))
                 == Err(r.outcome.err))
    decreases |feeds|
  {
    var r := FeedOwners(env, t, feeds);
    FeedOwnersInOrder(env, t, feeds);
    if feeds != [] {
      var c := GetUserById(feeds[0].userId);
      var t1 := t + [Query(c)];
      if env.store.user(t, c).Ok? {
        FeedOwnersAnswers(env, t1, feeds[1..]);
        FeedOwnersInOrder(env, t1, feeds[1..]);
        assert r == FeedOwners(env, t1, feeds[1..]);
        assert r.trace[..|t1|] == t1;
        forall i | 0 <= i < |r.trace| - |t| - 1
          ensures env.store.user(r.trace[..|t| + i], GetUserById(feeds[i].userId)).Ok?
        {
          if i == 0 {
            assert r.trace[..|t|] == t1[..|t|] == t;
          } else {
            assert feeds[1..][i - 1] == feeds[i];
          }
        }
        if |r.trace| == |t1| {
          assert r.trace[..|r.trace| - 1] == t;
        }
        if r.outcome.Done? && |feeds| > 1 {
          assert feeds[1..][|feeds[1..]| - 1] == feeds[|feeds| - 1];
        }
        if r.outcome.Failed? && |r.trace| > |t1| {
          assert feeds[1..][|r.trace| - |t1| - 1] == feeds[|r.trace| - |t| - 1];
        }
      } else {
        assert r.trace[..|r.trace| - 1] == t;
      }
    }
  }

  /** handlerFeeds. */
  method FeedsMethod(s: State) returns (o: Outcome)
    modifies s
    ensures FeedsStep(s.env, old(s.trace)) == Step(o, s.trace)
  {
    var feeds := s.QueryFeeds();
    if feeds.Err? {
      return Done;
    }
    var all := feeds.value;
    ghost var listed := s.trace;
    for i := 0 to |all|
      invariant FeedOwners(s.env, listed, all) == FeedOwners(s.env, s.trace, all[i..])
    {
      assert all[i..][0] == all[i] && all[i..][1..] == all[i + 1..];
      var user := s.QueryUser(GetUserById(all[i].userId));
      if user.Err? {
        return Failed(user.msg);
      }
    }
    assert all[|all|..] == [];
    return Done;
  }

  /** handlerBrowse's limit: 2 without an argument, otherwise
      `strconv.Atoi(args[0])`. */
  function BrowseLimit(args: seq<string>): Result<int> {
    if |args| == 0 then Ok(2) else Atoi(args[0])
  }

  /** handlerBrowse: a limit that does not parse is returned before the store
      is asked; a failed GetPosts is not reported (the handler returns nil). */
  function BrowseStep(env: Env, t: Trace, args: seq<string>): Step {
    match BrowseLimit(args)
    case Err(e) => Step(Failed(e), t)
    case Ok(limit) => Step(Done, t + [Query(GetPosts(ToInt32(limit)))])
  }

  /** Without an argument the limit is 2; with one it is the argument's
      integer value when the argument is a decimal literal in the int64 range,
      and an Atoi error otherwise. */
  lemma BrowseLimitMeaning(args: seq<string>)
    ensures |args| == 0 ==> BrowseLimit(args) == Ok(2)
    ensures |args| > 0 ==>
      (BrowseLimit(args).Ok? <==> IsDecimalLiteral(args[0]) && MinInt64 <= LiteralValue(args[0]) <= MaxInt64)
    ensures |args| > 0 && BrowseLimit(args).Ok? ==> BrowseLimit(args).value == LiteralValue(args[0])
  {
    if |args| > 0 {
      AtoiMeaning(args[0]);
    }
  }

  /** handlerBrowse asks for posts with the limit truncated to int32, and
      only when the limit parsed; it then returns nil whatever the store says. */
  lemma BrowseQueriesOnlyParsedLimit(env: Env, t: Trace, args: seq<string>)
    ensures var r := BrowseStep(env, t, args);
      && (r.trace == t <==> BrowseLimit(args).Err?)
      && (BrowseLimit(args).Err? ==> r.outcome == Failed(BrowseLimit(args).msg))
      && (BrowseLimit(args).Ok? ==>
            var limit := BrowseLimit(args).value;
            r == Step(Done, t + [Query(GetPosts(ToInt32(limit)))]))
  {
    if BrowseLimit(args).Ok? {
      assert |BrowseStep(env, t, args).trace| == |t| + 1;
    }
  }

  /** handlerAddFeed: fewer than two arguments give the usage error and no
      store call; otherwise the feed is added for the user, and a follow of
      the new feed by that user is created only if the feed was added. */
  function AddFeedStep(env: Env, t: Trace, args: seq<string>, user: User): (r: Step)
    ensures r.trace == t <==> |args| < 2
    ensures |args| < 2 ==> r.outcome == Failed(AddFeedUsage)
    ensures |args| >= 2 ==>
      var c := AddFeed(args[0], args[1], user.id);
      && |r.trace| > |t| && r.trace[..|t| + 1] == t + [Query(c)]
      && (env.store.feed(t, c).Err? ==> r == Step(Failed(env.store.feed(t, c).msg), t + [Query(c)]))
      && (env.store.feed(t, c).Ok? ==>
            var follow := CreateFeedFollow(user.id, env.store.feed(t, c).value.id);
            var w := env.store.exec(t + [Query(c)], follow);
            && r.trace == t + [Query(c), Query(follow)]
            && (w.None? ==> r.outcome == Done)
            && (w.Some? ==> r.outcome == Failed(w.value)))
  {
    if |args| < 2 then Step(Failed(AddFeedUsage), t)
    else
      var c := AddFeed(args[0], args[1], user.id);
      match env.store.feed(t, c)
      case Err(e) => Step(Failed(e), t + [Query(c)])
      case Ok(feed) => SingleCallStep(env, t + [Query(c)], CreateFeedFollow(user.id, feed.id))
  }

  /** handlerFollow: without an argument, the usage error and no store call;
      otherwise the feed is looked up by URL, and a follow of that feed by the
      user is created only if the lookup succeeded. */
  function FollowStep(env: Env, t: Trace, args: seq<string>, user: User): (r: Step)
    ensures r.trace == t <==> |args| == 0
    ensures |args| == 0 ==> r.outcome == Failed(FollowUsage)
    ensures |args| > 0 ==>
      var c := GetFeed(args[0]);
      && |r.trace| > |t| && r.trace[..|t| + 1] == t + [Query(c)]
      && (env.store.feed(t, c).Err? ==> r == Step(Failed(env.store.feed(t, c).msg), t + [Query(c)]))
      && (env.store.feed(t, c).Ok? ==>
            var follow := CreateFeedFollow(user.id, env.store.feed(t, c).value.id);
            var w := env.store.exec(t + [Query(c)], follow);
            && r.trace == t + [Query(c), Query(follow)]
            && (w.None? ==> r.outcome == Done)
            && (w.Some? ==> r.outcome == Failed(w.value)))
  {
    if |args| == 0 then Step(Failed(FollowUsage), t)
    else
      var c := GetFeed(args[0]);
      match env.store.feed(t, c)
      case Err(e) => Step(Failed(e), t + [Query(c)])
      case Ok(feed) => SingleCallStep(env, t + [Query(c)], CreateFeedFollow(user.id, feed.id))
  }

  /** handlerFollowing: a failed lookup is not reported (the handler returns nil). */
  function FollowingStep(env: Env, t: Trace, user: User): (r: Step)
    ensures r.outcome == Done
    ensures |r.trace| == |t| + 1 && r.trace[..|t|] == t
    ensures r.trace[|t|] == Query(GetFeedFollowsForUser(user.name))
  {
    Step(Done, t + [Query(GetFeedFollowsForUser(user.name))])
  }

  /** handlerUnfollow: without an argument, the usage error and no store
      call; otherwise one DeleteFeedFollow of that URL for the user, whose
      error is returned. */
  function UnfollowStep(env: Env, t: Trace, args: seq<string>, user: User): (r: Step)
    ensures r.trace == t <==> |args| == 0
    ensures |args| == 0 ==> r.outcome == Failed(UnfollowUsage)
    ensures |args| > 0 ==> r.trace == t + [Query(DeleteFeedFollow(user.id, args[0]))]
    ensures |args| > 0 ==>
      var w := env.store.exec(t, DeleteFeedFollow(user.id, args[0]));
      && (w.None? ==> r.outcome == Done)
      && (w.Some? ==> r.outcome == Failed(w.value))
  {
    if |args| == 0 then Step(Failed(UnfollowUsage), t)
    else SingleCallStep(env, t, DeleteFeedFollow(user.id, args[0]))
  }

  function UserStep(env: Env, h: UserHandler, t: Trace, args: seq<string>, user: User): Step {
    match h
    case HandlerAddFeed => AddFeedStep(env, t, args, user)
    case HandlerFollow => FollowStep(env, t, args, user)
    case HandlerFollowing => FollowingStep(env, t, user)
    case HandlerUnfollow => UnfollowStep(env, t, args, user)
  }

  /** The closure middlewareLoggedIn(h) returns: look up the configured user,
      return the lookup's error, or call h with the user found. */
  function LoggedInStep(env: Env, h: UserHandler, t: Trace, args: seq<string>): Step {
    var c := GetUser(env.currentUserName);
    match env.store.user(t, c)
    case Err(e) => Step(Failed(e), t + [Query(c)])
    case Ok(user) => UserStep(env, h, t + [Query(c)], args, user)
  }

  /** Calling a registered handler. */
  function HandleStep(env: Env, h: Handler, t: Trace, args: seq<string>): Step {
    match h
    case HandlerLogin => LoginStep(env, t, args)
    case HandlerRegister => RegisterStep(env, t, args)
    case HandlerReset => ResetStep(env, t)
    case HandlerUsers => UsersStep(env, t)
    case HandlerAgg => Aggregator.HandlerAggSpec(env, t, args)
    case HandlerFeeds => FeedsStep(env, t)
    case HandlerBrowse => BrowseStep(env, t, args)
    case LoggedIn(inner) => LoggedInStep(env, inner, t, args)
  }

  /** The wrapped handler runs only when the lookup of the configured user
      succeeds, and it receives that user; otherwise the lookup's error is
      returned and nothing else happens. */
  lemma LoggedInPassesUser(env: Env, h: UserHandler, t: Trace, args: seq<string>)
    ensures var r := LoggedInStep(env, h, t, args);
      var c := GetUser(env.currentUserName);
      && |r.trace| > |t| && r.trace[..|t| + 1] == t + [Query(c)]
      && (env.store.user(t, c).Err? ==> r == Step(Failed(env.store.user(t, c).msg), t + [Query(c)]))
      && (env.store.user(t, c).Ok? ==> r == UserStep(env, h, t + [Query(c)], args, env.store.user(t, c).value))
  {
    var c := GetUser(env.currentUserName);
    var t1 := t + [Query(c)];
    UserStepExtends(env, h, t1, args, if env.store.user(t, c).Ok? then env.store.user(t, c).value else User(0, ""));
    var r := LoggedInStep(env, h, t, args);
    assert r.trace[..|t1|] == t1;
  }

  lemma UserStepExtends(env: Env, h: UserHandler, t: Trace, args: seq<string>, user: User)
    ensures var r := UserStep(env, h, t, args, user);
      |r.trace| >= |t| && r.trace[..|t|] == t
  {
    var r := UserStep(env, h, t, args, user);
    assert r.trace == t || r.trace[..|t|] == t;
  }

  /** Registered behind middlewareLoggedIn, a user handler's argument guard
      fires only after the store has been asked for the configured user: a
      failed lookup returns the lookup's error, a successful one the
      handler's usage error. */
  lemma LoggedInGuardAfterLookup(env: Env, h: UserHandler, t: Trace, args: seq<string>)
    requires h == HandlerAddFeed ==> |args| < 2
    requires h != HandlerAddFeed ==> |args| == 0
    requires h != HandlerFollowing
    ensures var r := LoggedInStep(env, h, t, args);
      && r.trace == t + [Query(GetUser(env.currentUserName))]
      && r.outcome.Failed?
      && (env.store.user(t, GetUser(env.currentUserName)).Ok? ==>
            r.outcome == Failed(match h
                                case HandlerAddFeed => AddFeedUsage
                                case HandlerFollow => FollowUsage
                                case _ => UnfollowUsage))
  {
  }

  /** Calling a handler, as the closure stored in the command table. */
  method Invoke(s: State, h: Handler, args: seq<string>) returns (o: Outcome)
    modifies s
    ensures HandleStep(s.env, h, old(s.trace), args) == Step(o, s.trace)
  {
    match h {
      case HandlerAgg =>
        o := Aggregator.HandlerAgg(s, args);
      case HandlerFeeds =>
        o := FeedsMethod(s);
      case _ =>
        var r := HandleStep(s.env, h, s.trace, args);
        s.trace := r.trace;
        o := r.outcome;
    }
  }
}
