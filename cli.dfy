/** The command table of main.go: `commands.register` and `commands.run`. */
module Cli {
  import opened Wrappers
  import opened Effects
  import opened Handlers

  /** A command line after the program name: the command name and its arguments. */
  datatype Command = Command(name: string, args: seq<string>)

  function NotFound(name: string): string {
    "command '" + name + "' not found"
  }

  /** The lookup `run` performs: the registered handler, or the not-found error. */
  function Lookup(table: map<string, Handler>, name: string): (r: Result<Handler>)
    ensures r.Ok? <==> name in table
    ensures r.Ok? ==> r.value == table[name]
    ensures r.Err? ==> r.msg == NotFound(name)
  {
    if name in table then Ok(table[name]) else Err(NotFound(name))
  }

  /** After registering f under a name, that name finds f, and every other
      name finds what it found before. */
  lemma RegisterThenLookup(table: map<string, Handler>, name: string, f: Handler, other: string)
    ensures Lookup(table[name := f], name) == Ok(f)
    ensures other != name ==> Lookup(table[name := f], other) == Lookup(table, other)
  {
  }

  /** Go's `commands`: the table from command names to handlers. */
  class Commands {
    var handlers: map<string, Handler>

    constructor ()
      ensures handlers == map[]
    {
      handlers := map[];
    }

    /** Registering a name replaces any handler it had and leaves every other entry. */
    method Register(name: string, f: Handler)
      modifies this
      ensures handlers == old(handlers)[name := f]
      ensures forall n :: n in old(handlers) && n != name ==> n in handlers && handlers[n] == old(handlers)[n]
    {
      handlers := handlers[name := f];
    }

    /** An unregistered name returns the not-found error and calls nothing;
        a registered one calls its handler with the command's arguments. */
    method Run(s: State, cmd: Command) returns (o: Outcome)
      modifies s
      ensures cmd.name !in handlers ==> o == Failed(NotFound(cmd.name)) && s.trace == old(s.trace)
      ensures cmd.name in handlers ==>
        HandleStep(s.env, handlers[cmd.name], old(s.trace), cmd.args) == Step(o, s.trace)
    {
      var found := Lookup(handlers, cmd.name);
      if found.Err? {
        return Failed(found.msg);
      }
      o := Invoke(s, found.value, cmd.args);
    }
  }

  /** The table main builds before dispatching. */
  method NewCommands() returns (cmds: Commands)
    ensures fresh(cmds)
    ensures cmds.handlers == map[
      "login" := HandlerLogin, "register" := HandlerRegister, "reset" := HandlerReset,
      "users" := HandlerUsers, "agg" := HandlerAgg, "addfeed" := LoggedIn(HandlerAddFeed),
      "feeds" := HandlerFeeds, "follow" := LoggedIn(HandlerFollow),
      "following" := LoggedIn(HandlerFollowing), "unfollow" := LoggedIn(HandlerUnfollow),
      "browse" := HandlerBrowse]
  {
    cmds := new Commands();
    cmds.Register("login", HandlerLogin);
    cmds.Register("register", HandlerRegister);
    cmds.Register("reset", HandlerReset);
    cmds.Register("users", HandlerUsers);
    cmds.Register("agg", HandlerAgg);
    cmds.Register("addfeed", LoggedIn(HandlerAddFeed));
    cmds.Register("feeds", HandlerFeeds);
    cmds.Register("follow", LoggedIn(HandlerFollow));
    cmds.Register("following", LoggedIn(HandlerFollowing));
    cmds.Register("unfollow", LoggedIn(HandlerUnfollow));
    cmds.Register("browse", HandlerBrowse);
  }
}
