/**
 * The `BuildbotHook` component: its configuration, the `build_store`
 * cache it keeps in Trac's database, and the entry points that resolve,
 * record and display the build of a ticket's branch.
 */
module Hook {
  import opened Wrappers
  import opened Text
  import opened BuildStore
  import opened HookConfig
  import opened BuildDisplay
  import opened Resolution

  /** The only user allowed to record build results: the build master logs in as `git`. */
  const BuildbotUser: string := "git"

  /** The TracError `set_build` raises for anyone else. */
  datatype PermissionError = PermissionError(user: string)

  /** `req.args.get('id')`. */
  function TicketId(args: map<string, string>): Option<string>
  {
    if "id" in args then Some(args["id"]) else None
  }

  /** What `_get_build(req, ticket, extraChecks)` does, as a run: nothing at all when a guard refuses. */
  function BuildRun(t: Table, master: Commit, repository: string, o: Oracles, args: map<string, string>,
                    authname: string, ticket: Ticket, extraChecks: bool): (run: Run)
    ensures run.calls == 0 <==> Gate(args, ticket, extraChecks).None?
    ensures run.calls == 0 ==> run == Run(None, t, [], 0)
    ensures Gate(args, ticket, extraChecks) == Some(ticket.branch) ==>
      run == Resolve(t, master, repository, o, ticket.branch, authname, TicketId(args))
  {
    match Gate(args, ticket, extraChecks)
    case None => Run(None, t, [], 0)
    case Some(branch) => Resolve(t, master, repository, o, branch, authname, TicketId(args))
  }

  /** The badge `filter_stream` adds for a build, or the IndexError it raises. */
  function BadgeFor(build: Option<BuildInfo>): (r: Result<Option<Badge>, DisplayError>)
    ensures build.None? ==> r == Ok(None)
    ensures build.Some? ==> (r.Ok? <==> StatusBadge(build.value.status).Ok?)
    ensures build.Some? && r.Ok? ==> r.value == Some(StatusBadge(build.value.status).value)
    ensures build.Some? && build.value.status.None? ==> r == Ok(Some(Badge("Queued", None)))
  {
    match build
    case None => Ok(None)
    case Some(info) =>
      match StatusBadge(info.status)
      case Ok(badge) => Ok(Some(badge))
      case Err(e) => Err(e)
  }

  class BuildbotHook {
    var host: string
    var port: int
    var username: string
    var password: string
    var repository: string
    /** The head of master in the watched repository (`self.master`). */
    var master: Commit
    /** The `build_store` table of Trac's database. */
    var table: Table
    /** Every change handed to the build master, in order. */
    ghost var outbox: seq<Change>

    ghost predicate Valid()
      reads this
    {
      Keyed(table)
    }

    /** A hook attached to a repository whose master is at `master` and to a database holding `table`. */
    constructor (master: Commit, table: Table)
      requires Keyed(table)
      ensures Valid() && this.master == master && this.table == table && outbox == []
    {
      host, port, username, password, repository := "", DefaultPort, "", "", "";
      this.master := master;
      this.table := table;
      outbox := [];
    }

    /**
     * The `[buildbot]` part of `__init__`: take the host setting, split off
     * a port written `host:port`, default the port to 9989, then let an
     * explicit `port` option replace it.
     */
    method Configure(hostSetting: string, portSetting: Option<string>, username: string, password: string, repository: string)
      returns (r: Result<Endpoint, ConfigError>)
      modifies this`host, this`port, this`username, this`password, this`repository
      ensures r == ParseEndpoint(hostSetting, portSetting)
      ensures this.username == username && this.password == password && this.repository == repository
      ensures r.Ok? ==> host == r.value.host && port == r.value.port
    {
      this.host, this.username, this.password, this.repository := hostSetting, username, password, repository;
      if host == "" {
        return Err(MissingHost);
      }
      if ':' in host {
        var fields := Split(host, ':');
        var portText := fields[1];
        host := fields[0];
        var parsed := ParseInt(portText);
        if parsed.None? {
          return Err(InvalidPort(portText));
        }
        port := parsed.value;
      } else {
        port := DefaultPort;
      }
      if portSetting.Some? {
        var parsed := ParseInt(portSetting.value);
        if parsed.None? {
          return Err(InvalidPort(portSetting.value));
        }
        port := parsed.value;
      }
      r := Ok(Endpoint(host, port));
    }

    /** `_create_table`: create `build_store` unless it exists. */
    method CreateTable()
      requires Valid()
      modifies this`table
      ensures Valid()
      ensures table == Created(old(table))
    {
      if table.None? {
        table := Some(map[]);
      }
    }

    /** `_drop_table`: drop `build_store` if it exists. */
    method DropTable()
      modifies this`table
      ensures Valid()
      ensures table.None?
    {
      if table.Some? {
        table := None;
      }
    }

    /** `_get_cache(commit)`. */
    method GetCache(commit: Commit) returns (info: Option<BuildInfo>)
      requires Valid()
      modifies this`table
      ensures Valid()
      ensures info == Fetch(old(table), master, commit).info
      ensures table == Fetch(old(table), master, commit).table
      ensures info.Some? ==> commit in table.value && table.value[commit].target == commit && table.value[commit].base == master
    {
      CreateTable();
      if commit !in table.value {
        return None;
      }
      var row := table.value[commit];
      if row.base != master {
        DropTable();
        return None;
      }
      return Some(BuildInfo(row.builder, row.number, row.status));
    }

    /** `_set_cache(commit, builder, number, status)`: delete the row, insert the new one. */
    method SetCache(commit: Commit, builder: Option<string>, number: Option<int>, status: Option<int>)
      requires Valid()
      modifies this`table
      ensures Valid()
      ensures table == Stored(old(table), master, commit, builder, number, status)
    {
      CreateTable();
      var rows := table.value - {commit};
      table := Some(rows[commit := Row(master, commit, builder, number, status)]);
      assert table.value == Created(old(table)).value[commit := Row(master, commit, builder, number, status)];
    }

    /** `set_build`: only the build master may record a result. */
    method SetBuild(authname: string, sha: Commit, builder: string, number: int, status: int)
      returns (r: Result<(), PermissionError>)
      requires Valid()
      modifies this`table
      ensures Valid()
      ensures r.Ok? <==> authname == BuildbotUser
      ensures r.Ok? ==> table == Stored(old(table), master, sha, Some(builder), Some(number), Some(status))
      ensures r.Err? ==> table == old(table)
    {
      if authname != BuildbotUser {
        return Err(PermissionError(authname));
      }
      SetCache(sha, Some(builder), Some(number), Some(status));
      r := Ok(());
    }

    /** `_real_get_build(branch, author, tracid)`. */
    method RealGetBuild(branch: string, author: string, tracid: Option<string>, o: Oracles)
      returns (build: Option<BuildInfo>)
      requires Valid()
      modifies this`table, this`outbox
      ensures Valid()
      ensures var run := Resolve(old(table), master, repository, o, branch, author, tracid);
        build == run.result && table == run.table && outbox == old(outbox) + run.sent
      decreases Pending(table, master, o, branch), 1
    {
      var found := o.lookup(Strip(branch));
      if found.None? {
        return None;
      }
      var commit := found.value;
      ghost var before := table;
      var cached := GetCache(commit);
      if cached.Some? {
        return cached;
      }
      build := Announce(branch, author, tracid, o, commit, before);
    }

    /**
     * The rest of `_real_get_build` after a cache miss for the head `commit`
     * (`before` is the table the lookup started from): skip merged and
     * conflicting heads, hand the change to the build master, record the
     * head as queued when it is accepted and resolve again.
     */
    method Announce(branch: string, author: string, tracid: Option<string>, o: Oracles, commit: Commit, ghost before: Table)
      returns (build: Option<BuildInfo>)
      requires Valid()
      requires o.lookup(Strip(branch)) == Some(commit)
      requires Fetch(before, master, commit).info.None? && table == Fetch(before, master, commit).table
      modifies this`table, this`outbox
      ensures Valid()
      ensures var run := Resolve(before, master, repository, o, branch, author, tracid);
        build == run.result && table == run.table && outbox == old(outbox) + run.sent
      decreases Pending(before, master, o, branch), 0
    {
      var merge := o.merge(commit);
      var target: Commit;
      if merge == UpToDate || merge == FailedMerge {
        return None;
      } else if merge == FastForward {
        target := commit;
      } else {
        target := merge.commit;
      }
      var change := ChangeFor(master, repository, o, branch, author, tracid, commit, target);
      outbox := outbox + [change];
      var accepted := o.submit(change);
      if !accepted {
        return None;
      }
      SetCache(commit, None, None, None);
      build := RealGetBuild(branch, author, tracid, o);
    }

    /** `_get_build(req, ticket, extraChecks)`: the guards, then resolution of the ticket's branch. */
    method GetBuild(args: map<string, string>, authname: string, ticket: Ticket, extraChecks: bool, o: Oracles)
      returns (build: Option<BuildInfo>)
      requires Valid()
      modifies this`table, this`outbox
      ensures Valid()
      ensures var run := BuildRun(old(table), master, repository, o, args, authname, ticket, extraChecks);
        build == run.result && table == run.table && outbox == old(outbox) + run.sent
    {
      if "preview" in args {
        return None;
      }
      if extraChecks {
        if "id" !in args {
          return None;
        }
        if ticket.status != "needs_review" && ticket.status != "positive_review" {
          return None;
        }
      }
      var branch := ticket.branch;
      if branch == "" {
        return None;
      }
      build := RealGetBuild(branch, authname, TicketId(args), o);
    }

    /** `validate_ticket`: never objects, but looks the build up (and may announce one) as a side effect. */
    method ValidateTicket(args: map<string, string>, authname: string, ticket: Ticket, o: Oracles)
      returns (errors: seq<string>)
      requires Valid()
      modifies this`table, this`outbox
      ensures Valid()
      ensures errors == []
      ensures var run := BuildRun(old(table), master, repository, o, args, authname, ticket, true);
        table == run.table && outbox == old(outbox) + run.sent
    {
      var _ := GetBuild(args, authname, ticket, true, o);
      errors := [];
    }

    /**
     * `filter_stream`: on a ticket page, the badge to append for the
     * ticket's build (`Ok(None)` leaves the page as it is).
     */
    method FilterStream(filename: string, ticket: Option<Ticket>, args: map<string, string>, authname: string, o: Oracles)
      returns (r: Result<Option<Badge>, DisplayError>)
      requires Valid()
      modifies this`table, this`outbox
      ensures Valid()
      ensures filename != "ticket.html" || ticket.None? ==>
        r == Ok(None) && table == old(table) && outbox == old(outbox)
      ensures filename == "ticket.html" && ticket.Some? ==>
        var run := BuildRun(old(table), master, repository, o, args, authname, ticket.value, true);
        r == BadgeFor(run.result) && table == run.table && outbox == old(outbox) + run.sent
    {
      if filename != "ticket.html" || ticket.None? {
        return Ok(None);
      }
      var build := GetBuild(args, authname, ticket.value, true, o);
      if build.None? {
        return Ok(None);
      }
      var badge := StatusBadge(build.value.status);
      match badge {
        case Ok(b) => r := Ok(Some(b));
        case Err(e) => r := Err(e);
      }
    }
  }
}
