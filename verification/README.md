# Buildbot hook for Trac, modelled in Dafny

This project models the core of `sage_trac/buildbot_hook.py`. That file is a Trac
component. When a ticket page shows a branch, the component looks up the branch's
build. If it finds none, it asks the build master to build the branch merged onto
master. It caches the result in a `build_store` table. Each cached row is only valid
while master stays where it was when the row was written.

Modules, one file each:

- `Wrappers` (`wrappers.dfy`): `Option` and `Result`.
- `Text` (`text.dfy`): the Python 2 built-ins the hook relies on. These are
  `unicode.strip()`, `unicode.split(sep)` and `int(text)` on decimal text.
  Trac hands the hook `unicode` values, so white space is Python 2.7's
  Unicode white space.
- `BuildStore` (`build_store.dfy`): the `build_store` table as a value. It is
  `None` while the table does not exist. The module gives the effect of
  `_create_table`, `_get_cache` (`Fetch`) and `_set_cache` (`Stored`), plus the
  lemmas about the cache.
- `DiffFiles` (`diff_files.dfy`): `get_changed_files`. This is the
  `^diff --git a/(.*) b/(.*)$` header extraction over the patch text.
- `HookConfig` (`hook_config.dfy`): host and port parsing in `__init__`.
- `BuildDisplay` (`build_display.dfy`): the guards in `_get_build`, and the
  status label and colour chosen in `filter_stream`.
- `Resolution` (`resolution.dfy`): `_real_get_build` as a recursive function,
  `Resolve`. From the table, the master head and the answers of the collaborators,
  it gives the build returned, the table left behind, the changes sent to the build
  master and how many invocations ran.
- `Hook` (`buildbot_hook.dfy`): the class `BuildbotHook`. Its fields are the
  configuration, `master`, `table`, and a ghost `outbox` of the changes sent. Its
  methods are the imperative operations of the source. Each method's postcondition
  gives the new state and the result in terms of the functions above.

Collaborators the source calls but does not define are parameters, gathered in
`Resolution.Oracles`:

- `generic_lookup(name)[1]`, where `None` stands for KeyError or ValueError;
- `get_merge`;
- the patch text of `self._git.diff(a, b)`;
- `commit_url`;
- the boolean the child process puts on the queue after `addChange`.

`master` (`self.master`) is a field. No operation of the hook changes it.

Two behaviours of the source worth stating:

- An explicit `port` option does not rescue a malformed port inside the host
  setting. `int(self.port)` at line 44 raises before line 48 reads the option. See
  `HookConfig.EmptyPortFieldRejected`.
- Status codes are not restricted to -1..5. Codes -6..-2 index `RESULTS` from the
  end, as Python does, but are always coloured needs_work: code -6 shows
  Success in the colour of a failure. Codes outside -6..5 raise IndexError.

## Model

| member | source | states |
|---|---|---|
| Text.Strip | sage_trac/buildbot_hook.py:94 | the stripped branch name neither starts nor ends with Unicode white space |
| Text.StripKeepsCharacters | sage_trac/buildbot_hook.py:94 | every character of the stripped name was in the original |
| Text.Split | sage_trac/buildbot_hook.py:43 | the fields hold no separator, joined back with it they give the input, and there are at least two fields exactly when the separator occurs |
| Text.SplitCons | sage_trac/buildbot_hook.py:43 | a separator-free first field is split off and the rest is split on its own |
| Text.SplitTwo | sage_trac/buildbot_hook.py:43 | `a:b` with colon-free parts splits into exactly `[a, b]` |
| Text.TrimLeftShape | sage_trac/buildbot_hook.py:94 | stripping on the left removes exactly the leading white space and keeps a suffix of the input |
| Text.TrimRightShape | sage_trac/buildbot_hook.py:94 | stripping on the right removes exactly the trailing white space and keeps a prefix of the input |
| Text.StripUnpadded | sage_trac/buildbot_hook.py:94 | a string without surrounding white space strips to itself |
| Text.NatToStringIsNumeral | sage_trac/buildbot_hook.py:44 | the decimal form of a natural number is a digit string denoting that number |
| Text.ParseInt | sage_trac/buildbot_hook.py:44-48 | a plain numeral between white space reads as its decimal value; a text without any digit raises |
| Text.ParseIntAcceptsOnlyNumerals | sage_trac/buildbot_hook.py:44-48 | whatever `int` accepts strips to a numeral, or to a sign followed by white space and a numeral; anything else, such as `8x`, `1 2` or `+-1`, raises |
| Text.SignedValue | sage_trac/buildbot_hook.py:44-48 | a sign, optional white space, then digits reads as the signed value of the digits |
| Text.TrimLeftOfBlanks | sage_trac/buildbot_hook.py:44-48 | white space in front of a non-blank text is exactly what is skipped |
| Text.SignThenBlanks | sage_trac/buildbot_hook.py:44-48 | `int('- 80') == -80`: white space may separate the sign from the digits |
| Text.ParseIntOfNat | sage_trac/buildbot_hook.py:44 | `int(str(n)) == n`, and the decimal form holds no colon |
| Text.ParseIntOfBlank | sage_trac/buildbot_hook.py:44 | `int` of empty or blank text raises |
| BuildStore.Created | sage_trac/buildbot_hook.py:78-83 | after `_create_table` the table exists; an existing table is left as it was and a missing one is created empty |
| BuildStore.CreateIdempotent | sage_trac/buildbot_hook.py:78-83 | creating twice is creating once, and an existing table keeps its contents |
| BuildStore.Fetch | sage_trac/buildbot_hook.py:55-68 | hit exactly when a row for the commit exists and its base is the current master; a hit returns that row's (builder, number, status) and leaves the table alone; no row leaves the table created; a stale row drops the whole table |
| BuildStore.Stored | sage_trac/buildbot_hook.py:70-76 | afterwards the table exists, the commit's row is `(master, commit, builder, number, status)`, the keys are the old ones plus the commit, and every other row is unchanged |
| BuildStore.OperationsKeepKeyed | sage_trac/buildbot_hook.py:83 | creating, reading and writing keep every row under its own target, which is the primary key |
| BuildStore.ReadYourWrite | sage_trac/buildbot_hook.py:55-76 | with master fixed, reading a commit just written returns what was written and changes nothing |
| BuildStore.WriteThenMasterMoves | sage_trac/buildbot_hook.py:55-76 | once master moves, reading a row written before misses and drops the table |
| BuildStore.NothingCachedAfterPurge | sage_trac/buildbot_hook.py:55-68 | from a dropped or empty table, every read in any sequence of reads misses, and the table ends up empty |
| BuildStore.StaleReadPurgesAll | sage_trac/buildbot_hook.py:65-67 | one stale row drops the table, and every later read of any commit misses until a write |
| DiffFiles.LastOccurrenceBelow | sage_trac/buildbot_hook.py:22 | finds the last place ` b/` occurs below a bound, or reports that it occurs nowhere below it |
| DiffFiles.ParseHeader | sage_trac/buildbot_hook.py:22 | a match splits the line into prefix, old path, ` b/` and new path, and the new path holds no ` b/` (the first group is greedy); no match exactly when the line lacks the prefix or has no later ` b/` |
| DiffFiles.FilesInLines | sage_trac/buildbot_hook.py:50-53 | a path is collected exactly when some line is a header naming it as its old or its new path |
| DiffFiles.ChangedFiles | sage_trac/buildbot_hook.py:50-53 | a path is in the result exactly when a header line of the patch names it |
| DiffFiles.LastSeparator | sage_trac/buildbot_hook.py:22 | in `a b/b`, where `b` holds no ` b/`, the last ` b/` is the one right after `a` |
| DiffFiles.HeaderRoundTrip | sage_trac/buildbot_hook.py:22 | the header git writes for paths `a` and `b` parses back to `(a, b)` when `b` holds no ` b/` |
| DiffFiles.LeadingHeaderAddsItsPaths | sage_trac/buildbot_hook.py:50-53 | a header line in front of a patch adds exactly its two paths to the changed files |
| HookConfig.HostEndpoint | sage_trac/buildbot_hook.py:39-46 | error exactly for an empty host or an unparsable second field; the host never keeps a colon; without a colon the port is 9989; with one the host is the text before the first colon and the port is `int` of the second field |
| HookConfig.ParseEndpoint | sage_trac/buildbot_hook.py:39-48 | an empty host is an error; host-setting errors come first; the host comes from the host setting; an explicit port replaces the port and must parse |
| HookConfig.HostPortRoundTrip | sage_trac/buildbot_hook.py:42-44 | `host:port` with a colon-free host reads back as that host and port |
| HookConfig.ExtraFieldsIgnored | sage_trac/buildbot_hook.py:43 | only the first two colon-separated fields matter |
| HookConfig.PortFieldThenMore | sage_trac/buildbot_hook.py:42-44 | a parsable second field is the port whatever follows it |
| HookConfig.EmptyPortFieldRejected | sage_trac/buildbot_hook.py:43-44 | `host:` is an error whatever the `port` option says |
| HookConfig.ExplicitPortWins | sage_trac/buildbot_hook.py:48 | a valid explicit port replaces both the default and a port from the host setting |
| BuildDisplay.Gate | sage_trac/buildbot_hook.py:170-182 | a preview, a missing id or a status other than needs_review/positive_review under extra checks, or an empty branch gives nothing; otherwise the ticket's branch |
| BuildDisplay.GateOpens | sage_trac/buildbot_hook.py:170-184 | when none of the guards applies, the ticket's branch is resolved |
| BuildDisplay.StatusBadge | sage_trac/buildbot_hook.py:217-228 | no status is Queued; -1 is In progress/needs_review; other codes in range name an outcome, coloured positive_review exactly for 0 and needs_work otherwise; out of range is IndexError |
| BuildDisplay.StatusCode | sage_trac/buildbot_hook.py:26 | reads an outcome name back to its index in `RESULTS` |
| BuildDisplay.OutcomeLabelRoundTrip | sage_trac/buildbot_hook.py:217-228 | codes 0..5 are shown as Success, Warnings, Failure, Skipped, Exception, Retry in order, and read back as the same code |
| BuildDisplay.NegativeCodesCountFromEnd | sage_trac/buildbot_hook.py:224-228 | codes -6..-2 show `RESULTS[6 + rc]`, the same caption as the positive code, but always coloured needs_work, so -6 shows Success unlike 0 |
| BuildDisplay.BadgesDistinguishStatuses | sage_trac/buildbot_hook.py:217-228 | queued, in progress and the six outcomes all get different badges |
| Resolution.TargetOf | sage_trac/buildbot_hook.py:102-108 | nothing is built for up-to-date or failed merges; a fast-forward builds the head itself; otherwise the merge commit is built |
| Resolution.ChangeAnnouncesTarget | sage_trac/buildbot_hook.py:110-126 | the change names the target as revision and the head as pre-merge revision, carries author, branch, repository, ticket (`str(tracid)`, `None` when the request names none, via `TicketText`), commit link and source `git`, its files are exactly the paths the patch from master to the target names, and its comments start `From Trac #` |
| Resolution.Resolve | sage_trac/buildbot_hook.py:92-168 | a resolution runs at least one invocation |
| Resolution.UnknownBranchIsNoBuild | sage_trac/buildbot_hook.py:93-96 | a branch that cannot be looked up gives no build, no change and an untouched table |
| Resolution.CacheHitShortCircuits | sage_trac/buildbot_hook.py:98-100 | a current cached row is returned as is, and nothing is sent |
| Resolution.UnbuildableMergeShortCircuits | sage_trac/buildbot_hook.py:102-106 | up-to-date and failed merges give no build, send nothing and write no row |
| Resolution.AnnouncedRevisions | sage_trac/buildbot_hook.py:107-126 | on a miss for a buildable head exactly one change is sent; its revision is the head on a fast-forward and the merge commit otherwise; its pre-merge revision is the head; its files are those changed between master and the revision |
| Resolution.RejectedChangeIsNoBuild | sage_trac/buildbot_hook.py:164-167 | a rejected change gives no build and writes no row |
| Resolution.AcceptedChangeIsQueued | sage_trac/buildbot_hook.py:164-168 | an accepted change caches the pre-merge head with null builder, number and status; the one re-resolution returns `(None, None, None)` after exactly two invocations |
| Resolution.AtMostOneReResolution | sage_trac/buildbot_hook.py:164-168 | with master fixed, at most two invocations run and at most one change is sent |
| Resolution.ReturnedBuildIsCached | sage_trac/buildbot_hook.py:92-168 | every build returned is the current row for the looked-up head in the table left behind |
| Resolution.SecondResolutionIsPureRead | sage_trac/buildbot_hook.py:98-100 | after a resolution that found a build, resolving again returns the same build, sends nothing and leaves the table alone |
| Resolution.UnbuildableStaysUnbuilt | sage_trac/buildbot_hook.py:102-106 | an up-to-date or unmergeable head stays unbuilt on the next resolution; no change is sent and no row is written for it |
| Resolution.MovedMasterPurgesOtherRows | sage_trac/buildbot_hook.py:65-67 | when master moved past the head's row, the table afterwards is gone or holds only the head's new queued row |
| Resolution.ResolveKeepsKeyed | sage_trac/buildbot_hook.py:92-168 | resolution keeps every row under its own target |
| Hook.BuildRun | sage_trac/buildbot_hook.py:170-187 | no invocation runs exactly when a guard refuses, and then nothing changes; otherwise the ticket's branch is resolved with the request's author and id (`req.args.get('id')`, via `TicketId`) |
| Hook.BadgeFor | sage_trac/buildbot_hook.py:207-228 | no build leaves the page alone; a build gets the badge of its status, or the IndexError of an out-of-range code; a build with no status shows Queued |
| Hook.BuildbotHook.constructor | sage_trac/buildbot_hook.py:33-34 | a hook attached to the given master head and table, with nothing sent yet |
| Hook.BuildbotHook.Configure | sage_trac/buildbot_hook.py:33-48 | the outcome is `ParseEndpoint` of the settings, and on success `host` and `port` hold the parsed endpoint |
| Hook.BuildbotHook.CreateTable | sage_trac/buildbot_hook.py:78-83 | the table becomes `Created(old table)` |
| Hook.BuildbotHook.DropTable | sage_trac/buildbot_hook.py:85-90 | the table no longer exists, whether or not it did |
| Hook.BuildbotHook.GetCache | sage_trac/buildbot_hook.py:55-68 | result and new table are those of `Fetch`; a hit comes from the row stored under the commit, based on the current master |
| Hook.BuildbotHook.SetCache | sage_trac/buildbot_hook.py:70-76 | the delete followed by the insert leaves `Stored(old table, ...)` |
| Hook.BuildbotHook.SetBuild | sage_trac/buildbot_hook.py:194-197 | succeeds exactly for `git`, writing the row; anyone else is refused and the table is unchanged |
| Hook.BuildbotHook.RealGetBuild | sage_trac/buildbot_hook.py:92-168 | result, new table and changes sent are those of `Resolve` on the old table |
| Hook.BuildbotHook.Announce | sage_trac/buildbot_hook.py:102-168 | after a cache miss for the looked-up head, result, new table and changes sent are those `Resolve` gives from the table the lookup started with |
| Hook.BuildbotHook.GetBuild | sage_trac/buildbot_hook.py:170-187 | nothing happens when a guard refuses; otherwise it does what `Resolve` does for the ticket's branch, author and id |
| Hook.BuildbotHook.ValidateTicket | sage_trac/buildbot_hook.py:247-249 | never reports an error, and has the effect of a guarded build lookup with extra checks |
| Hook.BuildbotHook.FilterStream | sage_trac/buildbot_hook.py:200-228 | pages other than a ticket page are untouched; on a ticket page the badge is that of the build found, if any |

## Left out

- The Twisted client and the child process (lines 132-162) are not modelled: the PB login, `connectTCP`, `callRemote('addChange')`, `loseConnection`, `reactor.stop` and the `multiprocessing` queue. These are concurrency and network I/O. The model keeps only the boolean read from the queue, as `Oracles.submit`. There is no timeout on that read.
- The SQL text is not modelled, and neither are the `information_schema` queries or transaction isolation. The table is an abstract value. Concurrent writers and a purge racing a write are not modelled.
- The git operations come from `git_merger` and `common`: `generic_lookup`, `get_merge`, `self._git.diff(...).patch`, `commit_url` and `hexify`. Those modules are not part of this model, so these operations are parameters. Commits are their hex strings.
- `master` is fixed during a call. The source reads `self.master` from the repository each time, so master could move between the cache write and the re-resolution. The model does not cover that case.
- Resolution.AtMostOneReResolution: the branch lookup and `get_merge` are functions, so the re-resolution (line 168 re-entering line 94) sees the same head as the first pass. In the source, a push to the branch between the two lookups makes the re-resolution miss the cache again and send a second change. The recursion is then bounded only by how often the branch moves. The model does not cover that case, and the termination measure `Pending` relies on it.
- Trac plumbing is left out: `implements(...)`, `get_build` (lines 189-192, which loads the ticket, checks `TICKET_VIEW` and lists the result of `_get_build` without extra checks), `prepare_ticket`, `xmlrpc_namespace` and `xmlrpc_methods`. How Trac's configuration lookup works is also left out: a setting is given as a string, or as `None` when absent.
- Genshi rendering and the build link's URL in `filter_stream` are left out. Only the badge's caption and CSS class are kept.
- The loop that coerces strings to `unicode` (lines 128-130) and the log messages are left out.
- Text.ParseInt: covers white space, one optional sign, white space after it and ASCII digits. Python 2's `int()` on `unicode` text also accepts decimal digits of other scripts (Arabic-Indic, Devanagari and so on), which the model rejects.
