# pystrano, modelled in Dafny

pystrano deploys Django projects to a fleet of servers over SSH. A YAML
deployment file holds a `common` mapping and a list of `servers`. Each server
entry is laid over `common` and validated into a `PystranoConfig` (a pydantic
model). Its derived paths (`releases_dir`, `current_dir`, `shared_dir`,
`python_path`, `service_file_name`) are then computed by `finalize_config`.
Two commands work on the resulting configurations:

- `set_up` provisions every server as root: the project user, its SSH keys,
  the directory layout, packages, a virtualenv, known hosts, the systemd unit
  and the shared secrets.
- `deploy` creates a release directory named after a timestamp on every
  server, fills it, points the `current` link at it, restarts the service,
  and prunes old releases.

The project has six modules:

- `Text`: the Python string built-ins the core relies on. These are
  `strip`, `split`, `splitlines`, `split()`, `join`, `lower`, `int()` on
  text, `str()` of integers, and POSIX `os.path.join`, `isabs` and
  `basename`.
- `Values`: the values a YAML document parses into. It also models Python
  `dict`s built by successive assignment: the last value assigned wins, and
  keys keep the order of their first assignment. The shallow merge
  `{**common, **server}` follows from that.
- `Models`: the normalisers of every `PystranoConfig` field, the
  revision rule, validation of a whole record, `model_dump`, `update_dict`
  and `finalize_config`. The object is a class whose one field is the
  record, which `update_dict` and `finalize_config` reassign.
- `Loader`: the top-level schema, the error messages, `create_server_config`
  and `load_config` after parsing. The loop over the servers is a method with
  its invariant.
- `Core`: every remote operation, as a method on a `Connection` object that
  keeps the log of issued commands. Which commands fail, and what they print,
  is a property of the server (a `Remote`). A failing command raises unless
  it ran with `warn=True`. Each operation is proved against a plan function:
  it issues the plan's commands in order and stops after the first that
  raises.
- `Deploy`: `set_up` and `deploy`. The operations of one server run in
  order until one raises. Servers are processed in order, and the first
  raise aborts the whole run with exit status 1. All servers of one
  `deploy` share one timestamp.

## Model

| member | source | states |
|---|---|---|
| Text.StripIsTrimmed | pystrano/config/models.py:13 | `strip()` leaves no whitespace at either end |
| Text.StripOfTrimmed | pystrano/config/models.py:13 | `strip()` leaves text without surrounding whitespace unchanged |
| Text.StripIdempotent | pystrano/config/models.py:54 | stripping twice is stripping once |
| Text.TrimEndPrefix | pystrano/config/models.py:13 | stripping the end of a text keeps a prefix of it |
| Text.SplitAround | pystrano/config/models.py:11 | `split(";")` at a separator yields the pieces on its left, then those on its right |
| Text.SplitNoSeparator | pystrano/config/models.py:11 | a text without the separator splits into itself alone |
| Text.LastPieceAfterSeparator | pystrano/core.py:20 | `split("/")[-1]` of `a + "/" + t` is `t` when `t` holds no slash |
| Text.SplitTwice | pystrano/config/models.py:9-13 | splitting on `;` and then splitting each piece on line breaks is splitting on both at once |
| Text.SplitPiecesKeep | pystrano/config/models.py:63 | every character of every piece is a character of the text and not a separator |
| Text.CleanAppend | pystrano/config/models.py:13 | keeping the stripped non-blank parts distributes over concatenation |
| Text.CleanNormalised | pystrano/config/models.py:13 | every part kept is stripped and non-empty |
| Text.CleanOfNormalised | pystrano/config/models.py:54 | a list already stripped and non-blank is kept as it is |
| Text.NonEmptyKeeps | pystrano/config/models.py:63 | `split()` keeps only non-empty parts, taken from the pieces |
| Text.SplitLinesAgree | pystrano/config/models.py:12 | `splitlines()` agrees with splitting on every line break on the first line, and up to empty lines on the rest |
| Text.CleanLinesAgree | pystrano/config/models.py:12-13 | once blank parts are dropped, `splitlines()` and splitting on every line break give the same parts |
| Text.JoinAppend | pystrano/config/loader.py:24 | joining two non-empty runs of parts puts one separator between them |
| Text.LowerStrip | pystrano/config/models.py:78 | lower-casing and stripping commute, and lower-casing is idempotent |
| Text.NatTextDigits | pystrano/config/loader.py:64 | `str(n)` of a natural number is a non-empty run of digits whose value is `n` |
| Text.ParseDigits | pystrano/config/models.py:90 | `int()` of a run of digits is its decimal value |
| Text.ParseNegativeDigits | pystrano/config/models.py:90 | `int()` of `-` followed by digits is the negated value |
| Text.ParseDecimal | pystrano/config/models.py:98 | `int(str(n)) == n` for every integer `n` |
| Text.PathJoin | pystrano/config/models.py:129 | `os.path.join(a, b)` is `b` when `b` is absolute, and otherwise `a/b` when `a` does not end in a slash |
| Text.PathJoinKeepsAbs | pystrano/config/models.py:129-130 | joining onto an absolute directory gives an absolute path |
| Text.InsideDirectory | pystrano/config/models.py:130-132 | a relative name joined onto a directory without a trailing slash is `dir/name` |
| Text.LastSegmentAfterSlash | pystrano/core.py:143 | the base name of `dir/name` is `name` when `name` holds no slash |
| Values.MergeGet | pystrano/config/loader.py:29 | in `{**base, **over}`, a key of `over` takes its value from `over`, and any other key keeps its value from `base` |
| Values.KeysAreAssigned | pystrano/config/loader.py:29 | the keys of a dict are exactly the keys it assigns |
| Values.GetLastAssignment | pystrano/config/models.py:113 | a key assigned once keeps the value assigned there |
| Values.GetUnassigned | pystrano/config/loader.py:33 | a key never assigned is missing, so `get` falls back to its default |
| Models.OptionalText | pystrano/config/models.py:21-24 | an `str \| None` field accepts exactly `None` and strings, and keeps a string as it is |
| Models.Integer | pystrano/config/models.py:25 | no contract; defined as `Ok(n)` when `int()` reads the value as `n`, and otherwise the issue "Input should be a valid integer" |
| Models.ListValues | pystrano/config/models.py:9-13 | no contract; defined as splitting on `;` and line breaks at once, then stripping and dropping blanks; Models.SplitSemicolonValues proves the source's loop equal to it |
| Models.SemicolonList | pystrano/config/models.py:46-55 | `None`, a string or a list is accepted and anything else rejected; the items produced are stripped and non-empty |
| Models.SystemPackages | pystrano/config/models.py:57-66 | the same acceptance for `system_packages`, with stripped non-empty items |
| Models.CloneDepth | pystrano/config/models.py:92-103 | a clone depth is absent or positive |
| Models.ApplyRevisionRule | pystrano/config/models.py:105-109 | a truthy revision leaves no clone depth, only the clone depth may change, and without a revision nothing changes |
| Models.Flag | pystrano/config/models.py:68-83 | no contract; defined as `None` false, a bool itself, a number non-zero, and anything else through its stripped lower-cased `str()` among the tokens, or the issue "Invalid boolean value"; Models.FlagOfText and the lemmas after it state it |
| Models.Port | pystrano/config/models.py:85-90 | no contract; defined as 22 for `None` and `""`, and otherwise `int()` of the value, with `int()`'s `ValueError` or `TypeError` text as the issue; Models.PortValues and Models.PortOfDecimal state it |
| Models.CloneDepthField | pystrano/config/models.py:92-103 | no contract; defined as always accepting, with Models.CloneDepth's result |
| Models.ValidateOver | pystrano/config/models.py:16-109 | no contract; defined as coercing every field the dict names with its validator, keeping the others from the base record, rejecting unknown keys, and then applying the revision rule; the Validate lemmas state it |
| Models.Construct | pystrano/config/models.py:16-44 | no contract; defined as `ValidateOver` over the defaults of lines 21-44 |
| Models.UpdateDictAsWritten | pystrano/config/models.py:111-117 | no contract; defined as `Construct(Dump(s) + data)`, the code as written; Models.AsWrittenRevalidates and Models.UpdateDictRestoresDepth state it |
| Models.Finalize | pystrano/config/models.py:125-146 | only the eight derived fields change; the three directories sit inside the absolute project root exactly when user and root are truthy; `python_path` is `bin/python` inside the absolute venv exactly when user and venv are truthy; a service name exists exactly when a service file is set, and is then that file's base name; the variables are those loaded from the env file when one is set, and none otherwise |
| Models.SplitSemicolonValues | pystrano/config/models.py:9-13 | the loop over `split(";")`, extended by each item's lines and then cleaned, yields `ListValues(value)`: split on semicolons and line breaks, stripped, blanks dropped |
| Models.ListValuesNormalised | pystrano/config/models.py:13 | every item of a semicolon list is stripped and non-empty |
| Models.ListValuesConcat | pystrano/config/models.py:9-13 | a separator splits the items in input order |
| Models.ListValuesSingle | pystrano/config/models.py:9-13 | a trimmed item without separators is a list of itself |
| Models.ListValuesOfPair | pystrano/config/models.py:52 | `"a;b"` with two plain host names is the list `[a, b]` |
| Models.SemicolonListIdempotent | pystrano/config/models.py:53-54 | a normalised list, given back as a list, normalises to itself |
| Models.SystemPackagesIdempotent | pystrano/config/models.py:64-65 | the same for `system_packages` |
| Models.PackageWordsAreAtoms | pystrano/config/models.py:63 | package names given as text are the words once `;` is a space, and hold neither whitespace nor `;` |
| Models.PackageWordsOfPair | pystrano/config/models.py:63 | two plain names on two lines are exactly those two packages |
| Models.FlagOfText | pystrano/config/models.py:78-83 | text is accepted exactly when its stripped lower-cased form is a token, and then means that token's boolean |
| Models.FlagIgnoresCase | pystrano/config/models.py:78 | boolean text is read without regard to case |
| Models.FlagOfTrimmed | pystrano/config/models.py:78-83 | text without surrounding whitespace is read through its lower-cased token |
| Models.FlagOfPrinted | pystrano/config/models.py:78-82 | the text `str()` prints for a boolean reads back as that boolean |
| Models.FlagRejectsWord | pystrano/config/models.py:83 | a word that is no token, such as `"sometimes"`, is rejected |
| Models.FlagOfNumber | pystrano/config/models.py:71-76 | `None` is false, and a number is true exactly when it is non-zero |
| Models.PortValues | pystrano/config/models.py:87-90 | a missing or empty port is 22, and an integer is itself |
| Models.PortOfDecimal | pystrano/config/models.py:87-90 | a port given as the text `str(n)` is the port `n` |
| Models.CloneDepthValues | pystrano/config/models.py:94-100 | a missing or empty depth is 1; an integer is itself when positive and absent otherwise; text that `int()` rejects gives no depth |
| Models.CloneDepthOfDecimal | pystrano/config/models.py:94-103 | a depth given as the text `str(n)` is `n` when `n > 0`, and absent otherwise |
| Models.ValidateNothing | pystrano/config/models.py:16-44 | validating no values over a well-formed record gives that record back |
| Models.ValidatePreservesWellFormed | pystrano/config/models.py:46-109 | every validated record has normalised lists, a positive or absent depth, and no depth beside a revision |
| Models.ValidateKeepsUnmentioned | pystrano/config/models.py:111-117 | a field the update does not name keeps its value, except a depth that a revision turns off |
| Models.UnknownEmpty | pystrano/config/models.py:19 | `extra="forbid"` reports no key exactly when every key is a field name |
| Models.UnknownAppend | pystrano/config/models.py:19 | unknown keys are reported in order across two runs of keys |
| Models.UnknownBehindNamed | pystrano/config/models.py:113-114 | the field names of a dump, assigned first, add no unknown key |
| Models.Unknown | pystrano/config/models.py:19 | no key reported as unknown is a field name |
| Models.UnknownOfNamedKeys | pystrano/config/models.py:19 | a dict whose keys are all field names has no unknown key |
| Models.EnvRoundTrip | pystrano/config/models.py:43 | a dumped `env_vars` mapping validates back to itself |
| Models.ListFieldRoundTrip | pystrano/config/models.py:46-66 | a dumped normalised list validates back to itself, in both list validators |
| Models.DumpGet | pystrano/config/models.py:113 | every field of a dump is found under its own name |
| Models.Dump | pystrano/config/models.py:113 | `model_dump()` lists every field under its own name, in declaration order |
| Models.FieldOver | pystrano/config/models.py:114 | a field named in the later dict comes from it; any other comes from the earlier dict |
| Models.DumpedSourceCodeUrl | pystrano/config/models.py:113-115 | over a dump, `source_code_url` validates as over the record |
| Models.DumpedProjectRoot | pystrano/config/models.py:113-115 | the same for `project_root` |
| Models.DumpedProjectUser | pystrano/config/models.py:113-115 | the same for `project_user` |
| Models.DumpedVenvDir | pystrano/config/models.py:113-115 | the same for `venv_dir` |
| Models.DumpedKeepReleases | pystrano/config/models.py:113-115 | the same for `keep_releases` |
| Models.DumpedPackages | pystrano/config/models.py:113-115 | the same for `system_packages`, for a well-formed record |
| Models.DumpedEnvFile | pystrano/config/models.py:113-115 | the same for `env_file` |
| Models.DumpedKnownHosts | pystrano/config/models.py:113-115 | the same for `ssh_known_hosts`, for a well-formed record |
| Models.DumpedServiceFile | pystrano/config/models.py:113-115 | the same for `service_file` |
| Models.DumpedSecrets | pystrano/config/models.py:113-115 | the same for `secrets`, for a well-formed record |
| Models.DumpedBranch | pystrano/config/models.py:113-115 | the same for `branch` |
| Models.DumpedRevision | pystrano/config/models.py:113-115 | the same for `revision` |
| Models.DumpedCloneDepth | pystrano/config/models.py:113-115 | over a dump, `clone_depth` validates as over the record, except that an absent depth comes back as 1 |
| Models.DumpedHost | pystrano/config/models.py:113-115 | the same for `host` |
| Models.DumpedPort | pystrano/config/models.py:113-115 | the same for `port` |
| Models.DumpedRunMigrations | pystrano/config/models.py:113-115 | the same for `run_migrations` |
| Models.DumpedCollectStaticFiles | pystrano/config/models.py:113-115 | the same for `collect_static_files` |
| Models.DumpedReleasesDir | pystrano/config/models.py:113-115 | the same for `releases_dir` |
| Models.DumpedCurrentDir | pystrano/config/models.py:113-115 | the same for `current_dir` |
| Models.DumpedSharedDir | pystrano/config/models.py:113-115 | the same for `shared_dir` |
| Models.DumpedPythonPath | pystrano/config/models.py:113-115 | the same for `python_path` |
| Models.DumpedEnvVars | pystrano/config/models.py:113-115 | the same for `env_vars` |
| Models.DumpedServiceFileName | pystrano/config/models.py:113-115 | the same for `service_file_name` |
| Models.AsWrittenRevalidates | pystrano/config/models.py:111-117 | `update_dict` as written is validation of the new data over the record with any absent depth turned into 1 |
| Models.UpdateDictRestoresDepth | pystrano/config/models.py:111-117 | as written, an update of a record with no depth and no revision brings depth 1 back, even with no data; the corrected update keeps the record |
| Models.FinalizeIdempotent | pystrano/config/models.py:125-146 | finalizing a finalized record changes nothing |
| Models.FinalizeHomeLayout | pystrano/config/models.py:127-132 | a relative root becomes `/home/{user}/{root}`, and the three directories are `releases`, `current` and `shared` inside it |
| Models.FinalizeAbsoluteLayout | pystrano/config/models.py:128-132 | an absolute root is kept, and the three directories sit directly inside it |
| Models.FinalizePythonPath | pystrano/config/models.py:138-141 | the interpreter is `{venv}/bin/python` for an absolute venv |
| Models.UnderHome | pystrano/config/models.py:128-129 | a root or venv placed under `/home/{user}` is absolute |
| Models.FinalizePreservesWellFormed | pystrano/config/models.py:125-146 | finalizing keeps what validation guarantees |
| Models.PystranoConfig.constructor | pystrano/config/models.py:16-44 | a new object holds the given record |
| Models.PystranoConfig.Create | pystrano/config/loader.py:31 | `PystranoConfig(**d)` gives a fresh object holding the validated record, or exactly the validation issues |
| Models.PystranoConfig.UpdateDict | pystrano/config/models.py:111-117 | the corrected `update_dict` (see Findings; the code as written is Models.UpdateDictAsWritten), all or nothing: an accepted update sets the record to the data validated over it; a rejected one returns the issues and changes no field |
| Models.PystranoConfig.FinalizeConfig | pystrano/config/models.py:125-146 | the fields become `Finalize` of the old fields |
| Loader.CommonField | pystrano/config/loader.py:14 | `common` is accepted exactly when present and a mapping |
| Loader.BadItems | pystrano/config/loader.py:15 | one issue per server entry that is not a mapping, located at `servers.{index}` |
| Loader.ServersField | pystrano/config/loader.py:15 | `servers` is accepted exactly when it is a list of mappings, kept in order |
| Loader.DocumentShape | pystrano/config/loader.py:9-15 | the document validates exactly when it is a mapping holding only a `common` mapping and a `servers` list of mappings, and the result keeps both |
| Loader.NotAMapping | pystrano/config/loader.py:49-53 | a document that is not a mapping is rejected with its issue located at `<root>` |
| Loader.ValidateDocument | pystrano/config/loader.py:9-15 | no contract; defined as `<root>` rejection of a non-mapping, and otherwise the issues of `common`, `servers` and each extra key; Loader.DocumentShape states it |
| Loader.FormatIssues | pystrano/config/loader.py:18-24 | no contract; defined as `; `-joined `location: msg` entries; Loader.FormatShape states it |
| Loader.ServerMessage | pystrano/config/loader.py:33-35 | no contract; defined as `Invalid server config for '{host}': {details}`, with `<unknown>` for a missing host |
| Loader.Location | pystrano/config/loader.py:22 | an empty location prints as `<root>` |
| Loader.FormatShape | pystrano/config/loader.py:18-24 | the message of one issue is `location: msg`, and the messages of several issues are separated by `; ` |
| Loader.ServerConfig | pystrano/config/loader.py:27-38 | a server validates exactly when the merged dict does; the result is well-formed and already finalized; a failure names the host and lists the issues |
| Loader.ServerOverridesCommon | pystrano/config/loader.py:29 | a key the server names takes the server's value, any other key keeps `common`'s, and the merged keys are the union of both |
| Loader.CreateServerConfig | pystrano/config/loader.py:27-38 | the object created holds `ServerConfig`'s record, or the call fails with its message |
| Loader.Collect | pystrano/config/loader.py:58-67 | the collection succeeds exactly when every server does, and then lists their records in order |
| Loader.Results | pystrano/config/loader.py:59-61 | one outcome per server entry, each `create_server_config` of that entry over `common` |
| Loader.LoadFile | pystrano/config/loader.py:55-67 | a load succeeds exactly when `servers` is non-empty and every server validates, and then gives one record per server, in order |
| Loader.LoadSpec | pystrano/config/loader.py:41-67 | an empty file is rejected, and a successful load validated the document first |
| Loader.CollectStopsAt | pystrano/config/loader.py:59-65 | the first failing server decides the message, which names its index |
| Loader.CollectStopsAfter | pystrano/config/loader.py:59-65 | a failure right after a run of successes decides the message |
| Loader.LoadStopsAtFirstBadServer | pystrano/config/loader.py:59-65 | the load is all or nothing: the first invalid server aborts it with a message naming its index and host |
| Loader.CreateAll | pystrano/config/loader.py:58-67 | the loop over the servers gives fresh objects holding every server's record in order, or the first failure's message |
| Loader.LoadConfig | pystrano/config/loader.py:41-67 | `load_config` after parsing gives one fresh finalized object per server, in order, or exactly the message of the load's first failure |
| Core.Attempt | pystrano/core.py:1-151 | the commands issued are a prefix of the plan, and all of the plan when nothing raised |
| Core.AttemptRaisedAtLast | pystrano/core.py:1-151 | an operation that raised stopped at a command that raises |
| Core.AttemptCompletedBeforeLast | pystrano/core.py:1-151 | every command before the last one issued completed |
| Core.AttemptCompletes | pystrano/core.py:1-151 | a plan is issued in full exactly when none of its commands raises |
| Core.AttemptAppend | pystrano/core.py:1-151 | the second part of a plan is issued only after the first part completes |
| Core.AttemptStep | pystrano/core.py:1-151 | issuing the next command of a plan: if it raises, the plan stops there |
| Core.Connection.constructor | pystrano/deploy.py:35 | a new connection has a target, a port, and an empty log |
| Core.Connection.Execute | pystrano/core.py:8 | issuing a command appends it to the log; the reply says whether it raised and failed, and what it printed |
| Core.IssueNext | pystrano/core.py:1-151 | issuing command `j` of a plan keeps the log equal to the plan's prefix, and a raise ends the plan there |
| Core.AttemptSnoc | pystrano/core.py:8-14 | one more command after a completed prefix runs at the next log position |
| Core.SetupReleaseDir | pystrano/core.py:6-8 | issues `mkdir -p {dir}` |
| Core.UpdateSourceCode | pystrano/core.py:11-14 | issues the clone into the release, then the checkout of the branch, stopping at a raise |
| Core.SetupSymlinks | pystrano/core.py:17-20 | links the shared `media` into the release, then points the shared `.env` at the release's uploaded env file, in order |
| Core.InstallRequirements | pystrano/core.py:23-26 | runs `pip install` from the venv inside the release directory |
| Core.CollectStaticFiles | pystrano/core.py:29-32 | runs `collectstatic` inside the release directory with the configured environment |
| Core.MigrateDatabase | pystrano/core.py:35-38 | runs `migrate` inside the release directory with the configured environment |
| Core.UpdateSymlink | pystrano/core.py:41-43 | points `current_dir` at the release |
| Core.RestartService | pystrano/core.py:46-48 | restarts the service with `sudo` |
| Core.RemoveReleases | pystrano/core.py:62-63 | removes the named releases in order, stopping at a raise |
| Core.RemovalsOf | pystrano/core.py:62-63 | one `rm -rf {releases_dir}/{release}` per name, in order |
| Core.RemoveOldReleases | pystrano/core.py:60-63 | removes all but the last `keep_releases` entries of the listing, and nothing when there are no more than that |
| Core.CleanupOldReleases | pystrano/core.py:51-63 | does nothing when `keep_releases <= 0`; otherwise lists the releases quietly, then removes the excess |
| Core.CleanupOutcome | pystrano/core.py:51-63 | no contract; defined as nothing for `keep_releases <= 0`, and otherwise the listing, then the removals of the excess from the `split()` of its output; Core.CleanupOldReleases is proved against it |
| Core.CleanupKeepsAll | pystrano/core.py:54-56 | a non-positive `keep_releases` issues no command at all |
| Core.CleanupRemovesOldest | pystrano/core.py:58-63 | after the listing, only the oldest entries are removed, in listing order, and no more than the excess |
| Core.CleanupRemovesAllOld | pystrano/core.py:58-63 | the clean-up completes exactly when no removal raises, and then it removed exactly the excess |
| Core.CleanupSparesNewest | pystrano/core.py:60-61 | an entry among the last `keep_releases` of the listing is never removed |
| Core.RemoveReleaseInjective | pystrano/core.py:63 | distinct releases get distinct removal commands |
| Core.CreateProjectUser | pystrano/core.py:66-76 | probes for the user with `warn`, and creates the user only when the probe failed |
| Core.CreateUserOutcome | pystrano/core.py:66-76 | no contract; defined as the probe, followed by the user's creation only when the probe failed; Core.CreateProjectUser is proved against it |
| Core.CreateUserOnlyWhenMissing | pystrano/core.py:69-76 | the probe comes first; `useradd` and the sudoers entry follow exactly when the probe failed; a raise happens only in those two |
| Core.CreateDirectoryStructure | pystrano/core.py:79-84 | creates the shared, releases and venv directories, then hands the root to the project user |
| Core.SetupPackages | pystrano/core.py:87-94 | updates apt, installs the base packages, and installs the extra packages only when some are configured, with the corrected space-separated package argument (see Findings) |
| Core.PackageArgumentsSplit | pystrano/core.py:94 | `split()` of the space-joined package argument gives back exactly the packages |
| Core.PackagesAsWrittenMisnamed | pystrano/core.py:94 | as written, the command line for one package `p` carries the single word `['p']`, whose `split()` is not the packages; the corrected plan carries `p` |
| Core.PackagesPlanAsWritten | pystrano/core.py:87-94 | no contract; defined as `setup_packages` as written, formatting the list by `repr()`; Core.PackagesAsWrittenMisnamed states it |
| Core.SetupVenv | pystrano/core.py:97-100 | creates the venv, then hands it to the project user |
| Core.CopyAuthorizedKeys | pystrano/core.py:103-107 | creates the user's `.ssh`, copies root's authorized keys into it, and hands it over |
| Core.SetupKnownHosts | pystrano/core.py:110-117 | scans github.com, then each configured host in order, then hands `known_hosts` to the user |
| Core.KnownHostsPlanShape | pystrano/core.py:110-117 | the plan is the github.com scan, one scan per host in order, and the ownership change last |
| Core.KnownHostsOrder | pystrano/core.py:110-117 | `known_hosts` changes owner only after every scan completed |
| Core.ScanIsNotChown | pystrano/core.py:112-117 | no scan command is the ownership change |
| Core.Scans | pystrano/core.py:114-115 | one `ssh-keyscan` per configured host, in order |
| Core.SetupService | pystrano/core.py:120-124 | uploads the unit file, reloads systemd, then enables the service |
| Core.TryToRemoveReleaseDir | pystrano/core.py:127-132 | issues `rm -rf {dir}`, and a raise does not escape |
| Core.CopyEnvFile | pystrano/core.py:135-137 | uploads the env file to `.env.{release name}` in the shared directory; an unset env file is an ordinary upload here (see Left out) |
| Core.CopySecrets | pystrano/core.py:140-144 | uploads every secret, in order, to the shared directory under its base name |
| Core.LinkSecretsToRelease | pystrano/core.py:147-151 | links every uploaded secret into the release directory, in order |
| Core.SecretsPlan | pystrano/core.py:142-144 | one upload per secret, in order, to the shared directory under the secret's base name |
| Core.LinkSecretsPlan | pystrano/core.py:149-151 | one link per secret, in order, from its upload into the release directory |
| Core.EnvLinkTargetsUpload | pystrano/core.py:20 | the env link points at the file that `copy_env_file` uploaded for the same release |
| Core.SecretLinksMatchUploads | pystrano/core.py:140-151 | the `j`-th link points at the `j`-th upload, which sits in the shared directory under the secret's base name |
| Deploy.RunAppend | pystrano/deploy.py:32-64 | one more operation at the end runs only when none before it raised |
| Deploy.RunStep | pystrano/deploy.py:32-64 | running one more operation extends the run of the operations before it |
| Deploy.RaisedStops | pystrano/deploy.py:62-64 | once an operation raised, no later one is started |
| Deploy.StartedInOrder | pystrano/deploy.py:33-61 | operations start in order, all of them unless one raised |
| Deploy.IssuedGrows | pystrano/deploy.py:33-61 | running more operations only adds commands at the end of the log |
| Deploy.StartedAfterCompleted | pystrano/deploy.py:33-61 | an operation starts only once every operation before it completed |
| Deploy.Next | pystrano/deploy.py:33-61 | after each operation, the run either ends with a raise or reaches the next operation |
| Deploy.CreateReleaseTasks | pystrano/deploy.py:77-84 | `deploy`'s first three operations are the release directory, the source code and the env file |
| Deploy.ConfigureReleaseTasks | pystrano/deploy.py:86-94 | the next three are the shared links, the requirements and the secret links |
| Deploy.BuildReleaseTasks | pystrano/deploy.py:96-102 | the next two collect static files and migrate, each only when configured and otherwise skipped |
| Deploy.PublishReleaseTasks | pystrano/deploy.py:104-112 | the last three are the `current` link, the restart and the clean-up |
| Deploy.CreateAccountTasks | pystrano/deploy.py:37-44 | `set_up`'s first three operations are the user, the keys and the directories |
| Deploy.PrepareEnvironmentTasks | pystrano/deploy.py:46-53 | the next three are the packages, the venv and the known hosts |
| Deploy.InstallServiceTasks | pystrano/deploy.py:55-61 | the last two are the service unit and the secrets |
| Deploy.SetupNames | pystrano/deploy.py:37-61 | the operations of `set_up` are named in source order |
| Deploy.DeployNames | pystrano/deploy.py:77-112 | the operations of `deploy` are named in source order |
| Deploy.CreateRelease | pystrano/deploy.py:77-84 | creates the release directory, the code and the env file, then ends or reaches the next operation |
| Deploy.ConfigureRelease | pystrano/deploy.py:86-94 | the shared links, the requirements and the secret links |
| Deploy.BuildRelease | pystrano/deploy.py:96-102 | static files and migrations, each only when configured |
| Deploy.PublishRelease | pystrano/deploy.py:104-112 | the `current` link, the restart and the clean-up, ending the server's run |
| Deploy.DeployServer | pystrano/deploy.py:72-112 | connects as the project user on the configured port and runs the eleven operations until one raises |
| Deploy.CreateAccount | pystrano/deploy.py:37-44 | the user, the keys and the directories, then ends or reaches the next operation |
| Deploy.PrepareEnvironment | pystrano/deploy.py:46-53 | the packages (with the corrected package argument), the venv and the known hosts |
| Deploy.InstallService | pystrano/deploy.py:55-61 | the service unit and the secrets, ending the server's run |
| Deploy.SetupServer | pystrano/deploy.py:34-61 | connects as root on the configured port and runs the eight operations until one raises, installing packages with the corrected argument |
| Deploy.SetupOrder | pystrano/deploy.py:33-61 | `set_up` starts its operations in source order, stopping only at a raise, and always creates the user first |
| Deploy.DeployOrder | pystrano/deploy.py:71-112 | `deploy` starts its operations in source order, stopping only at a raise, and always creates the release directory first |
| Deploy.DeployCompletedBefore | pystrano/deploy.py:78-112 | an operation of `deploy` starts only after every earlier one ran without raising; so `current` moves only to a complete release, and old releases go only after the restart |
| Deploy.SetupCompletedBefore | pystrano/deploy.py:38-61 | an operation of `set_up` starts only after every earlier one ran without raising |
| Deploy.DeployOpensRelease | pystrano/deploy.py:72-78 | the first command of `deploy` on a server creates `{releases_dir}/{timestamp}` |
| Deploy.SetupOpensWithProbe | pystrano/deploy.py:37-38 | the first command of `set_up` on a server asks whether the project user exists |
| Deploy.OptionalSteps | pystrano/deploy.py:96-102 | static files are collected, and migrations run, only when configured; otherwise nothing is issued |
| Deploy.UntilRaised | pystrano/deploy.py:62-64 | the runs kept are a prefix of all the runs |
| Deploy.UntilRaisedAborts | pystrano/deploy.py:62-64 | no server is contacted after one raised, and a run is cut short only by a raise |
| Deploy.UntilRaisedStops | pystrano/deploy.py:113-115 | the first server that raised is the last one contacted |
| Deploy.UntilRaisedAll | pystrano/deploy.py:70-112 | when no server raises, every server is contacted |
| Deploy.ExitStatusRaised | pystrano/deploy.py:62-64 | the exit status is 1 exactly when some server's run raised |
| Deploy.ExitStatus | pystrano/deploy.py:62-64 | no contract; defined as 1 when the last run made raised, and 0 otherwise |
| Deploy.SetupRun | pystrano/deploy.py:34-61 | no contract; defined as `set_up`'s eight operations run on one server as `root@{host}` until one raises; Deploy.SetupServer is proved against it |
| Deploy.DeployRun | pystrano/deploy.py:72-112 | no contract; defined as `deploy`'s eleven operations run on one server as `{user}@{host}` in the release of the timestamp, until one raises; Deploy.DeployServer is proved against it |
| Deploy.SetupAllAt | pystrano/deploy.py:33 | the `i`-th server's run is `set_up` on that server |
| Deploy.DeployAllAt | pystrano/deploy.py:71 | the `i`-th server's run is `deploy` on that server, with the shared timestamp |
| Deploy.Fields | pystrano/deploy.py:33 | the records of the configuration objects, one per object, in order |
| Deploy.SetupRunsConnect | pystrano/deploy.py:33-35 | every server `set_up` reaches is contacted as `root@{host}` on its own port |
| Deploy.DeployRunsShareRelease | pystrano/deploy.py:68-78 | every server `deploy` reaches is contacted as `{user}@{host}` on its port, and opens the release directory of the one shared timestamp |
| Deploy.SetupNth | pystrano/deploy.py:34-61 | the body of `set_up`'s loop for one server |
| Deploy.DeployNth | pystrano/deploy.py:72-112 | the body of `deploy`'s loop for one server |
| Deploy.SetUp | pystrano/deploy.py:31-64 | `set_up` runs the servers in order up to the first that raised, and exits with status 1 exactly then; packages are installed with the corrected argument |
| Deploy.Deploy | pystrano/deploy.py:67-115 | `deploy` runs the servers in order with one timestamp, up to the first that raised, and exits with status 1 exactly then |

## Left out

- YAML parsing, `dotenv_values` and `shlex.quote`: parsing is outside the
  model. `load_config` starts from the parsed document. The env file's
  quoted variables are a function parameter (`loadEnv`).
- File reading, printing, and the clock. The timestamp of `deploy` is a
  parameter. The progress messages and the `print` of errors are not
  modelled.
- SSH, Fabric and the remote shell. A `Remote` gives, for each position in a
  connection's log, whether that command fails and what it prints.
  `forward_agent` and `connection.cd` appear only as the command's working
  directory.
- A command run with `warn=True`, here the `id -u` probe, never raises in
  the model. In Fabric, a connection or authentication failure raises even
  under `warn`. That limit is why Core.CreateUserOnlyWhenMissing can say the
  probe never raises.
- With `service_file` unset, Fabric's `put` gets `None` as its local path
  and refuses it before contacting the server. In the model that step is an
  ordinary `Put` of the text `None`, which may succeed.
- Core.CopyEnvFile, Deploy.CreateRelease, Deploy.DeployServer, Deploy.Deploy:
  the same holds for `env_file`, which defaults to `None` and which `deploy`
  uploads with no guard. For a server with an unset or empty `env_file`, the
  program's `put` raises locally. `deploy` then stops at the third operation,
  after `mkdir` and `git clone`, and exits with status 1. In the model,
  `Put("None", …)` or `Put("", …)` is an ordinary command that may succeed,
  so the run may go on to the `current` link and the restart.
- The `main` command line, `click` and `exit`: `SetUp` and `Deploy` return
  the exit status instead of exiting.
- Models.Port: `int()` of a list or mapping `port` raises a `TypeError` in
  `_parse_port`. Pydantic does not wrap a `TypeError` into a
  `ValidationError`, and neither `except ValidationError` in
  `create_server_config` nor `except ValueError` in `load_config` catches
  it. So `load_config` raises a bare `TypeError`, without the host or the
  server index. The model turns it into an ordinary issue of the `port` field.
- Loader.ServerConfig, Loader.CreateServerConfig: for a list or mapping
  `port`, they report the wrapped `Invalid server config` message, which the
  program never produces for that input (see Models.Port).
- Loader.LoadFile, Loader.LoadStopsAtFirstBadServer, Loader.CreateAll,
  Loader.LoadConfig: likewise, for a list or mapping `port` they give the
  message naming `servers[i]` and the host, where the program raises the bare
  `TypeError`.
- Issue messages follow pydantic's wording only where the source builds them.
- `Models.Integer`: `keep_releases` is read with Python's `int()` rules for
  text. Pydantic's own integer parsing differs from it on a few inputs, such
  as underscores and floats.
- Floats: YAML floats are not among the values. `_parse_bool`'s float case
  and `int()` of a float are not modelled.
- `Text.ParseInt`: `int()` of text accepts only ASCII digits, not other
  Unicode digits.
- `Text.Lower`: case folding is ASCII only. No other character lower-cases
  to a letter of the boolean tokens.
- `Values.Repr`: `repr()` of a string does not escape quotes or special
  characters.
- Pydantic's `validate_assignment=True`: the assignments in
  `finalize_config` are not revalidated. They store only strings, `None` and
  a dict of strings, which their fields accept.
- The `hasattr` guards in `set_up` and `deploy` always hold for a validated
  configuration. So the service steps run whenever `service_file` is unset
  too, with `None` in the command, as written.
- `try_to_remove_release_dir`: it is modelled, but `deploy` never calls it.
  A failure on one server aborts the whole run, as the code does, with no
  removal of the partial release: a failed server is not isolated from the
  servers after it.
- `cleanup_old_releases` does not sort the listing. The listing is used in
  the order `ls -1` prints it, unsorted, which is the listing itself in the
  model. How `ls` orders names is not modelled.
- Models.PystranoConfig.UpdateDict: models the corrected `update_dict`,
  which validates `data` over the current record. The code as written is
  Models.UpdateDictAsWritten (see Findings).
- Core.SetupPackages: models the corrected package command, with the
  packages separated by spaces. The code as written is
  Core.PackagesPlanAsWritten (see Findings).
- Deploy.PrepareEnvironment, Deploy.SetupServer: run Core.SetupPackages, so
  they install packages with the corrected command.
- Deploy.SetUp: likewise, so no as-written run of `set_up` is modelled for a
  non-empty `system_packages`.
- `_load_env_file` is not modelled beyond its result, because it reads a
  local file.

## Findings

| source | as written | input that shows it | evidently intended | confidence | as-written member | corrected member |
|---|---|---|---|---|---|---|
| pystrano/config/models.py:111-117 | `update_dict` validates `model_dump()` updated with `data`, so an absent clone depth is dumped as `None` and validated back to the default 1 | `PystranoConfig(clone_depth=0)` (no revision), then `update_dict({})`: the depth becomes 1 | the update changes only the fields `data` names | not executed | Models.UpdateDictAsWritten, Models.UpdateDictRestoresDepth | Models.PystranoConfig.UpdateDict (validation of `data` over the current record, Models.ValidateKeepsUnmentioned) |
| pystrano/core.py:94 | `f'apt install -y {conf.system_packages}'` formats the Python list, so the command line carries the word `['libpq-dev']`, which the shell hands to apt as `[libpq-dev]`, not a package name | `system_packages: libpq-dev` gives `apt install -y ['libpq-dev']` | the packages separated by spaces | not executed | Core.PackagesPlanAsWritten, Core.PackagesAsWrittenMisnamed | Core.PackagesPlan, Core.PackageArgumentsSplit, Core.SetupPackages |
