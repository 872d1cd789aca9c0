/**
  The per-server configuration record of pystrano: its fields and defaults,
  the normalisers that coerce raw YAML values into them, validation of a whole
  record (unknown keys rejected, the revision rule applied afterwards), the
  dump of a record back into a dict, `update_dict`, and `finalize_config`,
  which derives the release layout from the user, the project root and the
  virtual environment.
*/
module Models {
  import opened Text
  import opened Values

  // ---------------------------------------------------------------------------
  // Validation issues: a location (field names and list indices) and a message

  datatype LocPart = Key(name: string) | Index(i: nat)

  datatype Issue = Issue(loc: seq<LocPart>, msg: string)

  /** The issues of a field value, located under that field's name. */
  function Within(name: string, issues: seq<Issue>): (r: seq<Issue>)
    ensures |r| == |issues|
  {
    seq(|issues|, k requires 0 <= k < |issues| => Issue([Key(name)] + issues[k].loc, issues[k].msg))
  }

  function Fail<T>(msg: string): Result<T, seq<Issue>> {
    Err([Issue([], msg)])
  }

  // ---------------------------------------------------------------------------
  // The record

  datatype Settings = Settings(
    sourceCodeUrl: Option<string>,
    projectRoot: Option<string>,
    projectUser: Option<string>,
    venvDir: Option<string>,
    keepReleases: int,
    systemPackages: seq<string>,
    envFile: Option<string>,
    sshKnownHosts: seq<string>,
    serviceFile: Option<string>,
    secrets: seq<string>,
    branch: Option<string>,
    revision: Option<string>,
    cloneDepth: Option<int>,
    host: Option<string>,
    port: int,
    runMigrations: bool,
    collectStaticFiles: bool,
    releasesDir: Option<string>,
    currentDir: Option<string>,
    sharedDir: Option<string>,
    pythonPath: Option<string>,
    envVars: seq<(string, string)>,
    serviceFileName: Option<string>)

  /** The declared defaults: five releases kept, shallow clones of depth one,
      port 22, both flags off, every other field absent or empty. */
  const Default: Settings :=
    Settings(None, None, None, None, 5, [], None, [], None, [], None, None, Some(1), None, 22,
             false, false, None, None, None, None, [], None)

  /** The field names in declaration order. */
  const FieldNames: seq<string> :=
    ["source_code_url", "project_root", "project_user", "venv_dir", "keep_releases",
     "system_packages", "env_file", "ssh_known_hosts", "service_file", "secrets", "branch",
     "revision", "clone_depth", "host", "port", "run_migrations", "collect_static_files",
     "releases_dir", "current_dir", "shared_dir", "python_path", "env_vars", "service_file_name"]

  lemma FieldNamesDistinct()
    ensures forall i, j :: 0 <= i < j < |FieldNames| ==> FieldNames[i] != FieldNames[j]
  {
  }

  /** Python truthiness of an optional string: present and non-empty. */
  predicate Truthy(o: Option<string>) {
    o.Some? && o.value != ""
  }

  /** What every validated record satisfies: the list fields hold trimmed,
      non-empty items, a clone depth is positive, and a revision excludes a
      clone depth. */
  predicate WellFormed(s: Settings) {
    AllTrimmedNonEmpty(s.systemPackages)
    && AllTrimmedNonEmpty(s.sshKnownHosts)
    && AllTrimmedNonEmpty(s.secrets)
    && (s.cloneDepth.None? || s.cloneDepth.value > 0)
    && (Truthy(s.revision) ==> s.cloneDepth.None?)
  }

  // ---------------------------------------------------------------------------
  // Field coercers

  /** An `str | None` field. */
  function OptionalText(v: Raw): (r: Result<Option<string>, seq<Issue>>)
    ensures r.Ok? <==> v.RNone? || v.RStr?
    ensures v.RStr? ==> r == Ok(Some(v.s))
  {
    match v
    case RNone => Ok(None)
    case RStr(s) => Ok(Some(s))
    case _ => Fail("Input should be a valid string")
  }

  /** An `int` field (`keep_releases`), accepting what `int()` accepts. */
  function Integer(v: Raw): Result<int, seq<Issue>> {
    match IntOf(v)
    case Some(n) => Ok(n)
    case None => Fail("Input should be a valid integer")
  }

  predicate IsListSeparator(c: char) {
    IsSemicolon(c) || IsLineBreak(c)
  }

  /** The pieces of `value` between semicolons and line breaks, stripped, with
      empty pieces dropped. */
  function ListValues(value: string): seq<string> {
    Clean(Split(value, IsListSeparator))
  }

  /** Python's `str()` of every item. */
  function ItemTexts(items: seq<Raw>): (r: seq<string>)
    ensures |r| == |items|
  {
    seq(|items|, k requires 0 <= k < |items| => Str(items[k]))
  }

  /** `ssh_known_hosts` and `secrets`: `None` is the empty list, a string is
      split on semicolons and line breaks, a list keeps the stripped text of its
      non-blank items, and anything else is rejected. */
  function SemicolonList(v: Raw): (r: Result<seq<string>, seq<Issue>>)
    ensures r.Ok? <==> v.RNone? || v.RStr? || v.RList?
    ensures r.Ok? ==> AllTrimmedNonEmpty(r.value)
  {
    match v
    case RNone => Ok([])
    case RStr(s) => CleanNormalised(Split(s, IsListSeparator)); Ok(ListValues(s))
    case RList(items) => CleanNormalised(ItemTexts(items)); Ok(Clean(ItemTexts(items)))
    case _ => Fail("Value error, Expected a string or list, got " + TypeName(v))
  }

  function ReplaceSemicolons(s: string): (r: string)
    ensures |r| == |s|
  {
    seq(|s|, k requires 0 <= k < |s| => if s[k] == ';' then ' ' else s[k])
  }

  /** The whitespace-separated words of `value` once semicolons are spaces. */
  function PackageWords(value: string): seq<string> {
    Clean(Words(ReplaceSemicolons(value)))
  }

  /** `system_packages`: like `SemicolonList`, except that a string is split on
      semicolons and on every kind of whitespace. */
  function SystemPackages(v: Raw): (r: Result<seq<string>, seq<Issue>>)
    ensures r.Ok? <==> v.RNone? || v.RStr? || v.RList?
    ensures r.Ok? ==> AllTrimmedNonEmpty(r.value)
  {
    match v
    case RNone => Ok([])
    case RStr(s) => CleanNormalised(Words(ReplaceSemicolons(s))); Ok(PackageWords(s))
    case RList(items) => CleanNormalised(ItemTexts(items)); Ok(Clean(ItemTexts(items)))
    case _ => Fail("Value error, Expected a string or list, got " + TypeName(v))
  }

  const TrueTokens: set<string> := {"1", "true", "yes", "on"}

  const FalseTokens: set<string> := {"0", "false", "no", "off", ""}

  /** The boolean a normalised token stands for. */
  function Token(t: string): Option<bool> {
    if t in TrueTokens then Some(true)
    else if t in FalseTokens then Some(false)
    else None
  }

  /** `run_migrations` and `collect_static_files`: text is stripped and
      lower-cased, then looked up among the tokens. */
  function Flag(v: Raw): Result<bool, seq<Issue>> {
    match v
    case RNone => Ok(false)
    case RBool(b) => Ok(b)
    case RInt(i) => Ok(i != 0)
    case _ =>
      match Token(Lower(Strip(Str(v))))
      case Some(b) => Ok(b)
      case None => Fail("Value error, Invalid boolean value: " + Repr(v))
  }

  /** `port`: `None` and the empty string give 22, anything else goes through `int()`. */
  function Port(v: Raw): Result<int, seq<Issue>> {
    if v == RNone || v == RStr("") then Ok(22)
    else
      match IntOf(v)
      case Some(n) => Ok(n)
      case None =>
        if v.RStr? then Fail("Value error, invalid literal for int() with base 10: " + Repr(v))
        else Fail("int() argument must be a string, a bytes-like object or a real number, not '"
                  + TypeName(v) + "'")
  }

  /** `clone_depth`: `None` and the empty string give 1; text that is not an
      integer, and integers that are not positive, give no depth at all. */
  function CloneDepth(v: Raw): (r: Option<int>)
    ensures r.None? || r.value > 0
  {
    if v == RNone || v == RStr("") then Some(1)
    else
      match IntOf(v)
      case None => None
      case Some(n) => if n <= 0 then None else Some(n)
  }

  function CloneDepthField(v: Raw): Result<Option<int>, seq<Issue>> {
    Ok(CloneDepth(v))
  }

  /** `env_vars`: a mapping from names to strings. */
  function EnvVars(v: Raw): Result<seq<(string, string)>, seq<Issue>> {
    match v
    case RMap(entries) => EnvEntries(entries)
    case _ => Fail("Input should be a valid dictionary")
  }

  function EnvEntries(entries: seq<(string, Raw)>): Result<seq<(string, string)>, seq<Issue>>
    decreases |entries|
  {
    if entries == [] then Ok([])
    else
      var rest := EnvEntries(entries[1..]);
      var here := entries[0];
      if here.1.RStr? then
        if rest.Ok? then Ok([(here.0, here.1.s)] + rest.value) else rest
      else
        var issue := Issue([Key(here.0)], "Input should be a valid string");
        if rest.Ok? then Err([issue]) else Err([issue] + rest.error)
  }

  // ---------------------------------------------------------------------------
  // Validation of a whole record

  /** One field: a key absent from `d` keeps `current`; a present key is coerced,
      and its issues are located under the field's name. */
  function Field<T>(d: Dict, name: string, current: T, coerce: Raw -> Result<T, seq<Issue>>): Result<T, seq<Issue>> {
    match Get(d, name)
    case None => Ok(current)
    case Some(v) =>
      match coerce(v)
      case Ok(x) => Ok(x)
      case Err(e) => Err(Within(name, e))
  }

  function Problems<T>(r: Result<T, seq<Issue>>): seq<Issue> {
    if r.Err? then r.error else []
  }

  /** The keys of `keys` that are not among `names`, in order. */
  function Unknown(keys: seq<string>, names: seq<string>): (r: seq<string>)
    ensures forall k :: 0 <= k < |r| ==> r[k] !in names
    decreases |keys|
  {
    if keys == [] then []
    else (if keys[0] in names then [] else [keys[0]]) + Unknown(keys[1..], names)
  }

  /** `extra="forbid"`: one issue per key of `d` that names no field. */
  function ExtraIssues(d: Dict): seq<Issue> {
    var extra := Unknown(Keys(d), FieldNames);
    seq(|extra|, k requires 0 <= k < |extra| => Issue([Key(extra[k])], "Extra inputs are not permitted"))
  }

  /** The model validator that runs after the fields: a revision turns off
      shallow cloning. */
  function ApplyRevisionRule(s: Settings): (r: Settings)
    ensures Truthy(r.revision) ==> r.cloneDepth.None?
    ensures r.(cloneDepth := s.cloneDepth) == s
    ensures !Truthy(s.revision) ==> r == s
  {
    if Truthy(s.revision) && s.cloneDepth.Some? then s.(cloneDepth := None) else s
  }

  /** Validation of the values in `d` over the record `base`: the fields `d`
      names are coerced, the others keep `base`'s value; any issue, including an
      unknown key, rejects the whole record. Constructing a `PystranoConfig`
      from keyword arguments is validation over `Default`. */
  function ValidateOver(base: Settings, d: Dict): Result<Settings, seq<Issue>> {
    var sourceCodeUrl := Field(d, "source_code_url", base.sourceCodeUrl, OptionalText);
    var projectRoot := Field(d, "project_root", base.projectRoot, OptionalText);
    var projectUser := Field(d, "project_user", base.projectUser, OptionalText);
    var venvDir := Field(d, "venv_dir", base.venvDir, OptionalText);
    var keepReleases := Field(d, "keep_releases", base.keepReleases, Integer);
    var systemPackages := Field(d, "system_packages", base.systemPackages, SystemPackages);
    var envFile := Field(d, "env_file", base.envFile, OptionalText);
    var sshKnownHosts := Field(d, "ssh_known_hosts", base.sshKnownHosts, SemicolonList);
    var serviceFile := Field(d, "service_file", base.serviceFile, OptionalText);
    var secrets := Field(d, "secrets", base.secrets, SemicolonList);
    var branch := Field(d, "branch", base.branch, OptionalText);
    var revision := Field(d, "revision", base.revision, OptionalText);
    var cloneDepth := Field(d, "clone_depth", base.cloneDepth, CloneDepthField);
    var host := Field(d, "host", base.host, OptionalText);
    var port := Field(d, "port", base.port, Port);
    var runMigrations := Field(d, "run_migrations", base.runMigrations, Flag);
    var collectStaticFiles := Field(d, "collect_static_files", base.collectStaticFiles, Flag);
    var releasesDir := Field(d, "releases_dir", base.releasesDir, OptionalText);
    var currentDir := Field(d, "current_dir", base.currentDir, OptionalText);
    var sharedDir := Field(d, "shared_dir", base.sharedDir, OptionalText);
    var pythonPath := Field(d, "python_path", base.pythonPath, OptionalText);
    var envVars := Field(d, "env_vars", base.envVars, EnvVars);
    var serviceFileName := Field(d, "service_file_name", base.serviceFileName, OptionalText);
    if sourceCodeUrl.Ok? && projectRoot.Ok? && projectUser.Ok? && venvDir.Ok? && keepReleases.Ok?
       && systemPackages.Ok? && envFile.Ok? && sshKnownHosts.Ok? && serviceFile.Ok? && secrets.Ok?
       && branch.Ok? && revision.Ok? && cloneDepth.Ok? && host.Ok? && port.Ok?
       && runMigrations.Ok? && collectStaticFiles.Ok? && releasesDir.Ok? && currentDir.Ok? && sharedDir.Ok?
       && pythonPath.Ok? && envVars.Ok? && serviceFileName.Ok?
       && ExtraIssues(d) == []
    then
      Ok(ApplyRevisionRule(Settings(
        sourceCodeUrl.value, projectRoot.value, projectUser.value, venvDir.value,
        keepReleases.value, systemPackages.value, envFile.value, sshKnownHosts.value,
        serviceFile.value, secrets.value, branch.value, revision.value,
        cloneDepth.value, host.value, port.value, runMigrations.value,
        collectStaticFiles.value, releasesDir.value, currentDir.value, sharedDir.value,
        pythonPath.value, envVars.value, serviceFileName.value)))
    else
      Err(
        Problems(sourceCodeUrl) + Problems(projectRoot) + Problems(projectUser) + Problems(venvDir)
        + Problems(keepReleases) + Problems(systemPackages) + Problems(envFile) + Problems(sshKnownHosts)
        + Problems(serviceFile) + Problems(secrets) + Problems(branch) + Problems(revision)
        + Problems(cloneDepth) + Problems(host) + Problems(port) + Problems(runMigrations)
        + Problems(collectStaticFiles) + Problems(releasesDir) + Problems(currentDir) + Problems(sharedDir)
        + Problems(pythonPath) + Problems(envVars) + Problems(serviceFileName)
        + ExtraIssues(d))
  }

  /** `PystranoConfig(**d)`. */
  function Construct(d: Dict): Result<Settings, seq<Issue>> {
    ValidateOver(Default, d)
  }

  // ---------------------------------------------------------------------------
  // model_dump

  function TextRaw(o: Option<string>): Raw {
    if o.Some? then RStr(o.value) else RNone
  }

  function ListRaw(items: seq<string>): Raw {
    RList(seq(|items|, k requires 0 <= k < |items| => RStr(items[k])))
  }

  function EnvRaw(env: seq<(string, string)>): Raw {
    RMap(seq(|env|, k requires 0 <= k < |env| => (env[k].0, RStr(env[k].1))))
  }

  function DepthRaw(o: Option<int>): Raw {
    if o.Some? then RInt(o.value) else RNone
  }

  /** `model_dump()`: every field under its name, in declaration order. */
  function Dump(s: Settings): (r: Dict)
    ensures |r| == |FieldNames| && forall i :: 0 <= i < |r| ==> r[i].0 == FieldNames[i]
  {
    [("source_code_url", TextRaw(s.sourceCodeUrl)),
     ("project_root", TextRaw(s.projectRoot)),
     ("project_user", TextRaw(s.projectUser)),
     ("venv_dir", TextRaw(s.venvDir)),
     ("keep_releases", RInt(s.keepReleases)),
     ("system_packages", ListRaw(s.systemPackages)),
     ("env_file", TextRaw(s.envFile)),
     ("ssh_known_hosts", ListRaw(s.sshKnownHosts)),
     ("service_file", TextRaw(s.serviceFile)),
     ("secrets", ListRaw(s.secrets)),
     ("branch", TextRaw(s.branch)),
     ("revision", TextRaw(s.revision)),
     ("clone_depth", DepthRaw(s.cloneDepth)),
     ("host", TextRaw(s.host)),
     ("port", RInt(s.port)),
     ("run_migrations", RBool(s.runMigrations)),
     ("collect_static_files", RBool(s.collectStaticFiles)),
     ("releases_dir", TextRaw(s.releasesDir)),
     ("current_dir", TextRaw(s.currentDir)),
     ("shared_dir", TextRaw(s.sharedDir)),
     ("python_path", TextRaw(s.pythonPath)),
     ("env_vars", EnvRaw(s.envVars)),
     ("service_file_name", TextRaw(s.serviceFileName))]
  }

  // ---------------------------------------------------------------------------
  // finalize_config

  /** `os.path.join("/home", user, p)` unless `p` is already absolute. */
  function UnderHome(user: string, p: string): (r: string)
    ensures IsAbs(r)
  {
    PathJoinKeepsAbs("/home", user);
    PathJoinKeepsAbs(PathJoin("/home", user), p);
    if IsAbs(p) then p else PathJoin(PathJoin("/home", user), p)
  }

  /** The derived fields. `loadEnv` stands for reading the environment file
      and shell-quoting its values. */
  function Finalize(s: Settings, loadEnv: string -> seq<(string, string)>): (r: Settings)
    ensures r == s.(projectRoot := r.projectRoot, venvDir := r.venvDir,
                    releasesDir := r.releasesDir, currentDir := r.currentDir,
                    sharedDir := r.sharedDir, pythonPath := r.pythonPath,
                    envVars := r.envVars, serviceFileName := r.serviceFileName)
    ensures !(Truthy(s.projectUser) && Truthy(s.projectRoot)) ==>
              r.projectRoot == s.projectRoot && r.releasesDir.None? && r.currentDir.None? && r.sharedDir.None?
    ensures Truthy(s.projectUser) && Truthy(s.projectRoot) ==>
              r.projectRoot.Some? && IsAbs(r.projectRoot.value)
              && r.releasesDir == Some(PathJoin(r.projectRoot.value, "releases"))
              && r.currentDir == Some(PathJoin(r.projectRoot.value, "current"))
              && r.sharedDir == Some(PathJoin(r.projectRoot.value, "shared"))
    ensures !(Truthy(s.projectUser) && Truthy(s.venvDir)) ==> r.venvDir == s.venvDir && r.pythonPath.None?
    ensures Truthy(s.projectUser) && Truthy(s.venvDir) ==>
              r.venvDir.Some? && IsAbs(r.venvDir.value)
              && r.pythonPath == Some(PathJoin(PathJoin(r.venvDir.value, "bin"), "python"))
    ensures r.serviceFileName.Some? <==> Truthy(s.serviceFile)
    ensures Truthy(s.serviceFile) ==> r.serviceFileName == Some(LastSegment(s.serviceFile.value))
    ensures !Truthy(s.envFile) ==> r.envVars == []
    ensures Truthy(s.envFile) ==> r.envVars == loadEnv(s.envFile.value)
  {
    var layout := Truthy(s.projectUser) && Truthy(s.projectRoot);
    var root := if layout then Some(UnderHome(s.projectUser.value, s.projectRoot.value)) else s.projectRoot;
    var venv := Truthy(s.projectUser) && Truthy(s.venvDir);
    var venvDir := if venv then Some(UnderHome(s.projectUser.value, s.venvDir.value)) else s.venvDir;
    s.(projectRoot := root,
       releasesDir := if layout then Some(PathJoin(root.value, "releases")) else None,
       currentDir := if layout then Some(PathJoin(root.value, "current")) else None,
       sharedDir := if layout then Some(PathJoin(root.value, "shared")) else None,
       venvDir := venvDir,
       pythonPath := if venv then Some(PathJoin(PathJoin(venvDir.value, "bin"), "python")) else None,
       envVars := if Truthy(s.envFile) then loadEnv(s.envFile.value) else [],
       serviceFileName := if Truthy(s.serviceFile) then Some(LastSegment(s.serviceFile.value)) else None)
  }

  // ---------------------------------------------------------------------------
  // _split_semicolon_values

  /** The first `i` items, each split into lines, in order. */
  function LinesBefore(items: seq<string>, i: nat): seq<string>
    requires i <= |items|
    decreases i
  {
    if i == 0 then [] else LinesBefore(items, i - 1) + Split(items[i - 1], IsLineBreak)
  }

  lemma {:induction false} LinesBeforeSplitEach(items: seq<string>, i: nat)
    requires i <= |items|
    ensures LinesBefore(items, i) == SplitEach(items[..i], IsLineBreak)
    decreases i
  {
    if i > 0 {
      LinesBeforeSplitEach(items, i - 1);
      TakeOneMore(items, i - 1);
      SplitEachAppend(items[..i - 1], items[i - 1], IsLineBreak);
    }
  }

  /** One more item split into lines keeps the cleaned parts in step. */
  lemma SplitLinesStep(items: seq<string>, i: nat, parts: seq<string>)
    requires i < |items| && Clean(parts) == Clean(LinesBefore(items, i))
    ensures Clean(parts + SplitLines(items[i])) == Clean(LinesBefore(items, i + 1))
  {
    CleanAppend(parts, SplitLines(items[i]));
    CleanLinesAgree(items[i]);
    CleanAppend(LinesBefore(items, i), Split(items[i], IsLineBreak));
  }

  /** Splits on semicolons, then splits each piece into lines, and keeps the
      stripped non-blank parts. */
  method SplitSemicolonValues(value: string) returns (r: seq<string>)
    ensures r == ListValues(value)
  {
    var items := Split(value, IsSemicolon);
    var parts: seq<string> := [];
    for i := 0 to |items|
      invariant Clean(parts) == Clean(LinesBefore(items, i))
    {
      SplitLinesStep(items, i, parts);
      parts := parts + SplitLines(items[i]);
    }
    r := Clean(parts);
    assert r == ListValues(value) by {
      LinesBeforeSplitEach(items, |items|);
      assert items[..|items|] == items;
      SplitTwice(value, IsSemicolon, IsLineBreak, IsListSeparator);
    }
  }

  /** Every item is stripped and non-empty. */
  lemma ListValuesNormalised(value: string)
    ensures AllTrimmedNonEmpty(ListValues(value))
  {
    CleanNormalised(Split(value, IsListSeparator));
  }

  /** A separator splits the items in input order. */
  lemma ListValuesConcat(a: string, c: char, b: string)
    requires IsListSeparator(c)
    ensures ListValues(a + [c] + b) == ListValues(a) + ListValues(b)
  {
    SplitAround(a, c, b, IsListSeparator);
    CleanAppend(Split(a, IsListSeparator), Split(b, IsListSeparator));
  }

  lemma ListValuesSingle(item: string)
    requires item != "" && IsTrimmed(item)
    requires forall k :: 0 <= k < |item| ==> !IsListSeparator(item[k])
    ensures ListValues(item) == [item]
  {
    SplitNoSeparator(item, IsListSeparator);
    StripOfTrimmed(item);
    assert Kept(item) == [item];
    CleanCons(item, []);
    assert [item] + [] == [item];
  }

  /** Printable ASCII without whitespace and without semicolons. */
  predicate Plain(s: string)
    decreases |s|
  {
    s == [] || ('!' <= s[0] <= '~' && s[0] != ';' && Plain(s[1..]))
  }

  lemma {:induction false} PlainChars(s: string)
    requires Plain(s)
    ensures forall k :: 0 <= k < |s| ==> '!' <= s[k] <= '~' && s[k] != ';'
    decreases |s|
  {
    if s != [] {
      PlainChars(s[1..]);
      assert forall k :: 1 <= k < |s| ==> s[k] == s[1..][k - 1];
    }
  }

  /** Two plain names separated by a semicolon, such as
      `"github.com;gitlab.com"`, are a list of exactly those two names. */
  lemma ListValuesOfPair(a: string, b: string)
    requires a != "" && Plain(a) && b != "" && Plain(b)
    ensures ListValues(a + ";" + b) == [a, b]
  {
    PlainItem(a);
    PlainItem(b);
    ListValuesSingle(a);
    ListValuesSingle(b);
    assert a + ";" + b == a + [';'] + b;
    ListValuesConcat(a, ';', b);
  }

  lemma PlainItem(s: string)
    requires s != "" && Plain(s)
    ensures IsTrimmed(s) && forall k :: 0 <= k < |s| ==> !IsListSeparator(s[k])
  {
    PlainChars(s);
  }

  // ---------------------------------------------------------------------------
  // Properties of the field coercers

  lemma ListRawTexts(items: seq<string>)
    ensures ItemTexts(ListRaw(items).items) == items
  {
  }

  /** Normalising a normalised list, given back as a list, changes nothing. */
  lemma SemicolonListIdempotent(v: Raw)
    requires SemicolonList(v).Ok?
    ensures SemicolonList(ListRaw(SemicolonList(v).value)) == SemicolonList(v)
  {
    var items := SemicolonList(v).value;
    ListRawTexts(items);
    CleanOfNormalised(items);
  }

  lemma SystemPackagesIdempotent(v: Raw)
    requires SystemPackages(v).Ok?
    ensures SystemPackages(ListRaw(SystemPackages(v).value)) == SystemPackages(v)
  {
    var items := SystemPackages(v).value;
    ListRawTexts(items);
    CleanOfNormalised(items);
  }

  predicate NotSemicolon(c: char) {
    c != ';'
  }

  /** A package name given as text holds no whitespace and no semicolon, and the
      names are the words of the text once semicolons are spaces. */
  lemma PackageWordsAreAtoms(value: string)
    ensures PackageWords(value) == Words(ReplaceSemicolons(value))
    ensures var ws := PackageWords(value);
      forall i, k :: 0 <= i < |ws| && 0 <= k < |ws[i]| ==> !IsSpace(ws[i][k]) && ws[i][k] != ';'
  {
    var t := ReplaceSemicolons(value);
    var pieces := Split(t, IsSpace);
    SplitPiecesKeep(t, IsSpace, NotSemicolon);
    var ws := NonEmpty(pieces);
    NonEmptyKeeps(pieces);
    forall i | 0 <= i < |ws|
      ensures ws[i] != "" && IsTrimmed(ws[i])
      ensures forall k :: 0 <= k < |ws[i]| ==> !IsSpace(ws[i][k]) && ws[i][k] != ';'
    {
      var j :| 0 <= j < |pieces| && pieces[j] == ws[i];
      assert !IsSpace(pieces[j][0]) && !IsSpace(pieces[j][|pieces[j]| - 1]);
    }
    CleanOfNormalised(ws);
  }

  /** Two plain package names on two lines, such as `"libpq-dev\npython3-dev"`,
      are exactly those two packages. */
  lemma PackageWordsOfPair(a: string, b: string)
    requires a != "" && Plain(a) && b != "" && Plain(b)
    ensures PackageWords(a + "\n" + b) == [a, b]
  {
    PlainChars(a);
    PlainChars(b);
    var s := a + "\n" + b;
    assert ReplaceSemicolons(s) == s;
    assert s == a + ['\n'] + b;
    SplitAround(a, '\n', b, IsSpace);
    SplitNoSeparator(a, IsSpace);
    SplitNoSeparator(b, IsSpace);
    assert Split(s, IsSpace) == [a, b];
    assert NonEmpty([a, b]) == [a] + NonEmpty([b]);
    assert NonEmpty([b]) == [b] + NonEmpty([]);
    assert Words(s) == [a, b];
    PackageWordsAreAtoms(s);
  }

  lemma FlagOfText(t: string)
    ensures Flag(RStr(t)).Ok? == Token(Lower(Strip(t))).Some?
    ensures Flag(RStr(t)).Ok? ==> Flag(RStr(t)).value == Token(Lower(Strip(t))).value
  {
    var token := Token(Lower(Strip(t)));
    assert Str(RStr(t)) == t;
    if token.Some? {
      assert Flag(RStr(t)) == Ok(token.value);
    } else {
      assert Flag(RStr(t)).Err?;
    }
  }

  /** Boolean text is compared without regard to case. */
  lemma FlagIgnoresCase(s: string)
    ensures Flag(RStr(Lower(s))).Ok? == Flag(RStr(s)).Ok?
    ensures Flag(RStr(s)).Ok? ==> Flag(RStr(Lower(s))).value == Flag(RStr(s)).value
  {
    LowerStrip(s);
    LowerStrip(Strip(s));
    assert Lower(Strip(Lower(s))) == Lower(Strip(s));
    FlagOfText(s);
    FlagOfText(Lower(s));
  }

  /** Text without surrounding whitespace is read through its lower-cased token. */
  lemma FlagOfTrimmed(t: string)
    requires IsTrimmed(t)
    ensures Flag(RStr(t)).Ok? == Token(Lower(t)).Some?
    ensures Flag(RStr(t)).Ok? ==> Flag(RStr(t)).value == Token(Lower(t)).value
  {
    FlagOfText(t);
    assert Strip(t) == t by {
      StripOfTrimmed(t);
    }
  }

  /** The text Python prints for a boolean parses back to it. */
  lemma FlagOfPrinted(b: bool)
    ensures Flag(RStr(Str(RBool(b)))) == Ok(b)
  {
    if b {
      assert Str(RBool(b)) == "True";
      FlagOfTrimmed("True");
      PrintedLower();
    } else {
      assert Str(RBool(b)) == "False";
      FlagOfTrimmed("False");
      PrintedLower();
    }
  }

  lemma PrintedLower()
    ensures Lower("True") == "true" && Token("true") == Some(true)
    ensures Lower("False") == "false" && Token("false") == Some(false)
  {
  }

  /** A word that is no boolean token is rejected. */
  lemma FlagRejectsWord()
    ensures Flag(RStr("sometimes")).Err?
  {
    FlagOfTrimmed("sometimes");
    UnknownWord();
  }

  lemma UnknownWord()
    ensures Lower("sometimes") == "sometimes" && Token("sometimes") == None
  {
  }

  /** Missing is false, and a number is true exactly when it is not zero. */
  lemma FlagOfNumber(i: int)
    ensures Flag(RNone) == Ok(false) && Flag(RInt(i)) == Ok(i != 0)
  {
  }

  /** A port is 22 when it is missing or blank, and otherwise its integer value. */
  lemma PortValues(n: int)
    ensures Port(RNone) == Ok(22) && Port(RStr("")) == Ok(22)
    ensures Port(RInt(n)) == Ok(n)
  {
  }

  /** A port written as the decimal text of `n`, as a YAML string, is the port `n`. */
  lemma PortOfDecimal(n: int)
    ensures Port(RStr(Decimal(n))) == Ok(n)
  {
    NatTextDigits(if n < 0 then -n else n);
    ParseDecimal(n);
  }

  /** A clone depth is 1 when missing or blank, the number itself when it is
      positive, and absent when it is zero, negative or not a number. */
  lemma CloneDepthValues(n: int, t: string)
    ensures CloneDepth(RNone) == Some(1) && CloneDepth(RStr("")) == Some(1)
    ensures CloneDepth(RInt(n)) == if n > 0 then Some(n) else None
    ensures t != "" && ParseInt(t).None? ==> CloneDepth(RStr(t)) == None
  {
  }

  /** A depth written as the decimal text of `n` gives the same depth as `n`. */
  lemma CloneDepthOfDecimal(n: int)
    ensures CloneDepth(RStr(Decimal(n))) == if n > 0 then Some(n) else None
  {
    NatTextDigits(if n < 0 then -n else n);
    ParseDecimal(n);
  }

  // ---------------------------------------------------------------------------
  // Validation of whole records

  /** Nothing to validate leaves a well-formed record as it is. */
  lemma ValidateNothing(s: Settings)
    requires WellFormed(s)
    ensures ValidateOver(s, []) == Ok(s)
  {
    assert Keys([]) == [];
    assert ExtraIssues([]) == [];
  }

  /** Validation keeps the normalisers' guarantees. */
  lemma ValidatePreservesWellFormed(base: Settings, d: Dict)
    requires WellFormed(base)
    requires ValidateOver(base, d).Ok?
    ensures WellFormed(ValidateOver(base, d).value)
  {
  }

  /** A field that `d` does not name keeps the value it had, apart from a clone
      depth that a revision turns off. */
  lemma ValidateKeepsUnmentioned(base: Settings, d: Dict, r: Settings)
    requires ValidateOver(base, d) == Ok(r)
    ensures Get(d, "source_code_url").None? ==> r.sourceCodeUrl == base.sourceCodeUrl
    ensures Get(d, "project_root").None? ==> r.projectRoot == base.projectRoot
    ensures Get(d, "project_user").None? ==> r.projectUser == base.projectUser
    ensures Get(d, "venv_dir").None? ==> r.venvDir == base.venvDir
    ensures Get(d, "keep_releases").None? ==> r.keepReleases == base.keepReleases
    ensures Get(d, "system_packages").None? ==> r.systemPackages == base.systemPackages
    ensures Get(d, "env_file").None? ==> r.envFile == base.envFile
    ensures Get(d, "ssh_known_hosts").None? ==> r.sshKnownHosts == base.sshKnownHosts
    ensures Get(d, "service_file").None? ==> r.serviceFile == base.serviceFile
    ensures Get(d, "secrets").None? ==> r.secrets == base.secrets
    ensures Get(d, "branch").None? ==> r.branch == base.branch
    ensures Get(d, "revision").None? ==> r.revision == base.revision
    ensures Get(d, "clone_depth").None? && !Truthy(r.revision) ==> r.cloneDepth == base.cloneDepth
    ensures Get(d, "host").None? ==> r.host == base.host
    ensures Get(d, "port").None? ==> r.port == base.port
    ensures Get(d, "run_migrations").None? ==> r.runMigrations == base.runMigrations
    ensures Get(d, "collect_static_files").None? ==> r.collectStaticFiles == base.collectStaticFiles
    ensures Get(d, "releases_dir").None? ==> r.releasesDir == base.releasesDir
    ensures Get(d, "current_dir").None? ==> r.currentDir == base.currentDir
    ensures Get(d, "shared_dir").None? ==> r.sharedDir == base.sharedDir
    ensures Get(d, "python_path").None? ==> r.pythonPath == base.pythonPath
    ensures Get(d, "env_vars").None? ==> r.envVars == base.envVars
    ensures Get(d, "service_file_name").None? ==> r.serviceFileName == base.serviceFileName
  {
  }

  // ---------------------------------------------------------------------------
  // Dumped records validate back

  lemma {:induction false} EnvRoundTrip(env: seq<(string, string)>)
    ensures EnvVars(EnvRaw(env)) == Ok(env)
    decreases |env|
  {
    if env != [] {
      var e := EnvRaw(env).entries;
      assert e[1..] == EnvRaw(env[1..]).entries;
      EnvRoundTrip(env[1..]);
      assert [env[0]] + env[1..] == env;
    }
  }

  lemma ListFieldRoundTrip(items: seq<string>)
    requires AllTrimmedNonEmpty(items)
    ensures SemicolonList(ListRaw(items)) == Ok(items)
    ensures SystemPackages(ListRaw(items)) == Ok(items)
  {
    ListRawTexts(items);
    CleanOfNormalised(items);
  }

  /** Every field of a dump is found under its name. */
  lemma DumpGet(s: Settings, i: nat)
    requires i < |FieldNames|
    ensures Get(Dump(s), FieldNames[i]) == Some(Dump(s)[i].1)
  {
    FieldNamesDistinct();
    GetLastAssignment(Dump(s), i);
  }

  /** A field named in the later dict `data` is taken from it; any other comes
      from the earlier dict `b`. */
  lemma FieldOver<T>(b: Dict, data: Dict, name: string, fallback: T, current: T,
                     coerce: Raw -> Result<T, seq<Issue>>)
    requires Get(b, name).Some? && coerce(Get(b, name).value) == Ok(current)
    ensures Field(b + data, name, fallback, coerce) == Field(data, name, current, coerce)
  {
    MergeGet(b, data, name);
  }

  lemma {:induction false} UnknownAppend(a: seq<string>, b: seq<string>, names: seq<string>)
    ensures Unknown(a + b, names) == Unknown(a, names) + Unknown(b, names)
    decreases |a|
  {
    if a == [] {
      assert a + b == b;
    } else {
      assert (a + b)[0] == a[0];
      assert (a + b)[1..] == a[1..] + b;
      UnknownAppend(a[1..], b, names);
    }
  }

  /** No key is unknown exactly when every key is among `names`. */
  lemma {:induction false} UnknownEmpty(keys: seq<string>, names: seq<string>)
    ensures Unknown(keys, names) == [] <==> forall k :: 0 <= k < |keys| ==> keys[k] in names
    decreases |keys|
  {
    if keys != [] {
      UnknownEmpty(keys[1..], names);
      assert forall k :: 1 <= k < |keys| ==> keys[k] == keys[1..][k - 1];
    }
  }

  lemma {:induction false} UnknownOfNamedKeys(a: Dict, names: seq<string>)
    requires forall i :: 0 <= i < |a| ==> a[i].0 in names
    ensures Unknown(Keys(a), names) == []
    decreases |a|
  {
    if a != [] {
      UnknownOfNamedKeys(a[..|a| - 1], names);
      UnknownAppend(Keys(a[..|a| - 1]), [a[|a| - 1].0], names);
    }
  }

  /** Keys among `names`, assigned first, add no unknown keys. */
  lemma {:induction false} UnknownBehindNamed(a: Dict, b: Dict, names: seq<string>)
    requires forall i :: 0 <= i < |a| ==> a[i].0 in names
    ensures Unknown(Keys(a + b), names) == Unknown(Keys(b), names)
    decreases |b|
  {
    if b == [] {
      assert a + b == a;
      UnknownOfNamedKeys(a, names);
    } else {
      var p := b[|b| - 1];
      var rest := b[..|b| - 1];
      assert (a + b)[..|a + b| - 1] == a + rest;
      assert (a + b)[|a + b| - 1] == p;
      UnknownBehindNamed(a, rest, names);
      UnknownAppend(Keys(a + rest), [p.0], names);
      UnknownAppend(Keys(rest), [p.0], names);
      if p.0 !in names {
        KeysAreAssigned(a + rest, p.0);
        KeysAreAssigned(rest, p.0);
        MergeGet(a, rest, p.0);
        GetUnassigned(a, p.0);
      }
    }
  }

  /** What a well-formed record looks like after a dump and a validation: an
      absent clone depth is dumped as `None`, which validates to the default 1. */
  function AfterDump(s: Settings): Settings {
    if s.cloneDepth.None? then s.(cloneDepth := Some(1)) else s
  }

  /** `update_dict` as written: the dump of the record, updated with `data`,
      validated from scratch. */
  function UpdateDictAsWritten(s: Settings, data: Dict): Result<Settings, seq<Issue>> {
    Construct(Dump(s) + data)
  }

  lemma FieldFromDump<T>(s: Settings, data: Dict, i: nat, name: string, fallback: T, current: T,
                         coerce: Raw -> Result<T, seq<Issue>>)
    requires i < |FieldNames| && FieldNames[i] == name && coerce(Dump(s)[i].1) == Ok(current)
    ensures Field(Dump(s) + data, name, fallback, coerce) == Field(data, name, current, coerce)
  {
    DumpGet(s, i);
    FieldOver(Dump(s), data, name, fallback, current, coerce);
  }

  /** A dump updated with `data` validates, field by field, like `data` over
      the record itself (one lemma per field keeps each proof small). */
  lemma DumpedSourceCodeUrl(s: Settings, data: Dict)
    ensures Field(Dump(s) + data, "source_code_url", Default.sourceCodeUrl, OptionalText) == Field(data, "source_code_url", AfterDump(s).sourceCodeUrl, OptionalText)
  {
    FieldFromDump(s, data, 0, "source_code_url", Default.sourceCodeUrl, AfterDump(s).sourceCodeUrl, OptionalText);
  }

  lemma DumpedProjectRoot(s: Settings, data: Dict)
    ensures Field(Dump(s) + data, "project_root", Default.projectRoot, OptionalText) == Field(data, "project_root", AfterDump(s).projectRoot, OptionalText)
  {
    FieldFromDump(s, data, 1, "project_root", Default.projectRoot, AfterDump(s).projectRoot, OptionalText);
  }

  lemma DumpedProjectUser(s: Settings, data: Dict)
    ensures Field(Dump(s) + data, "project_user", Default.projectUser, OptionalText) == Field(data, "project_user", AfterDump(s).projectUser, OptionalText)
  {
    FieldFromDump(s, data, 2, "project_user", Default.projectUser, AfterDump(s).projectUser, OptionalText);
  }

  lemma DumpedVenvDir(s: Settings, data: Dict)
    ensures Field(Dump(s) + data, "venv_dir", Default.venvDir, OptionalText) == Field(data, "venv_dir", AfterDump(s).venvDir, OptionalText)
  {
    FieldFromDump(s, data, 3, "venv_dir", Default.venvDir, AfterDump(s).venvDir, OptionalText);
  }

  lemma DumpedKeepReleases(s: Settings, data: Dict)
    ensures Field(Dump(s) + data, "keep_releases", Default.keepReleases, Integer) == Field(data, "keep_releases", AfterDump(s).keepReleases, Integer)
  {
    FieldFromDump(s, data, 4, "keep_releases", Default.keepReleases, AfterDump(s).keepReleases, Integer);
  }

  lemma DumpedEnvFile(s: Settings, data: Dict)
    ensures Field(Dump(s) + data, "env_file", Default.envFile, OptionalText) == Field(data, "env_file", AfterDump(s).envFile, OptionalText)
  {
    FieldFromDump(s, data, 6, "env_file", Default.envFile, AfterDump(s).envFile, OptionalText);
  }

  lemma DumpedServiceFile(s: Settings, data: Dict)
    ensures Field(Dump(s) + data, "service_file", Default.serviceFile, OptionalText) == Field(data, "service_file", AfterDump(s).serviceFile, OptionalText)
  {
    FieldFromDump(s, data, 8, "service_file", Default.serviceFile, AfterDump(s).serviceFile, OptionalText);
  }

  lemma DumpedBranch(s: Settings, data: Dict)
    ensures Field(Dump(s) + data, "branch", Default.branch, OptionalText) == Field(data, "branch", AfterDump(s).branch, OptionalText)
  {
    FieldFromDump(s, data, 10, "branch", Default.branch, AfterDump(s).branch, OptionalText);
  }

  lemma DumpedRevision(s: Settings, data: Dict)
    ensures Field(Dump(s) + data, "revision", Default.revision, OptionalText) == Field(data, "revision", AfterDump(s).revision, OptionalText)
  {
    FieldFromDump(s, data, 11, "revision", Default.revision, AfterDump(s).revision, OptionalText);
  }

  lemma DumpedCloneDepth(s: Settings, data: Dict)
    requires s.cloneDepth.None? || s.cloneDepth.value > 0
    ensures Field(Dump(s) + data, "clone_depth", Default.cloneDepth, CloneDepthField) == Field(data, "clone_depth", AfterDump(s).cloneDepth, CloneDepthField)
  {
    FieldFromDump(s, data, 12, "clone_depth", Default.cloneDepth, AfterDump(s).cloneDepth, CloneDepthField);
  }

  lemma DumpedHost(s: Settings, data: Dict)
    ensures Field(Dump(s) + data, "host", Default.host, OptionalText) == Field(data, "host", AfterDump(s).host, OptionalText)
  {
    FieldFromDump(s, data, 13, "host", Default.host, AfterDump(s).host, OptionalText);
  }

  lemma DumpedPort(s: Settings, data: Dict)
    ensures Field(Dump(s) + data, "port", Default.port, Port) == Field(data, "port", AfterDump(s).port, Port)
  {
    FieldFromDump(s, data, 14, "port", Default.port, AfterDump(s).port, Port);
  }

  lemma DumpedRunMigrations(s: Settings, data: Dict)
    ensures Field(Dump(s) + data, "run_migrations", Default.runMigrations, Flag) == Field(data, "run_migrations", AfterDump(s).runMigrations, Flag)
  {
    FieldFromDump(s, data, 15, "run_migrations", Default.runMigrations, AfterDump(s).runMigrations, Flag);
  }

  lemma DumpedCollectStaticFiles(s: Settings, data: Dict)
    ensures Field(Dump(s) + data, "collect_static_files", Default.collectStaticFiles, Flag) == Field(data, "collect_static_files", AfterDump(s).collectStaticFiles, Flag)
  {
    FieldFromDump(s, data, 16, "collect_static_files", Default.collectStaticFiles, AfterDump(s).collectStaticFiles, Flag);
  }

  lemma DumpedReleasesDir(s: Settings, data: Dict)
    ensures Field(Dump(s) + data, "releases_dir", Default.releasesDir, OptionalText) == Field(data, "releases_dir", AfterDump(s).releasesDir, OptionalText)
  {
    FieldFromDump(s, data, 17, "releases_dir", Default.releasesDir, AfterDump(s).releasesDir, OptionalText);
  }

  lemma DumpedCurrentDir(s: Settings, data: Dict)
    ensures Field(Dump(s) + data, "current_dir", Default.currentDir, OptionalText) == Field(data, "current_dir", AfterDump(s).currentDir, OptionalText)
  {
    FieldFromDump(s, data, 18, "current_dir", Default.currentDir, AfterDump(s).currentDir, OptionalText);
  }

  lemma DumpedSharedDir(s: Settings, data: Dict)
    ensures Field(Dump(s) + data, "shared_dir", Default.sharedDir, OptionalText) == Field(data, "shared_dir", AfterDump(s).sharedDir, OptionalText)
  {
    FieldFromDump(s, data, 19, "shared_dir", Default.sharedDir, AfterDump(s).sharedDir, OptionalText);
  }

  lemma DumpedPythonPath(s: Settings, data: Dict)
    ensures Field(Dump(s) + data, "python_path", Default.pythonPath, OptionalText) == Field(data, "python_path", AfterDump(s).pythonPath, OptionalText)
  {
    FieldFromDump(s, data, 20, "python_path", Default.pythonPath, AfterDump(s).pythonPath, OptionalText);
  }

  lemma DumpedEnvVars(s: Settings, data: Dict)
    ensures Field(Dump(s) + data, "env_vars", Default.envVars, EnvVars) == Field(data, "env_vars", AfterDump(s).envVars, EnvVars)
  {
    EnvRoundTrip(s.envVars);
    FieldFromDump(s, data, 21, "env_vars", Default.envVars, AfterDump(s).envVars, EnvVars);
  }

  lemma DumpedServiceFileName(s: Settings, data: Dict)
    ensures Field(Dump(s) + data, "service_file_name", Default.serviceFileName, OptionalText) == Field(data, "service_file_name", AfterDump(s).serviceFileName, OptionalText)
  {
    FieldFromDump(s, data, 22, "service_file_name", Default.serviceFileName, AfterDump(s).serviceFileName, OptionalText);
  }

  lemma DumpedPackages(s: Settings, data: Dict)
    requires WellFormed(s)
    ensures Field(Dump(s) + data, "system_packages", Default.systemPackages, SystemPackages) == Field(data, "system_packages", AfterDump(s).systemPackages, SystemPackages)
  {
    ListFieldRoundTrip(s.systemPackages);
    assert Dump(s)[5].1 == ListRaw(s.systemPackages);
    FieldFromDump(s, data, 5, "system_packages", Default.systemPackages, AfterDump(s).systemPackages, SystemPackages);
  }

  lemma DumpedKnownHosts(s: Settings, data: Dict)
    requires WellFormed(s)
    ensures Field(Dump(s) + data, "ssh_known_hosts", Default.sshKnownHosts, SemicolonList) == Field(data, "ssh_known_hosts", AfterDump(s).sshKnownHosts, SemicolonList)
  {
    ListFieldRoundTrip(s.sshKnownHosts);
    assert Dump(s)[7].1 == ListRaw(s.sshKnownHosts);
    FieldFromDump(s, data, 7, "ssh_known_hosts", Default.sshKnownHosts, AfterDump(s).sshKnownHosts, SemicolonList);
  }

  lemma DumpedSecrets(s: Settings, data: Dict)
    requires WellFormed(s)
    ensures Field(Dump(s) + data, "secrets", Default.secrets, SemicolonList) == Field(data, "secrets", AfterDump(s).secrets, SemicolonList)
  {
    ListFieldRoundTrip(s.secrets);
    assert Dump(s)[9].1 == ListRaw(s.secrets);
    FieldFromDump(s, data, 9, "secrets", Default.secrets, AfterDump(s).secrets, SemicolonList);
  }

  /** The update as written is validation of `data` over what the dump turns the
      record into. */
  lemma AsWrittenRevalidates(s: Settings, data: Dict)
    requires WellFormed(s)
    ensures UpdateDictAsWritten(s, data) == ValidateOver(AfterDump(s), data)
  {
    DumpedSourceCodeUrl(s, data);
    DumpedProjectRoot(s, data);
    DumpedProjectUser(s, data);
    DumpedVenvDir(s, data);
    DumpedKeepReleases(s, data);
    DumpedEnvFile(s, data);
    DumpedServiceFile(s, data);
    DumpedBranch(s, data);
    DumpedRevision(s, data);
    DumpedCloneDepth(s, data);
    DumpedHost(s, data);
    DumpedPort(s, data);
    DumpedRunMigrations(s, data);
    DumpedCollectStaticFiles(s, data);
    DumpedReleasesDir(s, data);
    DumpedCurrentDir(s, data);
    DumpedSharedDir(s, data);
    DumpedPythonPath(s, data);
    DumpedEnvVars(s, data);
    DumpedServiceFileName(s, data);
    DumpedPackages(s, data);
    DumpedKnownHosts(s, data);
    DumpedSecrets(s, data);
    UnknownBehindNamed(Dump(s), data, FieldNames);
    assert ExtraIssues(Dump(s) + data) == ExtraIssues(data);
  }

  /** A record without a clone depth and without a revision, as
      `PystranoConfig(clone_depth=0)` holds: updating it as written, even with
      nothing, brings depth 1 back, while the corrected update leaves it as it is. */
  lemma UpdateDictRestoresDepth(s: Settings)
    requires WellFormed(s) && s.cloneDepth.None? && !Truthy(s.revision)
    ensures UpdateDictAsWritten(s, []) == Ok(s.(cloneDepth := Some(1)))
    ensures ValidateOver(s, []) == Ok(s)
  {
    AsWrittenRevalidates(s, []);
    ValidateNothing(AfterDump(s));
    ValidateNothing(s);
  }

  // ---------------------------------------------------------------------------
  // Properties of finalize_config

  /** Finalizing a finalized record changes nothing. */
  lemma FinalizeIdempotent(s: Settings, loadEnv: string -> seq<(string, string)>)
    ensures Finalize(Finalize(s, loadEnv), loadEnv) == Finalize(s, loadEnv)
  {
  }

  /** A relative root under a user becomes `/home/{user}/{root}`, and the three
      directories sit directly inside it. */
  lemma FinalizeHomeLayout(s: Settings, loadEnv: string -> seq<(string, string)>, user: string, root: string)
    requires s.projectUser == Some(user) && s.projectRoot == Some(root)
    requires user != "" && !IsAbs(user) && user[|user| - 1] != '/'
    requires root != "" && !IsAbs(root)
    ensures var r := Finalize(s, loadEnv);
            r.projectRoot == Some("/home/" + user + "/" + root)
            && (root[|root| - 1] != '/' ==>
                  r.releasesDir == Some("/home/" + user + "/" + root + "/releases")
                  && r.currentDir == Some("/home/" + user + "/" + root + "/current")
                  && r.sharedDir == Some("/home/" + user + "/" + root + "/shared"))
  {
    var home := PathJoin("/home", user);
    assert "/home" + "/" == "/home/";
    assert home == "/home/" + user;
    var full := PathJoin(home, root);
    assert full == "/home/" + user + "/" + root;
    assert full[|full| - 1] == root[|root| - 1];
    assert Finalize(s, loadEnv).projectRoot == Some(full);
    if root[|root| - 1] != '/' {
      SubdirectoryNames();
      InsideDirectory(full, "releases");
      InsideDirectory(full, "current");
      InsideDirectory(full, "shared");
    }
  }

  /** An absolute root is kept as it is. */
  lemma FinalizeAbsoluteLayout(s: Settings, loadEnv: string -> seq<(string, string)>, root: string)
    requires Truthy(s.projectUser) && s.projectRoot == Some(root) && IsAbs(root)
    requires root[|root| - 1] != '/'
    ensures var r := Finalize(s, loadEnv);
            r.projectRoot == Some(root)
            && r.releasesDir == Some(root + "/releases")
            && r.currentDir == Some(root + "/current")
            && r.sharedDir == Some(root + "/shared")
  {
    assert UnderHome(s.projectUser.value, root) == root;
    SubdirectoryNames();
    InsideDirectory(root, "releases");
    InsideDirectory(root, "current");
    InsideDirectory(root, "shared");
  }

  /** The interpreter lives in the virtualenv's `bin` directory. */
  lemma FinalizePythonPath(s: Settings, loadEnv: string -> seq<(string, string)>, venv: string)
    requires Truthy(s.projectUser) && s.venvDir == Some(venv) && IsAbs(venv)
    requires venv[|venv| - 1] != '/'
    ensures Finalize(s, loadEnv).pythonPath == Some(venv + "/bin/python")
  {
    assert UnderHome(s.projectUser.value, venv) == venv;
    SubdirectoryNames();
    InsideDirectory(venv, "bin");
    var bin := venv + "/bin";
    assert bin[|bin| - 1] == 'n';
    InsideDirectory(bin, "python");
    assert bin + "/python" == venv + "/bin/python";
  }

  lemma SubdirectoryNames()
    ensures "/" + "releases" == "/releases" && "/" + "current" == "/current"
    ensures "/" + "shared" == "/shared" && "/" + "bin" == "/bin" && "/" + "python" == "/python"
    ensures "/bin" + "/python" == "/bin/python"
  {
  }

  /** Finalizing keeps what validation guarantees. */
  lemma FinalizePreservesWellFormed(s: Settings, loadEnv: string -> seq<(string, string)>)
    requires WellFormed(s)
    ensures WellFormed(Finalize(s, loadEnv))
  {
  }

  // ---------------------------------------------------------------------------
  // The object

  /** A configuration object. Its fields, held together as one record, are
      reassigned by `update_dict` and `finalize_config`. */
  class PystranoConfig {
    var fields: Settings

    /** An object holding an already validated record. */
    constructor (s: Settings)
      ensures fields == s
    {
      fields := s;
    }

    /** `PystranoConfig(**d)`: a new object, or the issues that reject `d`. */
    static method Create(d: Dict) returns (r: Result<PystranoConfig, seq<Issue>>)
      ensures Construct(d).Ok? <==> r.Ok?
      ensures r.Ok? ==> fresh(r.value) && r.value.fields == Construct(d).value
      ensures r.Err? ==> r.error == Construct(d).error
    {
      var v := Construct(d);
      if v.Err? {
        return Err(v.error);
      }
      var c := new PystranoConfig(v.value);
      return Ok(c);
    }

    /** An all-or-nothing update: the record is validated with `data` over it
        before any field is set, and a rejected update leaves every field as
        it was. */
    method UpdateDict(data: Dict) returns (r: Result<(), seq<Issue>>)
      modifies this
      ensures ValidateOver(old(fields), data).Ok? ==>
                r == Ok(()) && fields == ValidateOver(old(fields), data).value
      ensures ValidateOver(old(fields), data).Err? ==>
                r == Err(ValidateOver(old(fields), data).error) && fields == old(fields)
    {
      var updated := ValidateOver(fields, data);
      if updated.Err? {
        return Err(updated.error);
      }
      fields := updated.value;
      return Ok(());
    }

    /** Recomputes the derived fields in place. */
    method FinalizeConfig(loadEnv: string -> seq<(string, string)>)
      modifies this
      ensures fields == Finalize(old(fields), loadEnv)
    {
      var user := fields.projectUser;
      var root := fields.projectRoot;
      var releases, current, shared;
      if Truthy(user) && Truthy(root) {
        if !IsAbs(root.value) {
          root := Some(PathJoin(PathJoin("/home", user.value), root.value));
        }
        releases := Some(PathJoin(root.value, "releases"));
        current := Some(PathJoin(root.value, "current"));
        shared := Some(PathJoin(root.value, "shared"));
      } else {
        releases, current, shared := None, None, None;
      }
      var venv := fields.venvDir;
      var python;
      if Truthy(user) && Truthy(venv) {
        if !IsAbs(venv.value) {
          venv := Some(PathJoin(PathJoin("/home", user.value), venv.value));
        }
        python := Some(PathJoin(PathJoin(venv.value, "bin"), "python"));
      } else {
        python := None;
      }
      var env := if Truthy(fields.envFile) then loadEnv(fields.envFile.value) else [];
      var serviceName := if Truthy(fields.serviceFile) then Some(LastSegment(fields.serviceFile.value)) else None;
      fields := fields.(projectRoot := root, releasesDir := releases, currentDir := current,
                        sharedDir := shared, venvDir := venv, pythonPath := python,
                        envVars := env, serviceFileName := serviceName);
    }
  }
}
