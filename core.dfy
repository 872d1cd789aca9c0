/**
  The remote operations. A connection keeps the log of what was issued on
  the server: shell commands run as the connecting user or with `sudo`, and
  file uploads. Which issued commands fail, and what each one prints, are
  properties of the server, given as a `Remote`. A failing command raises,
  and so ends the operation, unless it was run with `warn=True`.

  Every operation is specified by the commands it plans to issue: it issues
  them in order and stops after the first that raises.
*/
module Core {
  import opened Text
  import opened Values
  import opened Models

  datatype Command =
    | Run(line: string, cwd: Option<string>, env: seq<(string, string)>, warn: bool, hide: bool)
    | Sudo(line: string)
    | Put(local: string, remote: string)

  /** `connection.run(line)`. */
  function Shell(line: string): Command {
    Run(line, None, [], false, false)
  }

  /** What the server does with the commands issued on it, by their position
      in the connection's log. */
  datatype Remote = Remote(failing: set<nat>, output: map<nat, string>)

  function Stdout(r: Remote, k: nat): string {
    if k in r.output then r.output[k] else ""
  }

  /** The `k`-th command raises when it fails and was not run with `warn`. */
  predicate Raises(r: Remote, k: nat, c: Command) {
    k in r.failing && !(c.Run? && c.warn)
  }

  /** The commands issued, and whether the last of them raised. */
  datatype Outcome = Outcome(issued: seq<Command>, raised: bool)

  function Then(first: seq<Command>, o: Outcome): Outcome {
    Outcome(first + o.issued, o.raised)
  }

  /** Issuing `plan` from log position `k`: every command in turn, up to and
      including the first that raises. */
  function Attempt(r: Remote, k: nat, plan: seq<Command>): (o: Outcome)
    ensures |o.issued| <= |plan| && o.issued == plan[..|o.issued|]
    ensures !o.raised ==> o.issued == plan
    decreases |plan|
  {
    if plan == [] then Outcome([], false)
    else if Raises(r, k, plan[0]) then Outcome([plan[0]], true)
    else Then([plan[0]], Attempt(r, k + 1, plan[1..]))
  }

  /** An attempt that raised stopped at a command that raises. */
  lemma {:induction false} AttemptRaisedAtLast(r: Remote, k: nat, plan: seq<Command>)
    ensures var o := Attempt(r, k, plan);
      o.raised ==> o.issued != [] && Raises(r, k + |o.issued| - 1, plan[|o.issued| - 1])
    decreases |plan|
  {
    if plan != [] && !Raises(r, k, plan[0]) {
      AttemptRaisedAtLast(r, k + 1, plan[1..]);
    }
  }

  /** Every command an attempt issued before its last one completed. */
  lemma {:induction false} AttemptCompletedBeforeLast(r: Remote, k: nat, plan: seq<Command>)
    ensures var o := Attempt(r, k, plan);
      forall i :: 0 <= i < |o.issued| - 1 ==> !Raises(r, k + i, plan[i])
    decreases |plan|
  {
    if plan != [] && !Raises(r, k, plan[0]) {
      AttemptCompletedBeforeLast(r, k + 1, plan[1..]);
      var o := Attempt(r, k + 1, plan[1..]);
      forall i | 0 <= i < |o.issued| ensures !Raises(r, k + i, plan[i]) {
        if i > 0 { assert plan[i] == plan[1..][i - 1]; }
      }
    }
  }

  /** A plan is issued in full exactly when none of its commands raises. */
  lemma {:induction false} AttemptCompletes(r: Remote, k: nat, plan: seq<Command>)
    ensures !Attempt(r, k, plan).raised <==> forall i :: 0 <= i < |plan| ==> !Raises(r, k + i, plan[i])
    decreases |plan|
  {
    if plan != [] && !Raises(r, k, plan[0]) {
      AttemptCompletes(r, k + 1, plan[1..]);
      if !Attempt(r, k + 1, plan[1..]).raised {
        forall i | 0 <= i < |plan| ensures !Raises(r, k + i, plan[i]) {
          if i > 0 { assert plan[i] == plan[1..][i - 1]; }
        }
      } else {
        var i :| 0 <= i < |plan[1..]| && Raises(r, k + 1 + i, plan[1..][i]);
        assert Raises(r, k + (i + 1), plan[i + 1]);
      }
    }
  }

  /** A plan in two parts: the second part is issued when the first completes. */
  lemma {:induction false} AttemptAppend(r: Remote, k: nat, a: seq<Command>, b: seq<Command>)
    ensures Attempt(r, k, a + b)
            == if Attempt(r, k, a).raised then Attempt(r, k, a) else Then(a, Attempt(r, k + |a|, b))
    decreases |a|
  {
    if a == [] {
      assert a + b == b;
    } else {
      assert (a + b)[0] == a[0];
      assert (a + b)[1..] == a[1..] + b;
      AttemptAppend(r, k + 1, a[1..], b);
      if !Raises(r, k, a[0]) && !Attempt(r, k + 1, a[1..]).raised {
        assert [a[0]] + a[1..] == a;
      }
    }
  }

  /** One more command after a prefix of the plan that completed. */
  lemma AttemptSnoc(r: Remote, k: nat, p: seq<Command>, c: Command)
    requires !Attempt(r, k, p).raised
    ensures Attempt(r, k, p + [c]) == Outcome(p + [c], Raises(r, k + |p|, c))
  {
    AttemptAppend(r, k, p, [c]);
  }

  /** Issuing the next command of a plan whose earlier commands completed: if
      it raises, that is where the whole plan stops. */
  lemma AttemptStep(r: Remote, k: nat, plan: seq<Command>, j: nat)
    requires j < |plan| && !Attempt(r, k, plan[..j]).raised
    ensures Attempt(r, k, plan[..j + 1]) == Outcome(plan[..j + 1], Raises(r, k + j, plan[j]))
    ensures Raises(r, k + j, plan[j]) ==> Attempt(r, k, plan) == Outcome(plan[..j + 1], true)
  {
    assert plan[..j] + [plan[j]] == plan[..j + 1];
    AttemptSnoc(r, k, plan[..j], plan[j]);
    assert plan[..j + 1] + plan[j + 1..] == plan;
    AttemptAppend(r, k, plan[..j + 1], plan[j + 1..]);
  }

  /** Python's `f"{value}"` of an optional string. */
  function Show(o: Option<string>): string {
    if o.Some? then o.value else "None"
  }

  // ---------------------------------------------------------------------------
  // The connection

  /** What issuing a command gives back: whether it raised, whether it exited
      non-zero, and what it printed. */
  datatype Reply = Reply(raised: bool, failed: bool, stdout: string)

  class Connection {
    /** `user@host`. */
    const target: string
    const port: int
    const remote: Remote
    var log: seq<Command>

    constructor (target: string, port: int, remote: Remote)
      ensures this.target == target && this.port == port && this.remote == remote
      ensures log == []
    {
      this.target := target;
      this.port := port;
      this.remote := remote;
      log := [];
    }

    /** Issues `c` on the server. */
    method Execute(c: Command) returns (reply: Reply)
      modifies this
      ensures log == old(log) + [c]
      ensures reply.failed == (|old(log)| in remote.failing)
      ensures reply.raised == Raises(remote, |old(log)|, c)
      ensures reply.stdout == Stdout(remote, |old(log)|)
    {
      reply := Reply(Raises(remote, |log|, c), |log| in remote.failing, Stdout(remote, |log|));
      log := log + [c];
    }
  }

  /** `c` went on to issue what `o` says, after `before`. */
  ghost predicate Performed(c: Connection, before: seq<Command>, o: Outcome, raised: bool)
    reads c
  {
    c.log == before + o.issued && raised == o.raised
  }

  // ---------------------------------------------------------------------------
  // Plans

  function ReleaseDirPlan(dir: string): seq<Command> {
    [Shell("mkdir -p " + dir)]
  }

  function SourcePlan(dir: string, conf: Settings): seq<Command> {
    [Shell("git clone " + Show(conf.sourceCodeUrl) + " " + dir),
     Shell("cd " + dir + " && git checkout " + Show(conf.branch))]
  }

  /** Where the environment file of the release `dir` is uploaded. */
  function EnvUpload(dir: string, conf: Settings): string {
    Show(conf.sharedDir) + "/.env." + LastSegment(dir)
  }

  function SymlinksPlan(dir: string, conf: Settings): seq<Command> {
    [Shell("ln -sfn " + Show(conf.sharedDir) + "/media " + dir + "/media"),
     Shell("ln -sfn " + EnvUpload(dir, conf) + " " + Show(conf.sharedDir) + "/.env")]
  }

  function RequirementsPlan(dir: string, conf: Settings): seq<Command> {
    [Run(Show(conf.venvDir) + "/bin/pip install -r requirements.txt", Some(dir), [], false, false)]
  }

  function CollectStaticPlan(dir: string, conf: Settings): seq<Command> {
    [Run(Show(conf.pythonPath) + " manage.py collectstatic --noinput", Some(dir), conf.envVars, false, false)]
  }

  function MigratePlan(dir: string, conf: Settings): seq<Command> {
    [Run(Show(conf.pythonPath) + " manage.py migrate", Some(dir), conf.envVars, false, false)]
  }

  function CurrentPlan(dir: string, conf: Settings): seq<Command> {
    [Shell("ln -sfn " + dir + " " + Show(conf.currentDir))]
  }

  function RestartPlan(conf: Settings): seq<Command> {
    [Sudo("systemctl restart " + Show(conf.serviceFileName))]
  }

  function ListingCommand(conf: Settings): Command {
    Run("ls -1 " + Show(conf.releasesDir), None, [], false, true)
  }

  function RemoveRelease(conf: Settings, release: string): Command {
    Shell("rm -rf " + Show(conf.releasesDir) + "/" + release)
  }

  function RemovalsOf(conf: Settings, names: seq<string>): (r: seq<Command>)
    ensures |r| == |names| && forall j :: 0 <= j < |r| ==> r[j] == RemoveRelease(conf, names[j])
  {
    seq(|names|, j requires 0 <= j < |names| => RemoveRelease(conf, names[j]))
  }

  /** The removals for a listing: all but its last `keep_releases` entries. */
  function Removals(conf: Settings, listing: seq<string>): seq<Command>
    requires conf.keepReleases > 0
  {
    if |listing| > conf.keepReleases then RemovalsOf(conf, listing[..|listing| - conf.keepReleases])
    else []
  }

  function CleanupOutcome(conf: Settings, r: Remote, k: nat): Outcome {
    if conf.keepReleases <= 0 then Outcome([], false)
    else if Raises(r, k, ListingCommand(conf)) then Outcome([ListingCommand(conf)], true)
    else Then([ListingCommand(conf)], Attempt(r, k + 1, Removals(conf, Words(Stdout(r, k)))))
  }

  function ProbeCommand(conf: Settings): Command {
    Run("id -u " + Show(conf.projectUser), None, [], true, false)
  }

  function AddUserPlan(conf: Settings): seq<Command> {
    var user := Show(conf.projectUser);
    [Sudo("useradd -m -s /bin/bash " + user),
     Sudo("echo \"" + user + " ALL=(ALL) NOPASSWD:ALL\" > /etc/sudoers.d/" + user)]
  }

  function CreateUserOutcome(conf: Settings, r: Remote, k: nat): Outcome {
    if k in r.failing then Then([ProbeCommand(conf)], Attempt(r, k + 1, AddUserPlan(conf)))
    else Outcome([ProbeCommand(conf)], false)
  }

  function Owner(conf: Settings): string {
    Show(conf.projectUser) + ":" + Show(conf.projectUser)
  }

  function DirectoriesPlan(conf: Settings): seq<Command> {
    [Sudo("mkdir -p " + Show(conf.sharedDir)),
     Sudo("mkdir -p " + Show(conf.releasesDir)),
     Sudo("mkdir -p " + Show(conf.venvDir)),
     Sudo("chown -R " + Owner(conf) + " " + Show(conf.projectRoot))]
  }

  /** The argument naming the extra packages: the packages separated by spaces. */
  function PackageArguments(packages: seq<string>): string {
    Join(" ", packages)
  }

  function PackagesPlan(conf: Settings): seq<Command> {
    [Shell("apt update"), Shell("apt install -y python3 python3-venv python3-pip git")]
    + (if conf.systemPackages != [] then [Shell("apt install -y " + PackageArguments(conf.systemPackages))] else [])
  }

  function VenvPlan(conf: Settings): seq<Command> {
    [Shell("python3 -m venv " + Show(conf.venvDir)),
     Shell("chown -R " + Owner(conf) + " " + Show(conf.venvDir))]
  }

  function SshDir(conf: Settings): string {
    "/home/" + Show(conf.projectUser) + "/.ssh"
  }

  function KeysPlan(conf: Settings): seq<Command> {
    [Shell("mkdir -p " + SshDir(conf)),
     Shell("cp ~/.ssh/authorized_keys " + SshDir(conf) + "/"),
     Shell("chown -R " + Owner(conf) + " " + SshDir(conf))]
  }

  function Scan(conf: Settings, host: string): Command {
    Shell("ssh-keyscan " + host + " >> " + SshDir(conf) + "/known_hosts")
  }

  function Scans(conf: Settings, hosts: seq<string>): (r: seq<Command>)
    ensures |r| == |hosts| && forall j :: 0 <= j < |r| ==> r[j] == Scan(conf, hosts[j])
  {
    seq(|hosts|, j requires 0 <= j < |hosts| => Scan(conf, hosts[j]))
  }

  function KnownHostsChown(conf: Settings): Command {
    Shell("chown " + Owner(conf) + " " + SshDir(conf) + "/known_hosts")
  }

  function KnownHostsPlan(conf: Settings): seq<Command> {
    [Scan(conf, "github.com")] + Scans(conf, conf.sshKnownHosts) + [KnownHostsChown(conf)]
  }

  function ServicePlan(conf: Settings): seq<Command> {
    [Put(Show(conf.serviceFile), "/etc/systemd/system/" + Show(conf.serviceFileName)),
     Sudo("systemctl daemon-reload"),
     Sudo("systemctl enable " + Show(conf.serviceFileName))]
  }

  function EnvFilePlan(dir: string, conf: Settings): seq<Command> {
    [Put(Show(conf.envFile), EnvUpload(dir, conf))]
  }

  /** Where a secret is uploaded: the shared directory, under its base name. */
  function SecretUpload(conf: Settings, secret: string): string {
    Show(conf.sharedDir) + "/" + LastSegment(secret)
  }

  function SecretsPlan(conf: Settings): (r: seq<Command>)
    ensures |r| == |conf.secrets|
    ensures forall j :: 0 <= j < |r| ==> r[j] == Put(conf.secrets[j], SecretUpload(conf, conf.secrets[j]))
  {
    seq(|conf.secrets|, j requires 0 <= j < |conf.secrets| => Put(conf.secrets[j], SecretUpload(conf, conf.secrets[j])))
  }

  function LinkSecret(dir: string, conf: Settings, secret: string): Command {
    Shell("ln -sfn " + SecretUpload(conf, secret) + " " + dir + "/" + LastSegment(secret))
  }

  function LinkSecretsPlan(dir: string, conf: Settings): (r: seq<Command>)
    ensures |r| == |conf.secrets|
    ensures forall j :: 0 <= j < |r| ==> r[j] == LinkSecret(dir, conf, conf.secrets[j])
  {
    seq(|conf.secrets|, j requires 0 <= j < |conf.secrets| => LinkSecret(dir, conf, conf.secrets[j]))
  }

  // ---------------------------------------------------------------------------
  // The operations

  /** Issues command `j` of `plan`, all earlier commands of which were issued
      from `before` and completed. */
  method IssueNext(c: Connection, cmd: Command, ghost before: seq<Command>, ghost plan: seq<Command>, ghost j: nat)
    returns (raised: bool)
    requires j < |plan| && cmd == plan[j]
    requires c.log == before + plan[..j] && !Attempt(c.remote, |before|, plan[..j]).raised
    modifies c
    ensures c.log == before + plan[..j + 1]
    ensures raised ==> Attempt(c.remote, |before|, plan) == Outcome(plan[..j + 1], true)
    ensures !raised ==> !Attempt(c.remote, |before|, plan[..j + 1]).raised
    ensures !raised && j + 1 == |plan| ==> Attempt(c.remote, |before|, plan) == Outcome(plan, false)
    ensures j + 1 == |plan| ==> c.log == before + plan
  {
    AttemptStep(c.remote, |before|, plan, j);
    var reply := c.Execute(cmd);
    raised := reply.raised;
    assert plan[..|plan|] == plan;
  }

  /** `setup_release_dir`. */
  method SetupReleaseDir(c: Connection, dir: string) returns (raised: bool)
    modifies c
    ensures Performed(c, old(c.log), Attempt(c.remote, |old(c.log)|, ReleaseDirPlan(dir)), raised)
  {
    ghost var plan := ReleaseDirPlan(dir);
    raised := IssueNext(c, Shell("mkdir -p " + dir), c.log, plan, 0);
  }

  /** `update_source_code`: clones the repository into the release directory
      and checks out the branch. */
  method UpdateSourceCode(c: Connection, dir: string, conf: Settings) returns (raised: bool)
    modifies c
    ensures Performed(c, old(c.log), Attempt(c.remote, |old(c.log)|, SourcePlan(dir, conf)), raised)
  {
    ghost var plan := SourcePlan(dir, conf);
    ghost var before := c.log;
    raised := IssueNext(c, Shell("git clone " + Show(conf.sourceCodeUrl) + " " + dir), before, plan, 0);
    if raised { return; }
    raised := IssueNext(c, Shell("cd " + dir + " && git checkout " + Show(conf.branch)), before, plan, 1);
  }

  /** `setup_symlinks`: links the shared media directory into the release and
      the shared `.env` to the release's environment file. */
  method SetupSymlinks(c: Connection, dir: string, conf: Settings) returns (raised: bool)
    modifies c
    ensures Performed(c, old(c.log), Attempt(c.remote, |old(c.log)|, SymlinksPlan(dir, conf)), raised)
  {
    ghost var plan := SymlinksPlan(dir, conf);
    ghost var before := c.log;
    var shared := Show(conf.sharedDir);
    raised := IssueNext(c, Shell("ln -sfn " + shared + "/media " + dir + "/media"), before, plan, 0);
    if raised { return; }
    var release := LastSegment(dir);
    raised := IssueNext(c, Shell("ln -sfn " + (shared + "/.env." + release) + " " + shared + "/.env"), before, plan, 1);
  }

  /** `install_requirements`: pip runs inside the release directory. */
  method InstallRequirements(c: Connection, dir: string, conf: Settings) returns (raised: bool)
    modifies c
    ensures Performed(c, old(c.log), Attempt(c.remote, |old(c.log)|, RequirementsPlan(dir, conf)), raised)
  {
    ghost var plan := RequirementsPlan(dir, conf);
    raised := IssueNext(c, Run(Show(conf.venvDir) + "/bin/pip install -r requirements.txt", Some(dir), [], false, false),
                        c.log, plan, 0);
  }

  /** `collect_static_files`: inside the release directory, with the
      environment variables of the configuration. */
  method CollectStaticFiles(c: Connection, dir: string, conf: Settings) returns (raised: bool)
    modifies c
    ensures Performed(c, old(c.log), Attempt(c.remote, |old(c.log)|, CollectStaticPlan(dir, conf)), raised)
  {
    ghost var plan := CollectStaticPlan(dir, conf);
    raised := IssueNext(c, Run(Show(conf.pythonPath) + " manage.py collectstatic --noinput", Some(dir), conf.envVars, false, false),
                        c.log, plan, 0);
  }

  /** `migrate_database`. */
  method MigrateDatabase(c: Connection, dir: string, conf: Settings) returns (raised: bool)
    modifies c
    ensures Performed(c, old(c.log), Attempt(c.remote, |old(c.log)|, MigratePlan(dir, conf)), raised)
  {
    ghost var plan := MigratePlan(dir, conf);
    raised := IssueNext(c, Run(Show(conf.pythonPath) + " manage.py migrate", Some(dir), conf.envVars, false, false),
                        c.log, plan, 0);
  }

  /** `update_symlink`: points `current` at the release. */
  method UpdateSymlink(c: Connection, dir: string, conf: Settings) returns (raised: bool)
    modifies c
    ensures Performed(c, old(c.log), Attempt(c.remote, |old(c.log)|, CurrentPlan(dir, conf)), raised)
  {
    ghost var plan := CurrentPlan(dir, conf);
    raised := IssueNext(c, Shell("ln -sfn " + dir + " " + Show(conf.currentDir)), c.log, plan, 0);
  }

  /** `restart_service`. */
  method RestartService(c: Connection, conf: Settings) returns (raised: bool)
    modifies c
    ensures Performed(c, old(c.log), Attempt(c.remote, |old(c.log)|, RestartPlan(conf)), raised)
  {
    ghost var plan := RestartPlan(conf);
    raised := IssueNext(c, Sudo("systemctl restart " + Show(conf.serviceFileName)), c.log, plan, 0);
  }

  /** The loop of `cleanup_old_releases`: removes the named releases in order. */
  method RemoveReleases(c: Connection, conf: Settings, stale: seq<string>) returns (raised: bool)
    modifies c
    ensures Performed(c, old(c.log), Attempt(c.remote, |old(c.log)|, RemovalsOf(conf, stale)), raised)
  {
    ghost var plan := RemovalsOf(conf, stale);
    ghost var before := c.log;
    raised := false;
    for j := 0 to |stale|
      invariant c.log == before + plan[..j]
      invariant !Attempt(c.remote, |before|, plan[..j]).raised
    {
      raised := IssueNext(c, Shell("rm -rf " + Show(conf.releasesDir) + "/" + stale[j]), before, plan, j);
      if raised { return; }
    }
    assert plan[..|stale|] == plan;
  }

  /** The part of `cleanup_old_releases` after the listing. */
  method RemoveOldReleases(c: Connection, conf: Settings, releases: seq<string>) returns (raised: bool)
    requires conf.keepReleases > 0
    modifies c
    ensures Performed(c, old(c.log), Attempt(c.remote, |old(c.log)|, Removals(conf, releases)), raised)
  {
    raised := false;
    if |releases| > conf.keepReleases {
      raised := RemoveReleases(c, conf, releases[..|releases| - conf.keepReleases]);
    }
  }

  /** `cleanup_old_releases`: lists the releases directory and removes all but
      the last `keep_releases` entries of the listing; keeps everything when
      `keep_releases` is not positive. */
  method CleanupOldReleases(c: Connection, conf: Settings) returns (raised: bool)
    modifies c
    ensures Performed(c, old(c.log), CleanupOutcome(conf, c.remote, |old(c.log)|), raised)
  {
    if conf.keepReleases <= 0 {
      return false;
    }
    var listing := c.Execute(ListingCommand(conf));
    raised := listing.raised;
    if raised { return; }
    raised := RemoveOldReleases(c, conf, Words(listing.stdout));
  }

  /** `create_project_user`: probes for the user without raising, and only when
      the probe fails creates the user and gives it password-less sudo. */
  method CreateProjectUser(c: Connection, conf: Settings) returns (raised: bool)
    modifies c
    ensures Performed(c, old(c.log), CreateUserOutcome(conf, c.remote, |old(c.log)|), raised)
  {
    var user := Show(conf.projectUser);
    var probe := c.Execute(Run("id -u " + user, None, [], true, false));
    raised := probe.raised;
    if probe.failed {
      ghost var plan := AddUserPlan(conf);
      ghost var probed := c.log;
      raised := IssueNext(c, Sudo("useradd -m -s /bin/bash " + user), probed, plan, 0);
      if raised { return; }
      raised := IssueNext(c, Sudo("echo \"" + user + " ALL=(ALL) NOPASSWD:ALL\" > /etc/sudoers.d/" + user), probed, plan, 1);
    }
  }

  /** `create_directory_structure`: the shared, releases and virtual
      environment directories, then the whole project root handed to the
      project user. */
  method CreateDirectoryStructure(c: Connection, conf: Settings) returns (raised: bool)
    modifies c
    ensures Performed(c, old(c.log), Attempt(c.remote, |old(c.log)|, DirectoriesPlan(conf)), raised)
  {
    ghost var plan := DirectoriesPlan(conf);
    ghost var before := c.log;
    raised := IssueNext(c, Sudo("mkdir -p " + Show(conf.sharedDir)), before, plan, 0);
    if raised { return; }
    raised := IssueNext(c, Sudo("mkdir -p " + Show(conf.releasesDir)), before, plan, 1);
    if raised { return; }
    raised := IssueNext(c, Sudo("mkdir -p " + Show(conf.venvDir)), before, plan, 2);
    if raised { return; }
    raised := IssueNext(c, Sudo("chown -R " + Owner(conf) + " " + Show(conf.projectRoot)), before, plan, 3);
  }

  /** `setup_packages`: the base packages, then the configured ones when there
      are any, named one by one. */
  method SetupPackages(c: Connection, conf: Settings) returns (raised: bool)
    modifies c
    ensures Performed(c, old(c.log), Attempt(c.remote, |old(c.log)|, PackagesPlan(conf)), raised)
  {
    ghost var plan := PackagesPlan(conf);
    ghost var before := c.log;
    raised := IssueNext(c, Shell("apt update"), before, plan, 0);
    if raised { return; }
    raised := IssueNext(c, Shell("apt install -y python3 python3-venv python3-pip git"), before, plan, 1);
    if raised { return; }
    if conf.systemPackages != [] {
      raised := IssueNext(c, Shell("apt install -y " + PackageArguments(conf.systemPackages)), before, plan, 2);
    }
  }

  /** `setup_venv`. */
  method SetupVenv(c: Connection, conf: Settings) returns (raised: bool)
    modifies c
    ensures Performed(c, old(c.log), Attempt(c.remote, |old(c.log)|, VenvPlan(conf)), raised)
  {
    ghost var plan := VenvPlan(conf);
    ghost var before := c.log;
    raised := IssueNext(c, Shell("python3 -m venv " + Show(conf.venvDir)), before, plan, 0);
    if raised { return; }
    raised := IssueNext(c, Shell("chown -R " + Owner(conf) + " " + Show(conf.venvDir)), before, plan, 1);
  }

  /** `copy_authorized_keys`: the connecting user's authorized keys become the
      project user's. */
  method CopyAuthorizedKeys(c: Connection, conf: Settings) returns (raised: bool)
    modifies c
    ensures Performed(c, old(c.log), Attempt(c.remote, |old(c.log)|, KeysPlan(conf)), raised)
  {
    ghost var plan := KeysPlan(conf);
    ghost var before := c.log;
    var ssh := SshDir(conf);
    raised := IssueNext(c, Shell("mkdir -p " + ssh), before, plan, 0);
    if raised { return; }
    raised := IssueNext(c, Shell("cp ~/.ssh/authorized_keys " + ssh + "/"), before, plan, 1);
    if raised { return; }
    raised := IssueNext(c, Shell("chown -R " + Owner(conf) + " " + ssh), before, plan, 2);
  }

  /** `setup_known_hosts`: GitHub's host keys, those of every configured host
      in order, then the file handed to the project user. */
  method SetupKnownHosts(c: Connection, conf: Settings) returns (raised: bool)
    modifies c
    ensures Performed(c, old(c.log), Attempt(c.remote, |old(c.log)|, KnownHostsPlan(conf)), raised)
  {
    ghost var plan := KnownHostsPlan(conf);
    ghost var before := c.log;
    raised := IssueNext(c, Scan(conf, "github.com"), before, plan, 0);
    if raised { return; }
    var hosts := conf.sshKnownHosts;
    for j := 0 to |hosts|
      invariant c.log == before + plan[..j + 1]
      invariant !Attempt(c.remote, |before|, plan[..j + 1]).raised
    {
      raised := IssueNext(c, Scan(conf, hosts[j]), before, plan, j + 1);
      if raised { return; }
    }
    raised := IssueNext(c, KnownHostsChown(conf), before, plan, |hosts| + 1);
  }

  /** `setup_service`: uploads the unit file, reloads systemd and enables the
      service. */
  method SetupService(c: Connection, conf: Settings) returns (raised: bool)
    modifies c
    ensures Performed(c, old(c.log), Attempt(c.remote, |old(c.log)|, ServicePlan(conf)), raised)
  {
    ghost var plan := ServicePlan(conf);
    ghost var before := c.log;
    var unit := Show(conf.serviceFileName);
    raised := IssueNext(c, Put(Show(conf.serviceFile), "/etc/systemd/system/" + unit), before, plan, 0);
    if raised { return; }
    raised := IssueNext(c, Sudo("systemctl daemon-reload"), before, plan, 1);
    if raised { return; }
    raised := IssueNext(c, Sudo("systemctl enable " + unit), before, plan, 2);
  }

  /** `try_to_remove_release_dir`: a failure to remove the directory is
      swallowed, so this operation never raises. */
  method TryToRemoveReleaseDir(c: Connection, dir: string)
    modifies c
    ensures c.log == old(c.log) + [Shell("rm -rf " + dir)]
  {
    var reply := c.Execute(Shell("rm -rf " + dir));
  }

  /** `copy_env_file`: uploads the environment file next to the shared `.env`,
      named after the release. */
  method CopyEnvFile(c: Connection, dir: string, conf: Settings) returns (raised: bool)
    modifies c
    ensures Performed(c, old(c.log), Attempt(c.remote, |old(c.log)|, EnvFilePlan(dir, conf)), raised)
  {
    ghost var plan := EnvFilePlan(dir, conf);
    var release := LastSegment(dir);
    raised := IssueNext(c, Put(Show(conf.envFile), Show(conf.sharedDir) + "/.env." + release), c.log, plan, 0);
  }

  /** `copy_secrets`: every secret is uploaded to the shared directory under
      its base name. */
  method CopySecrets(c: Connection, conf: Settings) returns (raised: bool)
    modifies c
    ensures Performed(c, old(c.log), Attempt(c.remote, |old(c.log)|, SecretsPlan(conf)), raised)
  {
    ghost var plan := SecretsPlan(conf);
    ghost var before := c.log;
    raised := false;
    for j := 0 to |conf.secrets|
      invariant c.log == before + plan[..j]
      invariant !Attempt(c.remote, |before|, plan[..j]).raised
    {
      var secret := conf.secrets[j];
      var name := LastSegment(secret);
      raised := IssueNext(c, Put(secret, Show(conf.sharedDir) + "/" + name), before, plan, j);
      if raised { return; }
    }
    assert plan[..|conf.secrets|] == plan;
  }

  /** `link_secrets_to_release`: every uploaded secret is linked into the
      release under its base name. */
  method LinkSecretsToRelease(c: Connection, dir: string, conf: Settings) returns (raised: bool)
    modifies c
    ensures Performed(c, old(c.log), Attempt(c.remote, |old(c.log)|, LinkSecretsPlan(dir, conf)), raised)
  {
    ghost var plan := LinkSecretsPlan(dir, conf);
    ghost var before := c.log;
    raised := false;
    for j := 0 to |conf.secrets|
      invariant c.log == before + plan[..j]
      invariant !Attempt(c.remote, |before|, plan[..j]).raised
    {
      var name := LastSegment(conf.secrets[j]);
      raised := IssueNext(c, Shell("ln -sfn " + (Show(conf.sharedDir) + "/" + name) + " " + dir + "/" + name), before, plan, j);
      if raised { return; }
    }
    assert plan[..|conf.secrets|] == plan;
  }

  // ---------------------------------------------------------------------------
  // Properties of the operations

  /** The number of entries beyond the `keep` newest. */
  function Excess(n: int, keep: int): int {
    if n > keep then n - keep else 0
  }

  lemma RemoveReleaseInjective(conf: Settings, a: string, b: string)
    requires RemoveRelease(conf, a) == RemoveRelease(conf, b)
    ensures a == b
  {
    var prefix := "rm -rf " + Show(conf.releasesDir) + "/";
    assert RemoveRelease(conf, a).line == prefix + a;
    assert RemoveRelease(conf, b).line == prefix + b;
    assert a == (prefix + a)[|prefix|..];
    assert b == (prefix + b)[|prefix|..];
  }

  /** `cleanup_old_releases` issues nothing when `keep_releases` is not positive. */
  lemma CleanupKeepsAll(conf: Settings, r: Remote, k: nat)
    requires conf.keepReleases <= 0
    ensures CleanupOutcome(conf, r, k) == Outcome([], false)
  {
  }

  /** Otherwise, after the listing, it removes the oldest entries of the
      listing in order, at most as many as exceed `keep_releases`. */
  lemma CleanupRemovesOldest(conf: Settings, r: Remote, k: nat, listing: seq<string>)
    requires conf.keepReleases > 0 && !Raises(r, k, ListingCommand(conf))
    requires listing == Words(Stdout(r, k))
    ensures var o := CleanupOutcome(conf, r, k);
      && o.issued != [] && o.issued[0] == ListingCommand(conf)
      && |o.issued| - 1 <= Excess(|listing|, conf.keepReleases)
      && forall j :: 1 <= j < |o.issued| ==> o.issued[j] == RemoveRelease(conf, listing[j - 1])
  {
    var plan := Removals(conf, listing);
    var a := Attempt(r, k + 1, plan);
    var o := CleanupOutcome(conf, r, k);
    assert o.issued == [ListingCommand(conf)] + a.issued;
    forall j | 1 <= j < |o.issued| ensures o.issued[j] == RemoveRelease(conf, listing[j - 1]) {
      assert o.issued[j] == a.issued[j - 1] == plan[j - 1];
    }
  }

  /** It removes every release beyond the newest `keep_releases` exactly when
      none of those removals raises. */
  lemma CleanupRemovesAllOld(conf: Settings, r: Remote, k: nat, listing: seq<string>)
    requires conf.keepReleases > 0 && !Raises(r, k, ListingCommand(conf))
    requires listing == Words(Stdout(r, k))
    ensures var o := CleanupOutcome(conf, r, k);
      !o.raised <==> forall j :: 0 <= j < Excess(|listing|, conf.keepReleases) ==> !Raises(r, k + 1 + j, RemoveRelease(conf, listing[j]))
    ensures var o := CleanupOutcome(conf, r, k);
      !o.raised ==> |o.issued| == 1 + Excess(|listing|, conf.keepReleases)
  {
    var plan := Removals(conf, listing);
    AttemptCompletes(r, k + 1, plan);
    assert forall j :: 0 <= j < |plan| ==> plan[j] == RemoveRelease(conf, listing[j]);
  }

  /** With distinct names in the listing, the newest `keep_releases` releases
      are never removed. */
  lemma CleanupSparesNewest(conf: Settings, r: Remote, k: nat, j: nat)
    requires conf.keepReleases > 0
    requires var listing := Words(Stdout(r, k));
      |listing| - conf.keepReleases <= j < |listing|
      && forall i :: 0 <= i < |listing| && i != j ==> listing[i] != listing[j]
    ensures RemoveRelease(conf, Words(Stdout(r, k))[j]) !in CleanupOutcome(conf, r, k).issued
  {
    var listing := Words(Stdout(r, k));
    var o := CleanupOutcome(conf, r, k);
    if !Raises(r, k, ListingCommand(conf)) {
      CleanupRemovesOldest(conf, r, k, listing);
      if RemoveRelease(conf, listing[j]) in o.issued {
        var i :| 0 <= i < |o.issued| && o.issued[i] == RemoveRelease(conf, listing[j]);
        assert i != 0 by {
          assert ListingCommand(conf).Run? && ListingCommand(conf).hide;
        }
        RemoveReleaseInjective(conf, listing[i - 1], listing[j]);
        assert false;
      }
    }
  }

  /** `create_project_user`: the probe never raises; the user is created
      exactly when the probe fails, and then given a sudoers entry unless
      creating it raised. */
  lemma CreateUserOnlyWhenMissing(conf: Settings, r: Remote, k: nat)
    ensures var o := CreateUserOutcome(conf, r, k);
      && o.issued != [] && o.issued[0] == ProbeCommand(conf)
      && (|o.issued| > 1 <==> k in r.failing)
      && (|o.issued| > 1 ==> o.issued[1] == Sudo("useradd -m -s /bin/bash " + Show(conf.projectUser)))
      && (o.raised <==> k in r.failing && (k + 1 in r.failing || k + 2 in r.failing))
      && (!o.raised && k in r.failing ==> o.issued == [ProbeCommand(conf)] + AddUserPlan(conf))
  {
    if k in r.failing {
      var plan := AddUserPlan(conf);
      assert plan[1..] == [plan[1]];
      assert Attempt(r, k + 2, [plan[1]]) == Outcome([plan[1]], k + 2 in r.failing);
      assert Attempt(r, k + 1, plan)
             == if k + 1 in r.failing then Outcome([plan[0]], true) else Then([plan[0]], Attempt(r, k + 2, [plan[1]]));
    }
  }

  /** The shared `.env` of a release `<releases>/<ts>` points at the file
      uploaded for it, `.env.<ts>` in the shared directory. */
  lemma EnvLinkTargetsUpload(dir: string, conf: Settings, base: string, ts: string, shared: string)
    requires dir == base + "/" + ts && forall i :: 0 <= i < |ts| ==> ts[i] != '/'
    requires conf.sharedDir == Some(shared)
    ensures EnvFilePlan(dir, conf) == [Put(Show(conf.envFile), shared + "/.env." + ts)]
    ensures SymlinksPlan(dir, conf)[1] == Shell("ln -sfn " + (shared + "/.env." + ts) + " " + shared + "/.env")
  {
    LastSegmentAfterSlash(base, ts);
  }

  /** Every secret is linked into the release from where it was uploaded,
      under the same base name; a secret `<folder>/<name>` is uploaded as
      `<shared>/<name>`. */
  lemma SecretLinksMatchUploads(dir: string, conf: Settings, j: nat)
    requires j < |conf.secrets|
    ensures SecretsPlan(conf)[j].Put? && SecretsPlan(conf)[j].local == conf.secrets[j]
    ensures LinkSecretsPlan(dir, conf)[j]
            == Shell("ln -sfn " + SecretsPlan(conf)[j].remote + " " + dir + "/" + LastSegment(conf.secrets[j]))
    ensures forall folder, name :: conf.secrets[j] == folder + "/" + name
              && (forall i :: 0 <= i < |name| ==> name[i] != '/')
              ==> SecretsPlan(conf)[j].remote == Show(conf.sharedDir) + "/" + name
  {
    forall folder, name | conf.secrets[j] == folder + "/" + name && (forall i :: 0 <= i < |name| ==> name[i] != '/')
      ensures SecretsPlan(conf)[j].remote == Show(conf.sharedDir) + "/" + name
    {
      LastSegmentAfterSlash(folder, name);
    }
  }

  lemma ScanIsNotChown(conf: Settings, host: string)
    ensures Scan(conf, host) != KnownHostsChown(conf)
  {
    assert Scan(conf, host).line[0] == 's';
    assert KnownHostsChown(conf).line[0] == 'c';
  }

  /** `setup_known_hosts` scans GitHub first, then every configured host in
      order, and hands the file to the project user last. */
  lemma KnownHostsPlanShape(conf: Settings)
    ensures var plan := KnownHostsPlan(conf); var hosts := conf.sshKnownHosts;
      && |plan| == |hosts| + 2
      && plan[0] == Scan(conf, "github.com")
      && (forall j :: 0 <= j < |hosts| ==> plan[j + 1] == Scan(conf, hosts[j]))
      && plan[|hosts| + 1] == KnownHostsChown(conf)
  {
  }

  /** The known-hosts file is handed to the project user only once every scan
      completed. */
  lemma KnownHostsOrder(conf: Settings, r: Remote, k: nat)
    ensures var plan := KnownHostsPlan(conf); var o := Attempt(r, k, plan);
      KnownHostsChown(conf) in o.issued ==> forall j :: 0 <= j <= |conf.sshKnownHosts| ==> !Raises(r, k + j, plan[j])
  {
    var plan := KnownHostsPlan(conf);
    var hosts := conf.sshKnownHosts;
    KnownHostsPlanShape(conf);
    var o := Attempt(r, k, plan);
    if KnownHostsChown(conf) in o.issued {
      var i :| 0 <= i < |o.issued| && o.issued[i] == KnownHostsChown(conf);
      assert plan[i] == KnownHostsChown(conf);
      if i < |plan| - 1 {
        var host := if i == 0 then "github.com" else hosts[i - 1];
        assert plan[i] == Scan(conf, host);
        ScanIsNotChown(conf, host);
        assert false;
      }
      assert |o.issued| == |plan|;
      AttemptCompletedBeforeLast(r, k, plan);
    }
  }

  /** A package name `split()` keeps as one word: non-empty, without whitespace. */
  predicate Atom(p: string) {
    p != [] && forall i :: 0 <= i < |p| ==> !IsSpace(p[i])
  }

  /** `split()` of the package argument gives back exactly the packages. */
  lemma {:induction false} PackageArgumentsSplit(packages: seq<string>)
    requires forall i :: 0 <= i < |packages| ==> Atom(packages[i])
    ensures Words(PackageArguments(packages)) == packages
    decreases |packages|
  {
    if packages == [] {
      assert Split("", IsSpace) == [""];
      assert NonEmpty([""]) == NonEmpty([]);
    } else if |packages| == 1 {
      var q := packages[0];
      assert PackageArguments(packages) == q;
      SplitNoSeparator(q, IsSpace);
      assert q != "" && [q][1..] == [];
      assert NonEmpty([q]) == [q] + NonEmpty([]);
      assert Words(q) == [q];
      assert packages == [q];
    } else {
      var p := packages[0];
      var rest := packages[1..];
      PackageArgumentsSplit(rest);
      var tail := Join(" ", rest);
      assert PackageArguments(packages) == p + " " + tail;
      assert p + " " + tail == p + [' '] + tail;
      SplitAround(p, ' ', tail, IsSpace);
      SplitNoSeparator(p, IsSpace);
      var pieces := Split(PackageArguments(packages), IsSpace);
      assert pieces == [p] + Split(tail, IsSpace);
      assert pieces[0] == p && pieces[1..] == Split(tail, IsSpace);
      assert NonEmpty(pieces) == [p] + NonEmpty(Split(tail, IsSpace));
      assert Words(tail) == rest;
      assert Words(PackageArguments(packages)) == NonEmpty(pieces);
      assert packages == [p] + rest;
    }
  }

  /** `setup_packages` as written: the list itself is formatted into the
      command, as Python shows a list. */
  function PackagesPlanAsWritten(conf: Settings): seq<Command> {
    var shown := Repr(RList(seq(|conf.systemPackages|, i requires 0 <= i < |conf.systemPackages| => RStr(conf.systemPackages[i]))));
    [Shell("apt update"), Shell("apt install -y python3 python3-venv python3-pip git")]
    + (if conf.systemPackages != [] then [Shell("apt install -y " + shown)] else [])
  }

  /** As written, the command line for a single package `p` carries the one
      word `['p']`, whose `split()` is not the packages; the corrected plan
      carries `p` itself. */
  lemma PackagesAsWrittenMisnamed(conf: Settings, p: string)
    requires conf.systemPackages == [p] && Atom(p)
    ensures PackagesPlanAsWritten(conf)[2] == Shell("apt install -y " + ("['" + p + "']"))
    ensures Words("['" + p + "']") == ["['" + p + "']"] != conf.systemPackages
    ensures PackagesPlan(conf)[2] == Shell("apt install -y " + p) && Words(p) == conf.systemPackages
  {
    var items := seq(1, i requires 0 <= i < 1 => RStr(p));
    assert items == [RStr(p)];
    var shownItems := seq(|items|, k requires 0 <= k < |items| => Repr(items[k]));
    assert shownItems == ["'" + p + "'"];
    assert Repr(RList(items)) == "[" + ("'" + p + "'") + "]";
    var w := "['" + p + "']";
    assert w == "[" + ("'" + p + "'") + "]";
    forall i | 0 <= i < |w| ensures !IsSpace(w[i]) {
      if 2 <= i < |w| - 2 { assert w[i] == p[i - 2]; }
    }
    SplitNoSeparator(w, IsSpace);
    assert [w][1..] == [];
    assert NonEmpty([w]) == [w] + NonEmpty([]);
    assert |w| != |p|;
    PackageArgumentsSplit([p]);
  }
}
