/**
  `set_up` and `deploy`: each runs a fixed sequence of operations on every
  server in turn, over one connection per server. The first operation that
  raises ends the whole run, on that server and on every server after it,
  and the program exits with status 1.
*/
module Deploy {
  import opened Text
  import opened Models
  import opened Core

  /** The operations, named by what they set up. */
  datatype Step =
    // set_up
    | UserAccount | AuthorizedKeys | DirectoryStructure | SystemPackages
    | VirtualEnv | KnownHosts | ServiceUnit | SharedSecrets
    // deploy
    | ReleaseDirectory | SourceCode | EnvFile | SharedLinks | Dependencies
    | SecretLinks | StaticFiles | Migrations | CurrentLink | ServiceRestart | OldReleases

  /** What an operation runs against: the server's configuration, the
      release directory of the deployment (empty for `set_up`), and the
      server's behaviour. */
  datatype Server = Server(conf: Settings, dir: string, remote: Remote)

  /** An operation: its name, and what it issues on a server from a given log
      position. */
  datatype Task = Task(name: Step, outcome: (Server, nat) -> Outcome)

  /** The operations of `set_up`. The service and the secrets are set up
      whatever the configuration holds: a validated configuration always has
      both attributes. */
  function SetupTasks(): seq<Task> {
    [Task(UserAccount, (v: Server, k: nat) => CreateUserOutcome(v.conf, v.remote, k)),
     Task(AuthorizedKeys, (v: Server, k: nat) => Attempt(v.remote, k, KeysPlan(v.conf))),
     Task(DirectoryStructure, (v: Server, k: nat) => Attempt(v.remote, k, DirectoriesPlan(v.conf))),
     Task(SystemPackages, (v: Server, k: nat) => Attempt(v.remote, k, PackagesPlan(v.conf))),
     Task(VirtualEnv, (v: Server, k: nat) => Attempt(v.remote, k, VenvPlan(v.conf))),
     Task(KnownHosts, (v: Server, k: nat) => Attempt(v.remote, k, KnownHostsPlan(v.conf))),
     Task(ServiceUnit, (v: Server, k: nat) => Attempt(v.remote, k, ServicePlan(v.conf))),
     Task(SharedSecrets, (v: Server, k: nat) => Attempt(v.remote, k, SecretsPlan(v.conf)))]
  }

  /** What an operation the configuration switches off issues: nothing. */
  function Skipped(): Outcome {
    Outcome([], false)
  }

  /** The operations of `deploy`. Static files and migrations issue nothing
      unless the configuration asks for them. */
  function DeployTasks(): seq<Task> {
    [Task(ReleaseDirectory, (v: Server, k: nat) => Attempt(v.remote, k, ReleaseDirPlan(v.dir))),
     Task(SourceCode, (v: Server, k: nat) => Attempt(v.remote, k, SourcePlan(v.dir, v.conf))),
     Task(EnvFile, (v: Server, k: nat) => Attempt(v.remote, k, EnvFilePlan(v.dir, v.conf))),
     Task(SharedLinks, (v: Server, k: nat) => Attempt(v.remote, k, SymlinksPlan(v.dir, v.conf))),
     Task(Dependencies, (v: Server, k: nat) => Attempt(v.remote, k, RequirementsPlan(v.dir, v.conf))),
     Task(SecretLinks, (v: Server, k: nat) => Attempt(v.remote, k, LinkSecretsPlan(v.dir, v.conf))),
     Task(StaticFiles, (v: Server, k: nat) =>
       if v.conf.collectStaticFiles then Attempt(v.remote, k, CollectStaticPlan(v.dir, v.conf)) else Skipped()),
     Task(Migrations, (v: Server, k: nat) =>
       if v.conf.runMigrations then Attempt(v.remote, k, MigratePlan(v.dir, v.conf)) else Skipped()),
     Task(CurrentLink, (v: Server, k: nat) => Attempt(v.remote, k, CurrentPlan(v.dir, v.conf))),
     Task(ServiceRestart, (v: Server, k: nat) => Attempt(v.remote, k, RestartPlan(v.conf))),
     Task(OldReleases, (v: Server, k: nat) => CleanupOutcome(v.conf, v.remote, k))]
  }

  /** The names of the operations started on a server, what they issued, and
      whether the last of them raised. */
  datatype Progress = Progress(started: seq<Step>, issued: seq<Command>, raised: bool)

  /** Running `tasks` in turn on `v` from log position `k`, up to and
      including the first that raises. */
  function Run(tasks: seq<Task>, v: Server, k: nat): Progress
    decreases |tasks|
  {
    if tasks == [] then Progress([], [], false)
    else
      var o := tasks[0].outcome(v, k);
      if o.raised then Progress([tasks[0].name], o.issued, true)
      else
        var p := Run(tasks[1..], v, k + |o.issued|);
        Progress([tasks[0].name] + p.started, o.issued + p.issued, p.raised)
  }

  /** Running the first `n` of `tasks`. */
  function RunTasks(tasks: seq<Task>, n: nat, v: Server, k: nat): Progress
    requires n <= |tasks|
  {
    Run(tasks[..n], v, k)
  }

  /** `p`, followed by `t` unless `p` raised. */
  function Extend(p: Progress, t: Task, v: Server, k: nat): Progress {
    if p.raised then p
    else
      var o := t.outcome(v, k + |p.issued|);
      Progress(p.started + [t.name], p.issued + o.issued, o.raised)
  }

  /** One more operation at the end runs after all the others, unless one of
      them raised. */
  lemma {:induction false} RunAppend(tasks: seq<Task>, t: Task, v: Server, k: nat)
    ensures Run(tasks + [t], v, k) == Extend(Run(tasks, v, k), t, v, k)
    decreases |tasks|
  {
    if tasks == [] {
      assert [] + [t] == [t] && [t][1..] == [];
      var o := t.outcome(v, k);
      assert [] + [t.name] == [t.name] && [] + o.issued == o.issued;
      assert o.issued + [] == o.issued && [t.name] + [] == [t.name];
    } else {
      var o := tasks[0].outcome(v, k);
      assert (tasks + [t])[0] == tasks[0] && (tasks + [t])[1..] == tasks[1..] + [t];
      if !o.raised {
        var k1 := k + |o.issued|;
        RunAppend(tasks[1..], t, v, k1);
        var p := Run(tasks[1..], v, k1);
        if !p.raised {
          var o2 := t.outcome(v, k1 + |p.issued|);
          assert k + |o.issued + p.issued| == k1 + |p.issued|;
          assert ([tasks[0].name] + p.started) + [t.name] == [tasks[0].name] + (p.started + [t.name]);
          assert (o.issued + p.issued) + o2.issued == o.issued + (p.issued + o2.issued);
        }
      }
    }
  }

  /** Running the first `n + 1` operations is running the first `n`, then
      the next one unless one of the first `n` raised. */
  lemma RunStep(tasks: seq<Task>, n: nat, v: Server, k: nat)
    requires n < |tasks|
    ensures RunTasks(tasks, n + 1, v, k) == Extend(RunTasks(tasks, n, v, k), tasks[n], v, k)
  {
    assert tasks[..n + 1] == tasks[..n] + [tasks[n]];
    RunAppend(tasks[..n], tasks[n], v, k);
  }

  /** Once the first `j` operations raised, the rest is never started. */
  lemma {:induction false} RaisedStops(tasks: seq<Task>, j: nat, n: nat, v: Server, k: nat)
    requires j <= n <= |tasks| && RunTasks(tasks, j, v, k).raised
    ensures RunTasks(tasks, n, v, k) == RunTasks(tasks, j, v, k)
    decreases n - j
  {
    if j < n {
      RaisedStops(tasks, j, n - 1, v, k);
      RunStep(tasks, n - 1, v, k);
    }
  }

  /** The operations started are the first ones in order: all `n` of them
      unless one raised, and at least the first. */
  lemma {:induction false} StartedInOrder(tasks: seq<Task>, n: nat, v: Server, k: nat)
    requires n <= |tasks|
    ensures var p := RunTasks(tasks, n, v, k);
      && |p.started| <= n
      && (forall i :: 0 <= i < |p.started| ==> p.started[i] == tasks[i].name)
      && (!p.raised ==> |p.started| == n)
      && (n > 0 ==> |p.started| > 0)
    decreases n
  {
    if n > 0 {
      StartedInOrder(tasks, n - 1, v, k);
      RunStep(tasks, n - 1, v, k);
    }
  }

  /** Running more operations only adds commands after those already issued. */
  lemma {:induction false} IssuedGrows(tasks: seq<Task>, j: nat, n: nat, v: Server, k: nat)
    requires j <= n <= |tasks|
    ensures RunTasks(tasks, j, v, k).issued <= RunTasks(tasks, n, v, k).issued
    decreases n
  {
    if j < n {
      IssuedGrows(tasks, j, n - 1, v, k);
      RunStep(tasks, n - 1, v, k);
    }
  }

  /** An operation is started only once every operation before it completed. */
  lemma StartedAfterCompleted(tasks: seq<Task>, j: nat, n: nat, v: Server, k: nat)
    requires j < n <= |tasks| && j < |RunTasks(tasks, n, v, k).started|
    ensures !RunTasks(tasks, j, v, k).raised && |RunTasks(tasks, j, v, k).started| == j
  {
    StartedInOrder(tasks, j, v, k);
    if RunTasks(tasks, j, v, k).raised {
      RaisedStops(tasks, j, n, v, k);
    }
  }

  /** The first `j` operations ran on `v`, leaving the connection's log at
      `log`, and none of them raised. */
  ghost predicate Reached(tasks: seq<Task>, j: nat, v: Server, log: seq<Command>) {
    j <= |tasks| && log == RunTasks(tasks, j, v, 0).issued && !RunTasks(tasks, j, v, 0).raised
  }

  /** All of `tasks` ran on `v`, up to the first that raised, leaving `log`. */
  ghost predicate Finished(tasks: seq<Task>, v: Server, log: seq<Command>, raised: bool) {
    log == RunTasks(tasks, |tasks|, v, 0).issued && raised == RunTasks(tasks, |tasks|, v, 0).raised
  }

  /** What the methods below use after each operation: if it raised, the run
      is over; otherwise the next operation is reached. */
  lemma Next(tasks: seq<Task>, j: nat, v: Server, log: seq<Command>, o: Outcome)
    requires Reached(tasks, j, v, log) && j < |tasks| && o == tasks[j].outcome(v, |log|)
    ensures if o.raised then Finished(tasks, v, log + o.issued, true) else Reached(tasks, j + 1, v, log + o.issued)
  {
    RunStep(tasks, j, v, 0);
    if o.raised {
      RaisedStops(tasks, j + 1, |tasks|, v, 0);
    }
  }

  /** The release directory of a deployment: the timestamp under the
      releases directory. */
  function ReleasePath(conf: Settings, timestamp: string): string {
    Show(conf.releasesDir) + "/" + timestamp
  }

  /** `set_up` connects to a server as root. */
  function SetupTarget(conf: Settings): string {
    "root@" + Show(conf.host)
  }

  /** `deploy` connects to a server as the project user. */
  function DeployTarget(conf: Settings): string {
    Show(conf.projectUser) + "@" + Show(conf.host)
  }

  /** What a command did on one server: where it connected, the commands it
      issued and whether the last of them raised. */
  datatype ServerRun = ServerRun(target: string, port: int, log: seq<Command>, raised: bool)

  /** `set_up` on one server. */
  function SetupRun(conf: Settings, r: Remote): ServerRun {
    var tasks := SetupTasks();
    var p := RunTasks(tasks, |tasks|, Server(conf, "", r), 0);
    ServerRun(SetupTarget(conf), conf.port, p.issued, p.raised)
  }

  /** `deploy` on one server, into the release directory of `timestamp`. */
  function DeployRun(conf: Settings, r: Remote, timestamp: string): ServerRun {
    var tasks := DeployTasks();
    var p := RunTasks(tasks, |tasks|, Server(conf, ReleasePath(conf, timestamp), r), 0);
    ServerRun(DeployTarget(conf), conf.port, p.issued, p.raised)
  }

  // ---------------------------------------------------------------------------
  // deploy, on one server

  /** The operations `CreateRelease` runs. */
  lemma CreateReleaseTasks()
    ensures var tasks := DeployTasks();
      && |tasks| == 11
      && (forall v: Server, k: nat :: tasks[0].outcome(v, k) == Attempt(v.remote, k, ReleaseDirPlan(v.dir)))
      && (forall v: Server, k: nat :: tasks[1].outcome(v, k) == Attempt(v.remote, k, SourcePlan(v.dir, v.conf)))
      && (forall v: Server, k: nat :: tasks[2].outcome(v, k) == Attempt(v.remote, k, EnvFilePlan(v.dir, v.conf)))
  {
  }

  /** The new release directory, the code checked out in it, and the environment file. */
  method CreateRelease(c: Connection, dir: string, s: Settings, ghost tasks: seq<Task>) returns (raised: bool)
    modifies c
    requires 3 <= |tasks| && Reached(tasks, 0, Server(s, dir, c.remote), c.log)
    requires forall v: Server, k: nat :: tasks[0].outcome(v, k) == Attempt(v.remote, k, ReleaseDirPlan(v.dir))
    requires forall v: Server, k: nat :: tasks[1].outcome(v, k) == Attempt(v.remote, k, SourcePlan(v.dir, v.conf))
    requires forall v: Server, k: nat :: tasks[2].outcome(v, k) == Attempt(v.remote, k, EnvFilePlan(v.dir, v.conf))
    ensures var v := Server(s, dir, c.remote);
      if raised then Finished(tasks, v, c.log, true) else Reached(tasks, 3, v, c.log)
  {
    ghost var v := Server(s, dir, c.remote);
    ghost var before := c.log;
    raised := SetupReleaseDir(c, dir);
    Next(tasks, 0, v, before, Attempt(c.remote, |before|, ReleaseDirPlan(dir)));
    if raised { return; }
    before := c.log;
    raised := UpdateSourceCode(c, dir, s);
    Next(tasks, 1, v, before, Attempt(c.remote, |before|, SourcePlan(dir, s)));
    if raised { return; }
    before := c.log;
    raised := CopyEnvFile(c, dir, s);
    Next(tasks, 2, v, before, Attempt(c.remote, |before|, EnvFilePlan(dir, s)));
  }

  /** The operations `ConfigureRelease` runs. */
  lemma ConfigureReleaseTasks()
    ensures var tasks := DeployTasks();
      && |tasks| == 11
      && (forall v: Server, k: nat :: tasks[3].outcome(v, k) == Attempt(v.remote, k, SymlinksPlan(v.dir, v.conf)))
      && (forall v: Server, k: nat :: tasks[4].outcome(v, k) == Attempt(v.remote, k, RequirementsPlan(v.dir, v.conf)))
      && (forall v: Server, k: nat :: tasks[5].outcome(v, k) == Attempt(v.remote, k, LinkSecretsPlan(v.dir, v.conf)))
  {
  }

  /** The shared links, the dependencies and the links to the secrets. */
  method ConfigureRelease(c: Connection, dir: string, s: Settings, ghost tasks: seq<Task>) returns (raised: bool)
    modifies c
    requires 6 <= |tasks| && Reached(tasks, 3, Server(s, dir, c.remote), c.log)
    requires forall v: Server, k: nat :: tasks[3].outcome(v, k) == Attempt(v.remote, k, SymlinksPlan(v.dir, v.conf))
    requires forall v: Server, k: nat :: tasks[4].outcome(v, k) == Attempt(v.remote, k, RequirementsPlan(v.dir, v.conf))
    requires forall v: Server, k: nat :: tasks[5].outcome(v, k) == Attempt(v.remote, k, LinkSecretsPlan(v.dir, v.conf))
    ensures var v := Server(s, dir, c.remote);
      if raised then Finished(tasks, v, c.log, true) else Reached(tasks, 6, v, c.log)
  {
    ghost var v := Server(s, dir, c.remote);
    ghost var before := c.log;
    raised := SetupSymlinks(c, dir, s);
    Next(tasks, 3, v, before, Attempt(c.remote, |before|, SymlinksPlan(dir, s)));
    if raised { return; }
    before := c.log;
    raised := InstallRequirements(c, dir, s);
    Next(tasks, 4, v, before, Attempt(c.remote, |before|, RequirementsPlan(dir, s)));
    if raised { return; }
    before := c.log;
    raised := LinkSecretsToRelease(c, dir, s);
    Next(tasks, 5, v, before, Attempt(c.remote, |before|, LinkSecretsPlan(dir, s)));
  }

  /** The operations `BuildRelease` runs. */
  lemma BuildReleaseTasks()
    ensures var tasks := DeployTasks();
      && |tasks| == 11
      && (forall v: Server, k: nat :: tasks[6].outcome(v, k) == if v.conf.collectStaticFiles then Attempt(v.remote, k, CollectStaticPlan(v.dir, v.conf)) else Skipped())
      && (forall v: Server, k: nat :: tasks[7].outcome(v, k) == if v.conf.runMigrations then Attempt(v.remote, k, MigratePlan(v.dir, v.conf)) else Skipped())
  {
  }

  /** Static files and migrations, each only when the configuration asks for it. */
  method BuildRelease(c: Connection, dir: string, s: Settings, ghost tasks: seq<Task>) returns (raised: bool)
    modifies c
    requires 8 <= |tasks| && Reached(tasks, 6, Server(s, dir, c.remote), c.log)
    requires forall v: Server, k: nat :: tasks[6].outcome(v, k) == if v.conf.collectStaticFiles then Attempt(v.remote, k, CollectStaticPlan(v.dir, v.conf)) else Skipped()
    requires forall v: Server, k: nat :: tasks[7].outcome(v, k) == if v.conf.runMigrations then Attempt(v.remote, k, MigratePlan(v.dir, v.conf)) else Skipped()
    ensures var v := Server(s, dir, c.remote);
      if raised then Finished(tasks, v, c.log, true) else Reached(tasks, 8, v, c.log)
  {
    ghost var v := Server(s, dir, c.remote);
    ghost var before := c.log;
    if s.collectStaticFiles {
      raised := CollectStaticFiles(c, dir, s);
      Next(tasks, 6, v, before, Attempt(c.remote, |before|, CollectStaticPlan(dir, s)));
    } else {
      raised := false;
      Next(tasks, 6, v, before, Skipped());
      assert before + [] == before;
    }
    if raised { return; }
    before := c.log;
    if s.runMigrations {
      raised := MigrateDatabase(c, dir, s);
      Next(tasks, 7, v, before, Attempt(c.remote, |before|, MigratePlan(dir, s)));
    } else {
      raised := false;
      Next(tasks, 7, v, before, Skipped());
      assert before + [] == before;
    }
  }

  /** The operations `PublishRelease` runs. */
  lemma PublishReleaseTasks()
    ensures var tasks := DeployTasks();
      && |tasks| == 11
      && (forall v: Server, k: nat :: tasks[8].outcome(v, k) == Attempt(v.remote, k, CurrentPlan(v.dir, v.conf)))
      && (forall v: Server, k: nat :: tasks[9].outcome(v, k) == Attempt(v.remote, k, RestartPlan(v.conf)))
      && (forall v: Server, k: nat :: tasks[10].outcome(v, k) == CleanupOutcome(v.conf, v.remote, k))
  {
  }

  /** The `current` link, the service restart and the removal of old releases. */
  method PublishRelease(c: Connection, dir: string, s: Settings, ghost tasks: seq<Task>) returns (raised: bool)
    modifies c
    requires 11 == |tasks| && Reached(tasks, 8, Server(s, dir, c.remote), c.log)
    requires forall v: Server, k: nat :: tasks[8].outcome(v, k) == Attempt(v.remote, k, CurrentPlan(v.dir, v.conf))
    requires forall v: Server, k: nat :: tasks[9].outcome(v, k) == Attempt(v.remote, k, RestartPlan(v.conf))
    requires forall v: Server, k: nat :: tasks[10].outcome(v, k) == CleanupOutcome(v.conf, v.remote, k)
    ensures var v := Server(s, dir, c.remote);
      Finished(tasks, v, c.log, raised)
  {
    ghost var v := Server(s, dir, c.remote);
    ghost var before := c.log;
    raised := UpdateSymlink(c, dir, s);
    Next(tasks, 8, v, before, Attempt(c.remote, |before|, CurrentPlan(dir, s)));
    if raised { return; }
    before := c.log;
    raised := RestartService(c, s);
    Next(tasks, 9, v, before, Attempt(c.remote, |before|, RestartPlan(s)));
    if raised { return; }
    before := c.log;
    raised := CleanupOldReleases(c, s);
    Next(tasks, 10, v, before, CleanupOutcome(s, c.remote, |before|));
  }

  /** `deploy` on one server: a connection as the project user, on the
      configured port, and the operations in order until one raises. */
  method DeployServer(s: Settings, timestamp: string, remote: Remote) returns (c: Connection, raised: bool)
    ensures fresh(c) && c.remote == remote
    ensures ServerRun(c.target, c.port, c.log, raised) == DeployRun(s, remote, timestamp)
  {
    var dir := ReleasePath(s, timestamp);
    c := new Connection(DeployTarget(s), s.port, remote);
    ghost var tasks := DeployTasks();
    CreateReleaseTasks();
    ConfigureReleaseTasks();
    BuildReleaseTasks();
    PublishReleaseTasks();
    raised := CreateRelease(c, dir, s, tasks);
    if raised { return; }
    raised := ConfigureRelease(c, dir, s, tasks);
    if raised { return; }
    raised := BuildRelease(c, dir, s, tasks);
    if raised { return; }
    raised := PublishRelease(c, dir, s, tasks);
  }

  // ---------------------------------------------------------------------------
  // set_up, on one server

  /** The operations `CreateAccount` runs. */
  lemma CreateAccountTasks()
    ensures var tasks := SetupTasks();
      && |tasks| == 8
      && (forall v: Server, k: nat :: tasks[0].outcome(v, k) == CreateUserOutcome(v.conf, v.remote, k))
      && (forall v: Server, k: nat :: tasks[1].outcome(v, k) == Attempt(v.remote, k, KeysPlan(v.conf)))
      && (forall v: Server, k: nat :: tasks[2].outcome(v, k) == Attempt(v.remote, k, DirectoriesPlan(v.conf)))
  {
  }

  /** The project user, its authorized keys and its directories. */
  method CreateAccount(c: Connection, s: Settings, ghost tasks: seq<Task>) returns (raised: bool)
    modifies c
    requires 3 <= |tasks| && Reached(tasks, 0, Server(s, "", c.remote), c.log)
    requires forall v: Server, k: nat :: tasks[0].outcome(v, k) == CreateUserOutcome(v.conf, v.remote, k)
    requires forall v: Server, k: nat :: tasks[1].outcome(v, k) == Attempt(v.remote, k, KeysPlan(v.conf))
    requires forall v: Server, k: nat :: tasks[2].outcome(v, k) == Attempt(v.remote, k, DirectoriesPlan(v.conf))
    ensures var v := Server(s, "", c.remote);
      if raised then Finished(tasks, v, c.log, true) else Reached(tasks, 3, v, c.log)
  {
    ghost var v := Server(s, "", c.remote);
    ghost var before := c.log;
    raised := CreateProjectUser(c, s);
    Next(tasks, 0, v, before, CreateUserOutcome(s, c.remote, |before|));
    if raised { return; }
    before := c.log;
    raised := CopyAuthorizedKeys(c, s);
    Next(tasks, 1, v, before, Attempt(c.remote, |before|, KeysPlan(s)));
    if raised { return; }
    before := c.log;
    raised := CreateDirectoryStructure(c, s);
    Next(tasks, 2, v, before, Attempt(c.remote, |before|, DirectoriesPlan(s)));
  }

  /** The operations `PrepareEnvironment` runs. */
  lemma PrepareEnvironmentTasks()
    ensures var tasks := SetupTasks();
      && |tasks| == 8
      && (forall v: Server, k: nat :: tasks[3].outcome(v, k) == Attempt(v.remote, k, PackagesPlan(v.conf)))
      && (forall v: Server, k: nat :: tasks[4].outcome(v, k) == Attempt(v.remote, k, VenvPlan(v.conf)))
      && (forall v: Server, k: nat :: tasks[5].outcome(v, k) == Attempt(v.remote, k, KnownHostsPlan(v.conf)))
  {
  }

  /** The system packages, the virtual environment and the known hosts. */
  method PrepareEnvironment(c: Connection, s: Settings, ghost tasks: seq<Task>) returns (raised: bool)
    modifies c
    requires 6 <= |tasks| && Reached(tasks, 3, Server(s, "", c.remote), c.log)
    requires forall v: Server, k: nat :: tasks[3].outcome(v, k) == Attempt(v.remote, k, PackagesPlan(v.conf))
    requires forall v: Server, k: nat :: tasks[4].outcome(v, k) == Attempt(v.remote, k, VenvPlan(v.conf))
    requires forall v: Server, k: nat :: tasks[5].outcome(v, k) == Attempt(v.remote, k, KnownHostsPlan(v.conf))
    ensures var v := Server(s, "", c.remote);
      if raised then Finished(tasks, v, c.log, true) else Reached(tasks, 6, v, c.log)
  {
    ghost var v := Server(s, "", c.remote);
    ghost var before := c.log;
    raised := SetupPackages(c, s);
    Next(tasks, 3, v, before, Attempt(c.remote, |before|, PackagesPlan(s)));
    if raised { return; }
    before := c.log;
    raised := SetupVenv(c, s);
    Next(tasks, 4, v, before, Attempt(c.remote, |before|, VenvPlan(s)));
    if raised { return; }
    before := c.log;
    raised := SetupKnownHosts(c, s);
    Next(tasks, 5, v, before, Attempt(c.remote, |before|, KnownHostsPlan(s)));
  }

  /** The operations `InstallService` runs. */
  lemma InstallServiceTasks()
    ensures var tasks := SetupTasks();
      && |tasks| == 8
      && (forall v: Server, k: nat :: tasks[6].outcome(v, k) == Attempt(v.remote, k, ServicePlan(v.conf)))
      && (forall v: Server, k: nat :: tasks[7].outcome(v, k) == Attempt(v.remote, k, SecretsPlan(v.conf)))
  {
  }

  /** The service unit and the shared secrets. */
  method InstallService(c: Connection, s: Settings, ghost tasks: seq<Task>) returns (raised: bool)
    modifies c
    requires 8 == |tasks| && Reached(tasks, 6, Server(s, "", c.remote), c.log)
    requires forall v: Server, k: nat :: tasks[6].outcome(v, k) == Attempt(v.remote, k, ServicePlan(v.conf))
    requires forall v: Server, k: nat :: tasks[7].outcome(v, k) == Attempt(v.remote, k, SecretsPlan(v.conf))
    ensures var v := Server(s, "", c.remote);
      Finished(tasks, v, c.log, raised)
  {
    ghost var v := Server(s, "", c.remote);
    ghost var before := c.log;
    raised := SetupService(c, s);
    Next(tasks, 6, v, before, Attempt(c.remote, |before|, ServicePlan(s)));
    if raised { return; }
    before := c.log;
    raised := CopySecrets(c, s);
    Next(tasks, 7, v, before, Attempt(c.remote, |before|, SecretsPlan(s)));
  }

  /** `set_up` on one server: a connection as root, on the configured port,
      and the operations in order until one raises. */
  method SetupServer(s: Settings, remote: Remote) returns (c: Connection, raised: bool)
    ensures fresh(c) && c.remote == remote
    ensures ServerRun(c.target, c.port, c.log, raised) == SetupRun(s, remote)
  {
    c := new Connection(SetupTarget(s), s.port, remote);
    ghost var tasks := SetupTasks();
    CreateAccountTasks();
    PrepareEnvironmentTasks();
    InstallServiceTasks();
    raised := CreateAccount(c, s, tasks);
    if raised { return; }
    raised := PrepareEnvironment(c, s, tasks);
    if raised { return; }
    raised := InstallService(c, s, tasks);
  }

  // ---------------------------------------------------------------------------
  // The order of the operations on one server

  /** The operations of `set_up`, in the order the source calls them. */
  function SetupSteps(): seq<Step> {
    [UserAccount, AuthorizedKeys, DirectoryStructure, SystemPackages,
     VirtualEnv, KnownHosts, ServiceUnit, SharedSecrets]
  }

  /** The operations of `deploy`, in the order the source calls them. */
  function DeploySteps(): seq<Step> {
    [ReleaseDirectory, SourceCode, EnvFile, SharedLinks, Dependencies,
     SecretLinks, StaticFiles, Migrations, CurrentLink, ServiceRestart, OldReleases]
  }

  lemma SetupNames()
    ensures |SetupTasks()| == |SetupSteps()|
    ensures forall i :: 0 <= i < |SetupSteps()| ==> SetupTasks()[i].name == SetupSteps()[i]
  {
  }

  lemma DeployNames()
    ensures |DeployTasks()| == |DeploySteps()|
    ensures forall i :: 0 <= i < |DeploySteps()| ==> DeployTasks()[i].name == DeploySteps()[i]
  {
  }

  /** `set_up` starts its operations in order, stopping only at one that
      raised, and always creates the project user first. */
  lemma SetupOrder(v: Server)
    ensures var p := RunTasks(SetupTasks(), |SetupTasks()|, v, 0);
      && |p.started| <= |SetupSteps()| && p.started == SetupSteps()[..|p.started|]
      && (!p.raised ==> p.started == SetupSteps())
      && p.started != [] && p.started[0] == UserAccount
  {
    var p := RunTasks(SetupTasks(), |SetupTasks()|, v, 0);
    SetupNames();
    StartedInOrder(SetupTasks(), |SetupTasks()|, v, 0);
    assert p.started == SetupSteps()[..|p.started|];
  }

  /** `deploy` starts its operations in order, stopping only at one that
      raised, and always creates the release directory first. */
  lemma DeployOrder(v: Server)
    ensures var p := RunTasks(DeployTasks(), |DeployTasks()|, v, 0);
      && |p.started| <= |DeploySteps()| && p.started == DeploySteps()[..|p.started|]
      && (!p.raised ==> p.started == DeploySteps())
      && p.started != [] && p.started[0] == ReleaseDirectory
  {
    var p := RunTasks(DeployTasks(), |DeployTasks()|, v, 0);
    DeployNames();
    StartedInOrder(DeployTasks(), |DeployTasks()|, v, 0);
    assert p.started == DeploySteps()[..|p.started|];
  }

  /** `deploy` starts the `j`-th operation (`DeploySteps()[j]`, by
      `DeployOrder`) only once the `j` before it ran without raising; their
      commands open the log. So the `current` link moves only to a release
      whose code, dependencies, static files and migrations are in place, and
      old releases go only after the restart. */
  lemma DeployCompletedBefore(v: Server, j: nat)
    requires j < |RunTasks(DeployTasks(), |DeployTasks()|, v, 0).started|
    ensures j <= |DeployTasks()|
    ensures var before := RunTasks(DeployTasks(), j, v, 0);
      !before.raised && before.issued <= RunTasks(DeployTasks(), |DeployTasks()|, v, 0).issued
  {
    var tasks := DeployTasks();
    StartedInOrder(tasks, |tasks|, v, 0);
    StartedAfterCompleted(tasks, j, |tasks|, v, 0);
    IssuedGrows(tasks, j, |tasks|, v, 0);
  }

  /** `set_up` starts the `j`-th operation (`SetupSteps()[j]`, by
      `SetupOrder`) only once the `j` before it ran without raising; their
      commands open the log. */
  lemma SetupCompletedBefore(v: Server, j: nat)
    requires j < |RunTasks(SetupTasks(), |SetupTasks()|, v, 0).started|
    ensures j <= |SetupTasks()|
    ensures var before := RunTasks(SetupTasks(), j, v, 0);
      !before.raised && before.issued <= RunTasks(SetupTasks(), |SetupTasks()|, v, 0).issued
  {
    var tasks := SetupTasks();
    StartedInOrder(tasks, |tasks|, v, 0);
    StartedAfterCompleted(tasks, j, |tasks|, v, 0);
    IssuedGrows(tasks, j, |tasks|, v, 0);
  }

  /** The first command `deploy` issues on a server creates the release
      directory named after the timestamp. */
  lemma DeployOpensRelease(conf: Settings, r: Remote, timestamp: string)
    ensures var log := DeployRun(conf, r, timestamp).log;
      log != [] && log[0] == Shell("mkdir -p " + ReleasePath(conf, timestamp))
  {
    var tasks := DeployTasks();
    var v := Server(conf, ReleasePath(conf, timestamp), r);
    CreateReleaseTasks();
    IssuedGrows(tasks, 1, |tasks|, v, 0);
    RunStep(tasks, 0, v, 0);
    assert tasks[..0] == [];
    assert RunTasks(tasks, 1, v, 0).issued == ReleaseDirPlan(v.dir);
  }

  /** The first command `set_up` issues on a server asks whether the project
      user exists. */
  lemma SetupOpensWithProbe(conf: Settings, r: Remote)
    ensures var log := SetupRun(conf, r).log;
      log != [] && log[0] == ProbeCommand(conf)
  {
    var tasks := SetupTasks();
    var v := Server(conf, "", r);
    CreateAccountTasks();
    IssuedGrows(tasks, 1, |tasks|, v, 0);
    RunStep(tasks, 0, v, 0);
    assert tasks[..0] == [];
    var o := CreateUserOutcome(conf, r, 0);
    assert o.issued[0] == ProbeCommand(conf);
    assert RunTasks(tasks, 1, v, 0).issued == o.issued;
  }

  /** Static files are collected, and migrations run, only when the
      configuration asks for it; otherwise those operations issue nothing. */
  lemma OptionalSteps(v: Server)
    ensures var tasks := DeployTasks();
      var built := RunTasks(tasks, 6, v, 0);
      var collected := RunTasks(tasks, 7, v, 0);
      && (!built.raised ==>
            collected.issued == built.issued
              + (if v.conf.collectStaticFiles then Attempt(v.remote, |built.issued|, CollectStaticPlan(v.dir, v.conf)).issued else []))
      && (!collected.raised ==>
            RunTasks(tasks, 8, v, 0).issued == collected.issued
              + (if v.conf.runMigrations then Attempt(v.remote, |collected.issued|, MigratePlan(v.dir, v.conf)).issued else []))
  {
    BuildReleaseTasks();
    RunStep(DeployTasks(), 6, v, 0);
    RunStep(DeployTasks(), 7, v, 0);
  }

  // ---------------------------------------------------------------------------
  // Every server in turn

  /** The servers' runs up to and including the first that raised. */
  function UntilRaised(runs: seq<ServerRun>): (r: seq<ServerRun>)
    ensures |r| <= |runs| && r == runs[..|r|]
    decreases |runs|
  {
    if runs == [] then []
    else if runs[0].raised then [runs[0]]
    else [runs[0]] + UntilRaised(runs[1..])
  }

  /** Once a server's run raised, no later server is contacted; a run is cut
      short only by one that raised. */
  lemma {:induction false} UntilRaisedAborts(runs: seq<ServerRun>)
    ensures var r := UntilRaised(runs);
      && (forall i :: 0 <= i < |r| - 1 ==> !r[i].raised)
      && (|r| < |runs| ==> r != [] && r[|r| - 1].raised)
      && (runs != [] ==> r != [])
    decreases |runs|
  {
    if runs != [] && !runs[0].raised {
      UntilRaisedAborts(runs[1..]);
      var r := UntilRaised(runs[1..]);
      forall i | 0 <= i < |r| ensures !([runs[0]] + r)[i].raised {
        if i > 0 { assert ([runs[0]] + r)[i] == r[i - 1]; }
      }
    }
  }

  lemma {:induction false} UntilRaisedStops(runs: seq<ServerRun>, i: nat)
    requires i < |runs| && runs[i].raised
    requires forall j :: 0 <= j < i ==> !runs[j].raised
    ensures UntilRaised(runs) == runs[..i + 1]
    decreases i
  {
    if i > 0 {
      UntilRaisedStops(runs[1..], i - 1);
      assert [runs[0]] + runs[1..][..i] == runs[..i + 1];
    }
  }

  lemma {:induction false} UntilRaisedAll(runs: seq<ServerRun>)
    requires forall j :: 0 <= j < |runs| ==> !runs[j].raised
    ensures UntilRaised(runs) == runs
    decreases |runs|
  {
    if runs != [] {
      UntilRaisedAll(runs[1..]);
      assert [runs[0]] + runs[1..] == runs;
    }
  }

  function Fields(confs: seq<PystranoConfig>): (r: seq<Settings>)
    reads set i | 0 <= i < |confs| :: confs[i]
    ensures |r| == |confs| && forall i :: 0 <= i < |confs| ==> r[i] == confs[i].fields
  {
    seq(|confs|, i reads confs requires 0 <= i < |confs| => confs[i].fields)
  }

  /** What `set_up` would do on every server, were none to raise. */
  function SetupAll(confs: seq<Settings>, remotes: seq<Remote>): (r: seq<ServerRun>)
    requires |remotes| == |confs|
    ensures |r| == |confs|
    decreases |confs|, 1
  {
    if confs == [] then [] else SetupFirst(confs, remotes)
  }

  /** The first server's run of `set_up`, then the others'. */
  function SetupFirst(confs: seq<Settings>, remotes: seq<Remote>): (r: seq<ServerRun>)
    requires |remotes| == |confs| && confs != []
    ensures |r| == |confs|
    decreases |confs|, 0
  {
    [SetupRun(confs[0], remotes[0])] + SetupAll(confs[1..], remotes[1..])
  }

  lemma {:induction false} SetupAllAt(confs: seq<Settings>, remotes: seq<Remote>, i: nat)
    requires |remotes| == |confs| && i < |confs|
    ensures SetupAll(confs, remotes)[i] == SetupRun(confs[i], remotes[i])
    decreases i
  {
    assert SetupAll(confs, remotes) == SetupFirst(confs, remotes);
    if i > 0 {
      SetupAllAt(confs[1..], remotes[1..], i - 1);
    }
  }

  /** The servers' runs of `set_up`, up to the first that raised. */
  function SetupRuns(confs: seq<Settings>, remotes: seq<Remote>): seq<ServerRun>
    requires |remotes| == |confs|
  {
    UntilRaised(SetupAll(confs, remotes))
  }

  /** What `deploy` would do on every server, were none to raise. */
  function DeployAll(confs: seq<Settings>, remotes: seq<Remote>, timestamp: string): (r: seq<ServerRun>)
    requires |remotes| == |confs|
    ensures |r| == |confs|
    decreases |confs|, 1
  {
    if confs == [] then [] else DeployFirst(confs, remotes, timestamp)
  }

  /** The first server's run of `deploy`, then the others'. */
  function DeployFirst(confs: seq<Settings>, remotes: seq<Remote>, timestamp: string): (r: seq<ServerRun>)
    requires |remotes| == |confs| && confs != []
    ensures |r| == |confs|
    decreases |confs|, 0
  {
    [DeployRun(confs[0], remotes[0], timestamp)] + DeployAll(confs[1..], remotes[1..], timestamp)
  }

  lemma {:induction false} DeployAllAt(confs: seq<Settings>, remotes: seq<Remote>, timestamp: string, i: nat)
    requires |remotes| == |confs| && i < |confs|
    ensures DeployAll(confs, remotes, timestamp)[i] == DeployRun(confs[i], remotes[i], timestamp)
    decreases i
  {
    assert DeployAll(confs, remotes, timestamp) == DeployFirst(confs, remotes, timestamp);
    if i > 0 {
      DeployAllAt(confs[1..], remotes[1..], timestamp, i - 1);
    }
  }

  /** The servers' runs of `deploy`, all with the same timestamp, up to the
      first that raised. */
  function DeployRuns(confs: seq<Settings>, remotes: seq<Remote>, timestamp: string): seq<ServerRun>
    requires |remotes| == |confs|
  {
    UntilRaised(DeployAll(confs, remotes, timestamp))
  }

  /** The exit status: 1 once a server's run raised, 0 otherwise. */
  function ExitStatus(runs: seq<ServerRun>): int {
    if runs != [] && runs[|runs| - 1].raised then 1 else 0
  }

  /** The exit status is 1 exactly when some server's run raised: the run
      that raised is the last one made. */
  lemma {:induction false} ExitStatusRaised(all: seq<ServerRun>)
    ensures ExitStatus(UntilRaised(all)) == 1 <==> exists i :: 0 <= i < |all| && all[i].raised
  {
    var r := UntilRaised(all);
    UntilRaisedAborts(all);
    if i :| 0 <= i < |all| && all[i].raised {
      if |r| == |all| {
        assert r == all;
        assert i == |all| - 1;
      }
    }
    if ExitStatus(r) == 1 {
      assert all[|r| - 1] == r[|r| - 1];
    }
  }

  /** Every server `set_up` reaches is contacted as root on its own port and
      runs the operations of `set_up`. */
  lemma SetupRunsConnect(confs: seq<Settings>, remotes: seq<Remote>)
    requires |remotes| == |confs|
    ensures var runs := SetupRuns(confs, remotes);
      && |runs| <= |confs|
      && forall i :: 0 <= i < |runs| ==>
           && runs[i] == SetupRun(confs[i], remotes[i])
           && runs[i].target == "root@" + Show(confs[i].host)
           && runs[i].port == confs[i].port
  {
    var runs := SetupRuns(confs, remotes);
    forall i | 0 <= i < |runs|
      ensures runs[i] == SetupRun(confs[i], remotes[i])
    {
      SetupAllAt(confs, remotes, i);
    }
  }

  /** Every server `deploy` reaches is contacted as the project user on its
      own port, and its first command creates the release directory of the
      one timestamp shared by all servers. */
  lemma DeployRunsShareRelease(confs: seq<Settings>, remotes: seq<Remote>, timestamp: string)
    requires |remotes| == |confs|
    ensures var runs := DeployRuns(confs, remotes, timestamp);
      && |runs| <= |confs|
      && forall i :: 0 <= i < |runs| ==>
           && runs[i] == DeployRun(confs[i], remotes[i], timestamp)
           && runs[i].target == Show(confs[i].projectUser) + "@" + Show(confs[i].host)
           && runs[i].port == confs[i].port
           && runs[i].log != []
           && runs[i].log[0] == Shell("mkdir -p " + Show(confs[i].releasesDir) + "/" + timestamp)
  {
    var runs := DeployRuns(confs, remotes, timestamp);
    forall i | 0 <= i < |runs|
      ensures runs[i] == DeployRun(confs[i], remotes[i], timestamp)
      ensures runs[i].log != [] && runs[i].log[0] == Shell("mkdir -p " + Show(confs[i].releasesDir) + "/" + timestamp)
    {
      DeployAllAt(confs, remotes, timestamp, i);
      DeployOpensRelease(confs[i], remotes[i], timestamp);
    }
  }

  /** `set_up` on the `i`-th server. */
  method SetupNth(confs: seq<Settings>, remotes: seq<Remote>, i: nat) returns (run: ServerRun)
    requires |remotes| == |confs| && i < |confs|
    ensures run == SetupAll(confs, remotes)[i]
  {
    var c, raised := SetupServer(confs[i], remotes[i]);
    run := ServerRun(c.target, c.port, c.log, raised);
    SetupAllAt(confs, remotes, i);
  }

  /** `deploy` on the `i`-th server. */
  method DeployNth(confs: seq<Settings>, remotes: seq<Remote>, timestamp: string, i: nat) returns (run: ServerRun)
    requires |remotes| == |confs| && i < |confs|
    ensures run == DeployAll(confs, remotes, timestamp)[i]
  {
    var c, raised := DeployServer(confs[i], timestamp, remotes[i]);
    run := ServerRun(c.target, c.port, c.log, raised);
    DeployAllAt(confs, remotes, timestamp, i);
  }

  /** `set_up`: every server in turn, `remotes[i]` being the `i`-th server. */
  method SetUp(confs: seq<PystranoConfig>, remotes: seq<Remote>) returns (runs: seq<ServerRun>, status: int)
    requires |remotes| == |confs|
    ensures runs == SetupRuns(Fields(confs), remotes) && status == ExitStatus(runs)
  {
    var fs := Fields(confs);
    ghost var all := SetupAll(fs, remotes);
    runs := [];
    for i := 0 to |confs|
      invariant runs == all[..i]
      invariant forall j :: 0 <= j < i ==> !all[j].raised
    {
      var run := SetupNth(fs, remotes, i);
      runs := runs + [run];
      assert runs == all[..i + 1];
      if run.raised {
        UntilRaisedStops(all, i);
        return runs, 1;
      }
    }
    UntilRaisedAll(all);
    assert all[..|confs|] == all;
    status := 0;
  }

  /** `deploy`: every server in turn with one timestamp, `remotes[i]` being
      the `i`-th server. */
  method Deploy(confs: seq<PystranoConfig>, remotes: seq<Remote>, timestamp: string) returns (runs: seq<ServerRun>, status: int)
    requires |remotes| == |confs|
    ensures runs == DeployRuns(Fields(confs), remotes, timestamp) && status == ExitStatus(runs)
  {
    var fs := Fields(confs);
    ghost var all := DeployAll(fs, remotes, timestamp);
    runs := [];
    for i := 0 to |confs|
      invariant runs == all[..i]
      invariant forall j :: 0 <= j < i ==> !all[j].raised
    {
      var run := DeployNth(fs, remotes, timestamp, i);
      runs := runs + [run];
      assert runs == all[..i + 1];
      if run.raised {
        UntilRaisedStops(all, i);
        return runs, 1;
      }
    }
    UntilRaisedAll(all);
    assert all[..|confs|] == all;
    status := 0;
  }
}
