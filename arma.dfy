/** Installing and launching the game server (server/src/arma.rs): where a
    branch is installed, when an installation is fresh enough to reuse,
    the exact `steamcmd` command that installs it, and the command that
    launches it with the built addon. Processes, clocks and the
    environment are inputs: the age of the installation, the two Steam
    variables, and the outcome of running or spawning a command. */
module Arma {
  import opened Base
  import opened Protocol
  import Build

  const STEAMCMD: string := "/steamcmd/steamcmd.sh"

  /** An installation younger than twelve hours is reused. */
  const FRESH_SECONDS: nat := 43200

  const SERVERS_ROOT: Path := ["opt", "servers"]

  /** The two Steam credentials, as `std::env::var` finds them. */
  datatype Env = Env(steamUser: Option<string>, steamPass: Option<string>)

  /** How a finished `steamcmd` run ended: its exit status, and the
      `{:?}` text of its whole output. */
  datatype Output = Output(success: bool, report: string)

  /** A command as it is run: program, working directory and arguments. */
  datatype Invocation = Invocation(program: string, cwd: Option<Path>, args: seq<string>)

  /** `tokio::process::Command` while its arguments are being added. */
  class Command {
    const program: string
    var cwd: Option<Path>
    var args: seq<string>

    constructor (program: string)
      ensures this.program == program && cwd == None && args == []
    {
      this.program, cwd, args := program, None, [];
    }

    method Arg(a: string)
      modifies this`args
      ensures args == old(args) + [a]
    {
      args := args + [a];
    }

    method CurrentDir(p: Path)
      modifies this`cwd
      ensures cwd == Some(p)
    {
      cwd := Some(p);
    }

    function Snapshot(): Invocation
      reads this
    {
      Invocation(program, cwd, args)
    }
  }

  function LowerChar(c: char): char
  {
    if 'A' <= c <= 'Z' then (c as int + 32) as char else c
  }

  /** `to_lowercase`, on the ASCII letters. */
  function Lower(s: string): string
  {
    seq(|s|, i requires 0 <= i < |s| => LowerChar(s[i]))
  }

  /** Lower-casing keeps the length, leaves no upper-case ASCII letter,
      changes no other character, and is idempotent, so a branch name
      and its lower-cased form select the same installation. */
  lemma LowerFolds(s: string)
    ensures |Lower(s)| == |s|
    ensures forall i :: 0 <= i < |s| ==> !('A' <= Lower(s)[i] <= 'Z')
    ensures forall i :: 0 <= i < |s| && !('A' <= s[i] <= 'Z') ==> Lower(s)[i] == s[i]
    ensures Lower(Lower(s)) == Lower(s)
  {
  }

  /** `/opt/servers/<branch in lower case>`. */
  function InstallPath(config: ServerConfig): Path
  {
    SERVERS_ROOT + [Lower(config.branch)]
  }

  /** The installation at the path is reused when its age could be read
      (`age` is `None` when the path is missing or its modification time
      or elapsed time cannot be read) and is under twelve hours. */
  predicate Fresh(age: Option<nat>)
  {
    age.Some? && age.value < FRESH_SECONDS
  }

  /** The arguments of the `steamcmd` run that installs `config`'s branch. */
  function SteamcmdArgs(config: ServerConfig, user: string, pass: string): seq<string>
  {
    ["+login " + user + " " + pass, "+force_install_dir", PathString(InstallPath(config)), "+app_update 233780"]
    + (if config.branch != "public" then ["-beta", config.branch] else [])
    + (if config.branchPassword != "" then ["-betapassword", config.branchPassword] else [])
    + ["validate", "+quit"]
  }

  /** Whether `install` runs `steamcmd`, and with which credentials. */
  function Credentials(age: Option<nat>, env: Env): Option<(string, string)>
  {
    if Fresh(age) || env.steamUser.None? || env.steamPass.None? then None
    else Some((env.steamUser.value, env.steamPass.value))
  }

  /** What `install` returns, given the age of the installation, the
      environment, and how the `steamcmd` run (if any) ended: `Err` with
      the spawn error, or `Ok` with its output. */
  function InstallResult(config: ServerConfig, age: Option<nat>, env: Env, run: Result<Output, string>): Result<Path, string>
  {
    if Fresh(age) then Ok(InstallPath(config))
    else if env.steamUser.None? then Err("STEAM_USER not set")
    else if env.steamPass.None? then Err("STEAM_PASS not set")
    else match run
      case Err(e) => Err(e)
      case Ok(out) =>
        if !out.success then Err("Failed to install server: " + out.report) else Ok(InstallPath(config))
  }

  /** The `steamcmd` command of `install`, argument by argument. */
  method SteamcmdCommand(config: ServerConfig, user: string, pass: string) returns (command: Command)
    ensures fresh(command)
    ensures command.Snapshot() == Invocation(STEAMCMD, None, SteamcmdArgs(config, user, pass))
  {
    command := new Command(STEAMCMD);
    command.Arg("+login " + user + " " + pass);
    command.Arg("+force_install_dir");
    var dir := PathString(InstallPath(config));
    command.Arg(dir);
    command.Arg("+app_update 233780");
    ghost var head := command.args;
    assert head == ["+login " + user + " " + pass, "+force_install_dir", dir, "+app_update 233780"];
    if config.branch != "public" {
      command.Arg("-beta");
      command.Arg(config.branch);
    }
    ghost var beta := command.args;
    assert beta == head + (if config.branch != "public" then ["-beta", config.branch] else []);
    if config.branchPassword != "" {
      command.Arg("-betapassword");
      command.Arg(config.branchPassword);
    }
    assert command.args == beta + (if config.branchPassword != "" then ["-betapassword", config.branchPassword] else []);
    command.Arg("validate");
    command.Arg("+quit");
  }

  /** `install`: reuse a fresh installation, or read the credentials and
      run `steamcmd` to install the branch; `ran` is the command run. */
  method Install(config: ServerConfig, age: Option<nat>, env: Env, run: Result<Output, string>)
    returns (r: Result<Path, string>, ran: Option<Invocation>)
    ensures r == InstallResult(config, age, env, run)
    ensures ran == match Credentials(age, env)
      case None => None
      case Some((user, pass)) => Some(Invocation(STEAMCMD, None, SteamcmdArgs(config, user, pass)))
  {
    var fsBranch := Lower(config.branch);
    var path := SERVERS_ROOT + [fsBranch];
    if Fresh(age) {
      return Ok(path), None;
    }
    if env.steamUser.None? {
      return Err("STEAM_USER not set"), None;
    }
    if env.steamPass.None? {
      return Err("STEAM_PASS not set"), None;
    }
    var user, pass := env.steamUser.value, env.steamPass.value;
    var command := SteamcmdCommand(config, user, pass);
    ran := Some(command.Snapshot());
    match run {
      case Err(e) =>
        return Err(e), ran;
      case Ok(out) =>
        if !out.success {
          return Err("Failed to install server: " + out.report), ran;
        }
    }
    r := Ok(path);
  }

  /** A fresh installation is returned without reading the credentials
      and without running anything. */
  lemma FreshSkipsSteamcmd(config: ServerConfig, age: Option<nat>, env: Env, run: Result<Output, string>)
    requires Fresh(age)
    ensures InstallResult(config, age, env, run) == Ok(InstallPath(config))
    ensures Credentials(age, env) == None
  {
  }

  /** Otherwise the credentials are required, `STEAM_USER` first, and a
      failed run is an error; success yields the install path. */
  lemma InstallErrors(config: ServerConfig, age: Option<nat>, env: Env, run: Result<Output, string>)
    requires !Fresh(age)
    ensures env.steamUser.None? ==> InstallResult(config, age, env, run) == Err("STEAM_USER not set")
    ensures env.steamUser.Some? && env.steamPass.None? ==> InstallResult(config, age, env, run) == Err("STEAM_PASS not set")
    ensures env.steamUser.Some? && env.steamPass.Some? ==>
      (InstallResult(config, age, env, run).Ok? <==> run.Ok? && run.value.success)
    ensures InstallResult(config, age, env, run).Ok? ==> InstallResult(config, age, env, run).value == InstallPath(config)
  {
  }

  /** The fixed head and tail of the `steamcmd` arguments, with `-beta`
      right after the head exactly when the branch is not `public`, and
      `-betapassword` right after that exactly when a password is set. */
  lemma SteamcmdArgsShape(config: ServerConfig, user: string, pass: string)
    ensures var args := SteamcmdArgs(config, user, pass);
      var beta := if config.branch != "public" then 2 else 0;
      var password := if config.branchPassword != "" then 2 else 0;
      && |args| == 6 + beta + password
      && args[..4] == ["+login " + user + " " + pass, "+force_install_dir", PathString(InstallPath(config)), "+app_update 233780"]
      && (args[4] == "-beta" <==> config.branch != "public")
      && (config.branch != "public" ==> args[5] == config.branch)
      && (args[4 + beta] == "-betapassword" <==> config.branchPassword != "")
      && (config.branchPassword != "" ==> args[5 + beta] == config.branchPassword)
      && args[|args| - 2..] == ["validate", "+quit"]
  {
  }

  /** The default configuration installs `public` into
      `/opt/servers/public`, with no beta flags. */
  lemma DefaultSteamcmdArgs(user: string, pass: string)
    ensures PathString(InstallPath(DefaultConfig())) == "/opt/servers/public"
    ensures SteamcmdArgs(DefaultConfig(), user, pass) ==
      ["+login " + user + " " + pass, "+force_install_dir", "/opt/servers/public", "+app_update 233780", "validate", "+quit"]
  {
    var path := InstallPath(DefaultConfig());
    assert Lower("public") == "public";
    assert path == ["opt", "servers", "public"];
    assert path[..2][..1] == ["opt"];
    assert Components(path) == "/opt/servers/public";
  }

  /** The arguments the game server is launched with. */
  function LaunchArgs(name: string, built: Build.BuiltRequest): seq<string>
  {
    ["-name=" + name, "-world=empty", "-limitFPS=1000", "-profiles=\"/tmp/arma_profiles\"",
     "-mod=\"../../@tab\"", "\"-mod=../../.." + PathString(built.path) + "\""]
  }

  /** What `start` returns: `install`'s error, the spawn error, or the
      server's name together with the command that was spawned. */
  function StartResult(config: ServerConfig, built: Build.BuiltRequest, age: Option<nat>, env: Env,
                       run: Result<Output, string>, name: string, spawnError: Option<string>): Result<(string, Invocation), string>
  {
    match InstallResult(config, age, env, run)
    case Err(e) => Err(e)
    case Ok(path) =>
      if spawnError.Some? then Err(spawnError.value)
      else Ok((name, Invocation(PathString(path + [config.binary]), Some(path), LaunchArgs(name, built))))
  }

  /** `start`: install, then launch `<path>/<binary>` from `<path>` under
      the fresh `name`; `spawnError` is the spawn failure, if any. */
  method Start(config: ServerConfig, built: Build.BuiltRequest, age: Option<nat>, env: Env,
               run: Result<Output, string>, name: string, spawnError: Option<string>)
    returns (r: Result<(string, Invocation), string>)
    ensures r == StartResult(config, built, age, env, run, name, spawnError)
  {
    var installed, _ := Install(config, age, env, run);
    if installed.Err? {
      return Err(installed.error);
    }
    var path := installed.value;
    var command := new Command(PathString(path + [config.binary]));
    command.CurrentDir(path);
    command.Arg("-name=" + name);
    command.Arg("-world=empty");
    command.Arg("-limitFPS=1000");
    command.Arg("-profiles=\"/tmp/arma_profiles\"");
    command.Arg("-mod=\"../../@tab\"");
    command.Arg("\"-mod=../../.." + PathString(built.path) + "\"");
    assert command.args == LaunchArgs(name, built);
    if spawnError.Some? {
      return Err(spawnError.value);
    }
    r := Ok((name, command.Snapshot()));
  }

  /** A launched server runs `<install path>/<binary>` three levels below
      the root, so the last `-mod` argument, which climbs three levels
      from there, names the built request's directory. */
  lemma StartLaunchesBuild(config: ServerConfig, built: Build.BuiltRequest, age: Option<nat>, env: Env,
                           run: Result<Output, string>, name: string, spawnError: Option<string>)
    requires StartResult(config, built, age, env, run, name, spawnError).Ok?
    ensures var (n, inv) := StartResult(config, built, age, env, run, name, spawnError).value;
      && n == name
      && inv.cwd == Some(InstallPath(config)) && |InstallPath(config)| == 3
      && inv.program == PathString(InstallPath(config) + [config.binary])
      && inv.args[0] == "-name=" + name
      && inv.args[|inv.args| - 1] == "\"-mod=../../.." + PathString(built.path) + "\""
  {
  }

  /** `start` fails exactly when `install` fails or the spawn fails. */
  lemma StartErrors(config: ServerConfig, built: Build.BuiltRequest, age: Option<nat>, env: Env,
                    run: Result<Output, string>, name: string, spawnError: Option<string>)
    ensures var r := StartResult(config, built, age, env, run, name, spawnError);
      && (InstallResult(config, age, env, run).Err? ==> r == Err(InstallResult(config, age, env, run).error))
      && (InstallResult(config, age, env, run).Ok? && spawnError.Some? ==> r == Err(spawnError.value))
      && (r.Ok? <==> InstallResult(config, age, env, run).Ok? && spawnError.None?)
  {
  }
}
