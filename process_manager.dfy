/** The local MCP server supervisor (`mcp_host/services/process_manager.py`):
    one `McpProcess` per child server and the `McpProcessManager` that keeps
    the table of running children and the persisted configuration document
    `{"servers": {name: record}}`. Spawning a child is an outcome passed in
    (`spawned`); the configuration file is the `disk` field. */
module ProcessManager {
  import opened Wrappers
  import opened Text
  import opened Dicts
  import opened JsonValues
  import opened Lists

  /** An environment block, variable name to value. */
  type Env = Dict<string, string>

  /** A server record of the configuration document (a JSON object). */
  type Spec = Dict<string, Json>

  /** The configuration document: server name to record, in file order. */
  datatype Config = Config(servers: Dict<string, Spec>)

  /** `os.environ.copy()` followed by `update(custom)`. */
  function MergeEnv(system: Env, custom: Env): Env
    decreases |custom|
  {
    if custom == [] then system else MergeEnv(Put(system, custom[0].0, custom[0].1), custom[1..])
  }

  /** In the child's environment every custom variable overrides the system
      one, and every other system variable is passed through. */
  lemma {:induction false} MergeEnvLookup(system: Env, custom: Env, k: string)
    requires DistinctKeys(custom)
    ensures Lookup(MergeEnv(system, custom), k) ==
            if HasKey(custom, k) then Lookup(custom, k) else Lookup(system, k)
    decreases |custom|
  {
    if custom != [] {
      var c := custom[0];
      assert DistinctKeys(custom[1..]);
      MergeEnvLookup(Put(system, c.0, c.1), custom[1..], k);
      LookupPut(system, c.0, c.1, k);
      HasKeyIndex(custom[1..], k);
    }
  }

  /** The custom environment of a record: a falsy value adds nothing, an object
      of strings adds its entries; anything else makes the spawn fail. */
  function EnvOf(env: Json): Option<Env> {
    if !Truthy(env) then Some([])
    else if env.JObj? && forall i :: 0 <= i < |env.fields| ==> env.fields[i].1.JStr? then
      Some(seq(|env.fields|, i requires 0 <= i < |env.fields| => (env.fields[i].0, env.fields[i].1.s)))
    else None
  }

  /** `[command] + args` when it is a command line of strings. */
  function Argv(command: Json, args: Json): Option<seq<string>> {
    if command.JStr? && args.JArr? && forall i :: 0 <= i < |args.items| ==> args.items[i].JStr? then
      Some([command.s] + seq(|args.items|, i requires 0 <= i < |args.items| => args.items[i].s))
    else None
  }

  /** One child server process. */
  class McpProcess {
    const name: string
    const command: Json
    const args: Json
    const cwd: Json
    const env: Json
    /** `self.process is not None` */
    var hasHandle: bool
    var isRunning: bool
    /** The command line and environment the child was started with. */
    var argv: seq<string>
    var environment: Env

    constructor(name: string, command: Json, args: Json, cwd: Json, env: Json)
      ensures this.name == name && this.command == command && this.args == args
      ensures this.cwd == cwd && this.env == env
      ensures !hasHandle && !isRunning && argv == [] && environment == []
    {
      this.name := name;
      this.command := command;
      this.args := args;
      this.cwd := cwd;
      this.env := env;
      hasHandle := false;
      isRunning := false;
      argv := [];
      environment := [];
    }

    /** `start`: a child with `[command] + args` and the merged environment;
        any failure clears `is_running` and is raised again (`ok == false`). */
    method Start(system: Env, spawned: bool) returns (ok: bool)
      modifies this
      ensures ok <==> Argv(command, args).Some? && EnvOf(env).Some? && spawned
      ensures ok ==> hasHandle && isRunning && argv == Argv(command, args).value
                     && environment == MergeEnv(system, EnvOf(env).value)
      ensures !ok ==> !isRunning && hasHandle == old(hasHandle)
                      && argv == old(argv) && environment == old(environment)
    {
      var line := Argv(command, args);
      var custom := EnvOf(env);
      if line.Some? && custom.Some? && spawned {
        hasHandle := true;
        isRunning := true;
        argv := line.value;
        environment := MergeEnv(system, custom.value);
        ok := true;
      } else {
        isRunning := false;
        ok := false;
      }
    }

    /** `stop`: a started child is terminated (or killed) and marked not
        running; the handle is kept. */
    method Stop()
      modifies this
      ensures isRunning == (old(isRunning) && !hasHandle)
      ensures hasHandle == old(hasHandle) && argv == old(argv) && environment == old(environment)
    {
      if hasHandle {
        isRunning := false;
      }
    }
  }

  /** `load_config` over the stored document: an unreadable file reads as no servers. */
  function ConfigOf(disk: Option<Config>): (c: Config)
    ensures disk.None? ==> c.servers == []
  {
    match disk
    case None => Config([])
    case Some(c) => c
  }

  /** The record `start_server` saves: the earlier record (the caller's own
      `info` when the name is new) with `last_status`, `command`, `args` and
      `env` set from `info`. */
  function StartedRecord(base: Spec, info: Spec): Spec {
    var r1 := Put(base, "last_status", JStr("running"));
    var r2 := Put(r1, "command", Lookup(info, "command").GetOr(JNull));
    var r3 := Put(r2, "args", Lookup(info, "args").GetOr(JNull));
    Put(r3, "env", Lookup(info, "env").GetOr(JNull))
  }

  /** The saved record says running, with the command, arguments and
      environment requested, and keeps every other field of the base record. */
  lemma StartedRecordFields(base: Spec, info: Spec, k: string)
    ensures Lookup(StartedRecord(base, info), "last_status") == Some(JStr("running"))
    ensures Lookup(StartedRecord(base, info), "command") == Some(Lookup(info, "command").GetOr(JNull))
    ensures Lookup(StartedRecord(base, info), "args") == Some(Lookup(info, "args").GetOr(JNull))
    ensures Lookup(StartedRecord(base, info), "env") == Some(Lookup(info, "env").GetOr(JNull))
    ensures k !in {"last_status", "command", "args", "env"} ==>
            Lookup(StartedRecord(base, info), k) == Lookup(base, k)
  {
    var r1 := Put(base, "last_status", JStr("running"));
    var r2 := Put(r1, "command", Lookup(info, "command").GetOr(JNull));
    var r3 := Put(r2, "args", Lookup(info, "args").GetOr(JNull));
    var name := k;
    LookupPut(base, "last_status", JStr("running"), "last_status");
    LookupPut(r1, "command", Lookup(info, "command").GetOr(JNull), "last_status");
    LookupPut(r2, "args", Lookup(info, "args").GetOr(JNull), "last_status");
    LookupPut(r3, "env", Lookup(info, "env").GetOr(JNull), "last_status");
    LookupPut(r1, "command", Lookup(info, "command").GetOr(JNull), "command");
    LookupPut(r2, "args", Lookup(info, "args").GetOr(JNull), "command");
    LookupPut(r3, "env", Lookup(info, "env").GetOr(JNull), "command");
    LookupPut(r2, "args", Lookup(info, "args").GetOr(JNull), "args");
    LookupPut(r3, "env", Lookup(info, "env").GetOr(JNull), "args");
    LookupPut(r3, "env", Lookup(info, "env").GetOr(JNull), "env");
    LookupPut(base, "last_status", JStr("running"), name);
    LookupPut(r1, "command", Lookup(info, "command").GetOr(JNull), name);
    LookupPut(r2, "args", Lookup(info, "args").GetOr(JNull), name);
    LookupPut(r3, "env", Lookup(info, "env").GetOr(JNull), name);
  }

  /** The record `start_server` reads its launch settings from. When the name
      is new, the stored record is the caller's dictionary itself, so the
      assignments of the save step are visible in it (a missing `args` is
      then `None` rather than absent). */
  function LaunchRecord(servers: Dict<string, Spec>, name: string, info: Spec): Spec {
    if HasKey(servers, name) then info else StartedRecord(info, info)
  }

  /** The settings `start_server` reads: `command`, `args` (default `[]`), `cwd`, `env`. */
  function LaunchCommand(launch: Spec): Json { Lookup(launch, "command").GetOr(JNull) }
  function LaunchArgs(launch: Spec): Json { Lookup(launch, "args").GetOr(JArr([])) }
  function LaunchCwd(launch: Spec): Json { Lookup(launch, "cwd").GetOr(JNull) }
  function LaunchEnv(launch: Spec): Json { Lookup(launch, "env").GetOr(JNull) }

  /** Whether a start with these settings registers a running child. */
  predicate Launches(launch: Spec, spawned: bool) {
    Truthy(LaunchCommand(launch)) && Argv(LaunchCommand(launch), LaunchArgs(launch)).Some?
    && EnvOf(LaunchEnv(launch)).Some? && spawned
  }

  /** A new name whose record has no `args` never starts: the save step has
      set `args` to `None` in the caller's own record, so the command line
      cannot be built. */
  lemma FreshRecordWithoutArgs(servers: Dict<string, Spec>, name: string, info: Spec, spawned: bool)
    requires !HasKey(servers, name) && !HasKey(info, "args")
    ensures !Launches(LaunchRecord(servers, name, info), spawned)
  {
    StartedRecordFields(info, info, "args");
  }

  /** A record that names its arguments starts the same way whether or not the name is new. */
  lemma LaunchRecordSettings(servers: Dict<string, Spec>, name: string, info: Spec)
    requires HasKey(info, "args")
    ensures LaunchCommand(LaunchRecord(servers, name, info)) == LaunchCommand(info)
    ensures LaunchArgs(LaunchRecord(servers, name, info)) == LaunchArgs(info)
    ensures LaunchEnv(LaunchRecord(servers, name, info)) == LaunchEnv(info)
  {
    StartedRecordFields(info, info, "cwd");
  }

  /** `start_skill`'s record. */
  function SkillInfo(uvPath: string, python: string, runner: string, script: string, env: Json): Spec {
    var uv := Contains(uvPath, "uv");
    [("command", JStr(if uv then uvPath else python)),
     ("args", if uv then JArr([JStr("run"), JStr(runner), JStr(script)]) else JArr([JStr(runner), JStr(script)])),
     ("auto_start", JBool(true)),
     ("last_status", JStr("running")),
     ("env", env)]
  }

  /** A skill runs as `uv run <runner> <script>` when the interpreter path
      found for uv contains "uv", as `<python> <runner> <script>` otherwise;
      it is marked to start automatically and as running. */
  lemma SkillInfoFields(uvPath: string, python: string, runner: string, script: string, env: Json)
    ensures var r := SkillInfo(uvPath, python, runner, script, env);
            && Lookup(r, "command") == Some(JStr(if Contains(uvPath, "uv") then uvPath else python))
            && Lookup(r, "args") == Some(if Contains(uvPath, "uv")
                                         then JArr([JStr("run"), JStr(runner), JStr(script)])
                                         else JArr([JStr(runner), JStr(script)]))
            && Lookup(r, "auto_start") == Some(JBool(true))
            && Lookup(r, "last_status") == Some(JStr("running"))
            && Lookup(r, "env") == Some(env)
  {
    var r := SkillInfo(uvPath, python, runner, script, env);
    var r1 := r[1..];
    var r2 := r1[1..];
    var r3 := r2[1..];
    var r4 := r3[1..];
    assert r4 == [("env", env)];
    assert Lookup(r4, "env") == Some(env);
    assert Lookup(r3, "last_status") == Some(JStr("running"));
    assert Lookup(r2, "auto_start") == Some(JBool(true));
    assert r3[0].0 != "env" && r2[0].0 != "env" && r1[0].0 != "env" && r[0].0 != "env";
    assert Lookup(r3, "env") == Lookup(r4, "env");
    assert Lookup(r2, "env") == Lookup(r3, "env");
    assert Lookup(r1, "env") == Lookup(r2, "env");
    assert r2[0].0 != "last_status" && r1[0].0 != "last_status" && r[0].0 != "last_status";
    assert Lookup(r2, "last_status") == Lookup(r3, "last_status");
    assert Lookup(r1, "last_status") == Lookup(r2, "last_status");
    assert r1[0].0 != "auto_start" && r[0].0 != "auto_start";
    assert r[0].0 != "args";
  }

  /** The document after `stop_server(name)`: the record, if any, says stopped. */
  function StoppedDisk(disk: Option<Config>, name: string): Option<Config> {
    var servers := ConfigOf(disk).servers;
    match Lookup(servers, name)
    case None => disk
    case Some(rec) => Some(Config(Put(servers, name, Put(rec, "last_status", JStr("stopped")))))
  }

  /** The document after stopping several names one after the other. */
  function StoppedDiskAll(disk: Option<Config>, names: seq<string>): Option<Config>
    decreases |names|
  {
    if names == [] then disk else StoppedDiskAll(StoppedDisk(disk, names[0]), names[1..])
  }

  /** `stop_server` never creates a record, marks an existing one stopped and
      leaves every other record as it was. */
  lemma StoppedDiskRecords(disk: Option<Config>, name: string, other: string)
    ensures Lookup(ConfigOf(StoppedDisk(disk, name)).servers, name).Some? <==>
            Lookup(ConfigOf(disk).servers, name).Some?
    ensures Lookup(ConfigOf(disk).servers, name).Some? ==>
            Lookup(Lookup(ConfigOf(StoppedDisk(disk, name)).servers, name).value, "last_status") == Some(JStr("stopped"))
    ensures other != name ==>
            Lookup(ConfigOf(StoppedDisk(disk, name)).servers, other) == Lookup(ConfigOf(disk).servers, other)
  {
    var servers := ConfigOf(disk).servers;
    match Lookup(servers, name)
    case None =>
    case Some(rec) =>
      LookupPut(servers, name, Put(rec, "last_status", JStr("stopped")), name);
      LookupPut(servers, name, Put(rec, "last_status", JStr("stopped")), other);
      LookupPut(rec, "last_status", JStr("stopped"), "last_status");
  }

  /** After stopping a list of names, each of them that has a record says
      stopped, and the records of names not in the list are unchanged. */
  lemma {:induction false} StoppedDiskAllRecords(disk: Option<Config>, names: seq<string>, n: string)
    ensures Lookup(ConfigOf(StoppedDiskAll(disk, names)).servers, n).Some? <==>
            Lookup(ConfigOf(disk).servers, n).Some?
    ensures n in names && Lookup(ConfigOf(disk).servers, n).Some? ==>
            Lookup(Lookup(ConfigOf(StoppedDiskAll(disk, names)).servers, n).value, "last_status") == Some(JStr("stopped"))
    ensures n !in names ==>
            Lookup(ConfigOf(StoppedDiskAll(disk, names)).servers, n) == Lookup(ConfigOf(disk).servers, n)
    decreases |names|
  {
    if names != [] {
      var d1 := StoppedDisk(disk, names[0]);
      StoppedDiskRecords(disk, names[0], n);
      StoppedDiskAllRecords(d1, names[1..], n);
      if n == names[0] && n !in names[1..] {
      } else if n == names[0] {
        StoppedDiskRecords(d1, n, n);
      }
    }
  }

  /** The configured names whose record says running, in file order. */
  function ActiveNames(servers: Dict<string, Spec>): (names: seq<string>)
    ensures forall n :: n in names ==> HasKey(servers, n)
  {
    if servers == [] then []
    else if Lookup(servers[0].1, "last_status") == Some(JStr("running"))
    then [servers[0].0] + ActiveNames(servers[1..])
    else ActiveNames(servers[1..])
  }

  /** A name is active exactly when some record under it says running. */
  lemma {:induction false} ActiveNamesExact(servers: Dict<string, Spec>, n: string)
    ensures n in ActiveNames(servers) <==>
            exists i :: 0 <= i < |servers| && servers[i].0 == n
                        && Lookup(servers[i].1, "last_status") == Some(JStr("running"))
  {
    if servers != [] {
      ActiveNamesExact(servers[1..], n);
      if n in ActiveNames(servers[1..]) {
        var i :| 0 <= i < |servers[1..]| && servers[1..][i].0 == n
                 && Lookup(servers[1..][i].1, "last_status") == Some(JStr("running"));
        assert servers[i + 1] == servers[1..][i];
      }
      if exists i :: 0 <= i < |servers| && servers[i].0 == n
                     && Lookup(servers[i].1, "last_status") == Some(JStr("running")) {
        var i :| 0 <= i < |servers| && servers[i].0 == n
                 && Lookup(servers[i].1, "last_status") == Some(JStr("running"));
        if i > 0 {
          assert servers[1..][i - 1] == servers[i];
        }
      }
    }
  }

  /** The supervisor (a single instance serves the whole process). */
  class McpProcessManager {
    /** `processes`: server name to its running child. */
    var processes: map<string, McpProcess>
    /** The names of `processes` in insertion order (the dictionary's order). */
    var order: seq<string>
    /** The configuration file; `None` when it cannot be read or parsed. */
    var disk: Option<Config>
    const uvPath: string
    const python: string
    const runnerPath: string

    /** Every registered child is a started and running process of its own
        name, so no two names share one. */
    ghost predicate Valid()
      reads this, processes.Values
    {
      Distinct(order)
      && (forall n :: n in processes <==> n in order)
      && (forall n :: n in processes ==> processes[n].isRunning && processes[n].hasHandle)
      && (forall n :: n in processes ==> processes[n].name == n)
    }

    /** `__init__`: `uv` if one is found on the search path, the running
        interpreter otherwise; a missing configuration file is created empty. */
    constructor(whichUv: Option<string>, python: string, runnerPath: string, fileExists: bool, stored: Option<Config>)
      ensures Valid() && processes == map[] && order == []
      ensures uvPath == if whichUv.Some? && whichUv.value != [] then whichUv.value else python
      ensures this.python == python && this.runnerPath == runnerPath
      ensures disk == if fileExists then stored else Some(Config([]))
    {
      processes := map[];
      order := [];
      uvPath := if whichUv.Some? && whichUv.value != [] then whichUv.value else python;
      this.python := python;
      this.runnerPath := runnerPath;
      disk := if fileExists then stored else Some(Config([]));
    }

    /** `load_config` */
    function LoadConfig(): (c: Config)
      reads this
      ensures disk.None? ==> c == Config([])
    {
      ConfigOf(disk)
    }

    /** `name in self.processes and self.processes[name].is_running` */
    predicate Serving(name: string)
      reads this, processes.Values
    {
      name in processes && processes[name].isRunning
    }

    /** `get_last_active_servers` */
    method GetLastActiveServers() returns (active: seq<string>)
      ensures active == ActiveNames(LoadConfig().servers)
    {
      var servers := LoadConfig().servers;
      active := [];
      var i := 0;
      while i < |servers|
        invariant 0 <= i <= |servers|
        invariant active + ActiveNames(servers[i..]) == ActiveNames(servers)
      {
        assert servers[i..][1..] == servers[i + 1..];
        if Lookup(servers[i].1, "last_status") == Some(JStr("running")) {
          active := active + [servers[i].0];
        }
        i := i + 1;
      }
    }

    /** What `start_server` leaves in the table for `name`, given whether it
        was serving and the table before: nothing changes when it was serving
        or the settings do not start a child; otherwise a new running child
        with exactly those settings, its command line `[command] + args` and
        the system environment updated by the record's, is registered last. */
    ghost predicate Launched(name: string, launch: Spec, system: Env, spawned: bool,
                             wasServing: bool, before: map<string, McpProcess>, beforeOrder: seq<string>)
      reads this, processes.Values
    {
      if wasServing || !Launches(launch, spawned) then
        processes == before && order == beforeOrder
      else
        name !in before && name in processes
        && processes == before[name := processes[name]] && order == beforeOrder + [name]
        && var p := processes[name];
           && p.isRunning && p.hasHandle
           && p.command == LaunchCommand(launch) && p.args == LaunchArgs(launch)
           && p.cwd == LaunchCwd(launch) && p.env == LaunchEnv(launch)
           && p.argv == Argv(LaunchCommand(launch), LaunchArgs(launch)).value
           && p.environment == MergeEnv(system, EnvOf(LaunchEnv(launch)).value)
    }

    /** `start_server(name, info)`: records the start in the configuration
        first, then registers a new child unless one is already running under
        that name, the record has no command, or the child cannot be started. */
    method StartServer(name: string, info: Spec, system: Env, spawned: bool)
      requires Valid()
      modifies this
      ensures Valid()
      ensures disk == Some(Config(Put(old(LoadConfig()).servers, name,
                         StartedRecord(Lookup(old(LoadConfig()).servers, name).GetOr(info), info))))
      ensures Launched(name, LaunchRecord(old(LoadConfig()).servers, name, info), system, spawned,
                       old(Serving(name)), old(processes), old(order))
      ensures !old(Serving(name)) && Launches(LaunchRecord(old(LoadConfig()).servers, name, info), spawned) ==>
                fresh(processes[name])
    {
      var servers := LoadConfig().servers;
      var base := Lookup(servers, name).GetOr(info);
      var launch := LaunchRecord(servers, name, info);
      disk := Some(Config(Put(servers, name, StartedRecord(base, info))));
      Launch(name, launch, system, spawned);
    }

    /** The second half of `start_server`: unless the server is already
        running, a child with the launch settings, registered when it runs. */
    method Launch(name: string, launch: Spec, system: Env, spawned: bool)
      requires Valid()
      modifies this`processes, this`order
      ensures Valid()
      ensures Launched(name, launch, system, spawned, old(Serving(name)), old(processes), old(order))
      ensures !old(Serving(name)) && Launches(launch, spawned) ==> fresh(processes[name])
    {
      if Serving(name) {
        return;
      }
      var command := LaunchCommand(launch);
      if !Truthy(command) {
        return;
      }
      var p := new McpProcess(name, command, LaunchArgs(launch), LaunchCwd(launch), LaunchEnv(launch));
      var ok := p.Start(system, spawned);
      if ok {
        processes := processes[name := p];
        order := order + [name];
      }
    }

    /** `start_skill(name, script, env)`: `start_server` with the skill's record. */
    method StartSkill(name: string, script: string, env: Json, system: Env, spawned: bool)
      requires Valid()
      modifies this
      ensures Valid()
      ensures var info := SkillInfo(uvPath, python, runnerPath, script, env);
              disk == Some(Config(Put(old(LoadConfig()).servers, name,
                       StartedRecord(Lookup(old(LoadConfig()).servers, name).GetOr(info), info))))
      ensures var info := SkillInfo(uvPath, python, runnerPath, script, env);
              Launched(name, LaunchRecord(old(LoadConfig()).servers, name, info), system, spawned,
                       old(Serving(name)), old(processes), old(order))
      ensures var info := SkillInfo(uvPath, python, runnerPath, script, env);
              !old(Serving(name)) && Launches(LaunchRecord(old(LoadConfig()).servers, name, info), spawned) ==>
                fresh(processes[name])
    {
      var info := SkillInfo(uvPath, python, runnerPath, script, env);
      StartServer(name, info, system, spawned);
    }

    function Named(name: string): set<McpProcess>
      reads this
    {
      if name in processes then {processes[name]} else {}
    }

    /** `stop_server(name)`: marks an existing record stopped, stops and
        unregisters the child; other children are untouched. */
    method StopServer(name: string)
      requires Valid()
      modifies this, Named(name)
      ensures Valid()
      ensures disk == StoppedDisk(old(disk), name)
      ensures processes == old(processes) - {name} && order == Without(old(order), name)
      ensures name in old(processes) ==> !old(processes)[name].isRunning
      ensures forall p :: p in old(processes.Values) ==> p in processes.Values || !p.isRunning
    {
      var servers := LoadConfig().servers;
      var rec := Lookup(servers, name);
      if rec.Some? {
        disk := Some(Config(Put(servers, name, Put(rec.value, "last_status", JStr("stopped")))));
      }
      if name in processes {
        processes[name].Stop();
      }
      WithoutDistinct(order, name);
      processes := processes - {name};
      order := Without(order, name);
    }

    /** One round of `shutdown`'s loop: stops the first registered child;
        every child of `children` that is no longer registered stays stopped. */
    method StopFirst(ghost children: set<McpProcess>)
      requires Valid() && order != []
      requires processes.Values <= children
      requires forall p :: p in children ==> p in processes.Values || !p.isRunning
      modifies this, processes.Values
      ensures Valid() && order == old(order)[1..] && processes.Values <= children
      ensures disk == StoppedDisk(old(disk), old(order)[0])
      ensures forall p :: p in children ==> p in processes.Values || !p.isRunning
    {
      WithoutHead(order);
      StopServer(order[0]);
    }

    /** `shutdown`: stops every registered child. */
    method Shutdown()
      requires Valid()
      modifies this, processes.Values
      ensures Valid() && processes == map[] && order == []
      ensures disk == StoppedDiskAll(old(disk), old(order))
      ensures forall p :: p in old(processes.Values) ==> !p.isRunning
    {
      ghost var children := processes.Values;
      var names := order;
      var i := 0;
      while i < |names|
        invariant 0 <= i <= |names|
        invariant Valid() && processes.Values <= children
        invariant order == names[i..]
        invariant disk == StoppedDiskAll(old(disk), names[..i])
        invariant forall p :: p in children ==> p in processes.Values || !p.isRunning
        decreases |names| - i
      {
        assert names[..i + 1] == names[..i] + [names[i]];
        StoppedDiskAllSnoc(old(disk), names[..i], names[i]);
        assert names[i..][1..] == names[i + 1..];
        StopFirst(children);
        i := i + 1;
      }
      assert names[..|names|] == names;
    }
  }

  lemma {:induction false} StoppedDiskAllSnoc(disk: Option<Config>, names: seq<string>, last: string)
    ensures StoppedDiskAll(disk, names + [last]) == StoppedDisk(StoppedDiskAll(disk, names), last)
    decreases |names|
  {
    if names == [] {
      assert [] + [last] == [last];
    } else {
      assert (names + [last])[1..] == names[1..] + [last];
      StoppedDiskAllSnoc(StoppedDisk(disk, names[0]), names[1..], last);
    }
  }
}
