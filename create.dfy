/** `spawnm create` (main.py:232-316): the provider command, the registry
    record written once the provider has created the server, and which of
    the follow-up steps (waiting for SSH, syncing the working directory,
    opening a session) run. */
module Create {
  import opened Common
  import opened Text
  import opened CommandLine
  import opened Registry
  import opened Provider
  import opened Remote

  // ---------------------------------------------------------------------
  // The provider command

  /** The settings `hcloud server create` should receive: name, server type,
      image, location, JSON output, and the SSH key only when one is given. */
  function CreateFlags(name: string, size: string, image: string, location: string, sshKey: Option<string>)
    : map<string, string>
  {
    FixedFlags(name, size, image, location) + (if Truthy(sshKey) then map["--ssh-key" := sshKey.value] else map[])
  }

  function FixedFlags(name: string, size: string, image: string, location: string): map<string, string> {
    map["--name" := name, "--type" := size, "--image" := image, "--location" := location, "--output" := "json"]
  }

  lemma FlagWords()
    ensures IsOption("--name") && IsOption("--type") && IsOption("--image") && IsOption("--location")
    ensures IsOption("--output") && IsOption("--ssh-key")
    ensures "--ssh-key" !in {"--name", "--type", "--image", "--location", "--output"}
  {
    assert |"--ssh-key"| != |"--name"| && |"--ssh-key"| != |"--type"| && |"--ssh-key"| != |"--image"|;
    assert |"--ssh-key"| != |"--location"| && |"--ssh-key"| != |"--output"|;
  }

  /** The five fixed pairs, read one after the other, give the fixed settings. */
  lemma FixedPairs(name: string, size: string, image: string, location: string)
    ensures map["--name" := name] + (map["--type" := size] + (map["--image" := image] +
              (map["--location" := location] + map["--output" := "json"]))) ==
            FixedFlags(name, size, image, location)
  {
  }

  /** The command `create_server` hands to the provider: `--ssh-key` is
      appended only when the key is non-empty (a falsy key means none). */
  method BuildCreateCommand(name: string, size: string, image: string, location: string, sshKey: Option<string>)
    returns (cmd: seq<string>)
    ensures |cmd| >= 3 && cmd[..3] == ["hcloud", "server", "create"]
    ensures ReadFlags(cmd[3..]) == Some(CreateFlags(name, size, image, location, sshKey))
    ensures "--ssh-key" in ReadFlags(cmd[3..]).value <==> Truthy(sshKey)
  {
    FlagWords();
    var tail := ["--name", name, "--type", size, "--image", image, "--location", location, "--output", "json"];
    ReadFivePairs("--name", name, "--type", size, "--image", image, "--location", location, "--output", "json");
    FixedPairs(name, size, image, location);
    var fixed := FixedFlags(name, size, image, location);
    cmd := ["hcloud", "server", "create"] + tail;
    if sshKey.Some? && sshKey.value != "" {
      ReadFlagsPair("--ssh-key", sshKey.value);
      ReadFlagsAppend(tail, ["--ssh-key", sshKey.value]);
      cmd := cmd + ["--ssh-key", sshKey.value];
      assert cmd[3..] == tail + ["--ssh-key", sshKey.value];
    } else {
      assert fixed + map[] == fixed;
      assert cmd[3..] == tail;
    }
  }

  // ---------------------------------------------------------------------
  // The workflow

  /** The parameters of `create_server`. `workdir` is the directory to sync
      (the current directory when `--workdir` is given). */
  datatype CreateRequest = CreateRequest(name: string, size: string, image: string, location: string,
                                         sshKey: Option<string>, doSsh: bool, workdir: Option<string>)

  /** What the environment answers: `expand` is `os.path.expanduser`, `resolve`
      is `Path.resolve`, `sshReady` whether `wait_for_ssh` saw the server
      answer before its timeout, and `rsyncStatus` the exit status of rsync. */
  datatype Environment = Environment(expand: string -> string, resolve: string -> string,
                                     sshReady: bool, rsyncStatus: int)

  /** The SSH wait: skipped, or run with this probe command. */
  datatype Probe = NotProbed | Probed(argv: seq<string>, ready: bool)

  /** The sync: skipped, or run with this command, yielding the remote
      directory on success and None on failure. */
  datatype Sync = NotSynced | Synced(argv: seq<string>, remote: Option<string>)

  /** The exceptions `create_server` lets escape: the provider's output is not
      the JSON object expected, or an SSH step gets a key that is None
      (`os.path.expanduser(None)` raises). */
  datatype Crash = MalformedCreateReply | KeyIsNone

  /** How the run ends: exiting with the provider's status, an exception, the
      process replaced by an SSH session, or returning after printing the
      connect hint, if any. */
  datatype Finish =
    | Failed(status: int, stderr: string)
    | Raised(error: Crash)
    | Session(argv: seq<string>)
    | Detached(hint: Option<string>)

  datatype CreateReport = CreateReport(command: seq<string>, probe: Probe, sync: Sync, finish: Finish)

  /** The record `create_server` stores: the request's settings and what the
      provider reported, absent values included. */
  function Recorded(req: CreateRequest, server: CreatedServer): InstanceInfo
  {
    InstanceInfo(req.name, req.size, req.image, req.location, server.ip, server.rootPassword, req.sshKey)
  }

  /** The hint printed when no session is opened; the key is shown as the
      placeholder `<ssh_key>`. */
  function ConnectHint(ip: Option<string>): string {
    "ssh -i <ssh_key> " + Login(ip)
  }

  /** The provider created the server and its reply could be read. */
  predicate Created(reply: CreateReply) {
    reply.status == 0 && reply.created.Some?
  }

  /** The steps after the record is written, for the server the provider
      reported: which run, with which command, and how the run ends. The
      wait runs only with an address and something to do over SSH, and its
      answer decides nothing; the sync runs whenever a directory is given,
      even without an address; the session runs whenever `--ssh` is given;
      a key that is None makes the first of these steps raise. */
  ghost predicate StepsFor(req: CreateRequest, server: CreatedServer, env: Environment,
                           probe: Probe, sync: Sync, finish: Finish)
  {
    var remote := if sync.Synced? then sync.remote else None;
    // the SSH wait
    && (probe.Probed? <==> Truthy(server.ip) && (req.doSsh || Truthy(req.workdir)) && req.sshKey.Some?)
    && (probe.Probed? ==> probe == Probed(ProbeCommand(req.sshKey, env.expand, server.ip.value).value, env.sshReady))
    // the sync
    && (sync.Synced? <==> Truthy(req.workdir) && req.sshKey.Some?)
    && (sync.Synced? ==>
          && sync.argv == SyncCommandAsWritten(req.sshKey, env.expand, server.ip, env.resolve(req.workdir.value)).value
          && sync.remote == if env.rsyncStatus == 0 then Some(RemoteWorkdir(env.resolve(req.workdir.value))) else None)
    // how the run ends
    && !finish.Failed? && finish != Raised(MalformedCreateReply)
    && (finish == Raised(KeyIsNone) <==> req.sshKey.None? && (req.doSsh || Truthy(req.workdir)))
    && (finish.Session? <==> req.doSsh && req.sshKey.Some?)
    && (finish.Session? ==>
          ReadSsh(finish.argv) ==
          Some(SshCall([env.expand(req.sshKey.value)], ["BatchMode=yes", "StrictHostKeyChecking=no"],
                       remote.Some?, Some(Login(server.ip)), if remote.Some? then [StartIn(remote.value)] else [])))
    && (finish.Detached? <==> !req.doSsh && (req.sshKey.Some? || !Truthy(req.workdir)))
    && (finish.Detached? ==> finish.hint == if Truthy(req.sshKey) then Some(ConnectHint(server.ip)) else None)
  }

  /** `create_server` from the registry write on (main.py:295-316). */
  method FollowUp(req: CreateRequest, server: CreatedServer, env: Environment)
    returns (probe: Probe, sync: Sync, finish: Finish)
    ensures StepsFor(req, server, env, probe, sync, finish)
  {
    probe, sync := NotProbed, NotSynced;
    if Truthy(server.ip) && (req.doSsh || Truthy(req.workdir)) {
      if req.sshKey.None? {
        return probe, sync, Raised(KeyIsNone);
      }
      probe := Probed(ProbeCommand(req.sshKey, env.expand, server.ip.value).value, env.sshReady);
    }

    var remote: Option<string> := None;
    if Truthy(req.workdir) {
      var resolved := env.resolve(req.workdir.value);
      if req.sshKey.None? {
        return probe, sync, Raised(KeyIsNone);
      }
      remote := if env.rsyncStatus == 0 then Some(RemoteWorkdir(resolved)) else None;
      sync := Synced(SyncCommandAsWritten(req.sshKey, env.expand, server.ip, resolved).value, remote);
      RemoteWorkdirTruthy(resolved);
    }

    if req.doSsh {
      if req.sshKey.None? {
        return probe, sync, Raised(KeyIsNone);
      }
      var argv := SessionCommand(req.sshKey, env.expand, server.ip, remote);
      return probe, sync, Session(argv.value);
    }
    var hint := if Truthy(req.sshKey) then Some(ConnectHint(server.ip)) else None;
    finish := Detached(hint);
  }

  /** `create_server`: the provider command, then either the provider's
      failure, an unreadable reply, or the record followed by the steps
      `StepsFor` describes. */
  method CreateServer(registry: InstanceRegistry, req: CreateRequest, reply: CreateReply, env: Environment)
    returns (report: CreateReport)
    modifies registry
    ensures |report.command| >= 3 && report.command[..3] == ["hcloud", "server", "create"]
    ensures ReadFlags(report.command[3..]) == Some(CreateFlags(req.name, req.size, req.image, req.location, req.sshKey))
    ensures reply.status != 0 ==> report.finish == Failed(reply.status, reply.stderr)
    ensures reply.status == 0 && reply.created.None? ==> report.finish == Raised(MalformedCreateReply)
    ensures !Created(reply) ==>
              && registry.instances == old(registry.instances) && registry.writes == old(registry.writes)
              && report.probe == NotProbed && report.sync == NotSynced
    ensures Created(reply) ==>
              && registry.instances == old(registry.instances)[req.name := Recorded(req, reply.created.value)]
              && registry.writes == old(registry.writes) + 1
              && StepsFor(req, reply.created.value, env, report.probe, report.sync, report.finish)
  {
    var cmd := BuildCreateCommand(req.name, req.size, req.image, req.location, req.sshKey);
    if reply.status != 0 {
      return CreateReport(cmd, NotProbed, NotSynced, Failed(reply.status, reply.stderr));
    }
    if reply.created.None? {
      return CreateReport(cmd, NotProbed, NotSynced, Raised(MalformedCreateReply));
    }
    var server := reply.created.value;
    registry.Add(req.name, Recorded(req, server));
    var probe, sync, finish := FollowUp(req, server, env);
    report := CreateReport(cmd, probe, sync, finish);
  }

  /** What rsync reads from the sync command the run hands it, for an absolute
      resolved directory and a key path that does not start with `-`: the
      remote shell is `ssh` alone, and the key path and both settings are
      copied along with the directory. */
  lemma SyncStepReads(req: CreateRequest, server: CreatedServer, env: Environment,
                      probe: Probe, sync: Sync, finish: Finish)
    requires StepsFor(req, server, env, probe, sync, finish) && sync.Synced?
    requires StartsWith(env.resolve(req.workdir.value), "/") && !IsOption(env.expand(req.sshKey.value))
    ensures ReadRsync(sync.argv) ==
            Some(RsyncCall(Some("ssh"), ["-avz", "--progress", "-i", "-o", "-o"],
                           [env.expand(req.sshKey.value), "BatchMode=yes", "StrictHostKeyChecking=no",
                            SyncSource(env.resolve(req.workdir.value)),
                            SyncTarget(server.ip, env.resolve(req.workdir.value))]))
  {
    SyncAsWrittenDropsIdentity(req.sshKey, env.expand, server.ip, env.resolve(req.workdir.value));
  }

  /** A synced directory's remote path is never empty, so the session always
      starts in it. */
  lemma RemoteWorkdirTruthy(workdir: string)
    ensures Truthy(Some(RemoteWorkdir(workdir)))
  {
    assert |RemoteWorkdir(workdir)| >= 6;
  }
}
