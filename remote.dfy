/** The secure-shell and file-sync side of the tool (main.py:141-229): the
    argument lists handed to `ssh` and `rsync`, and where a local directory
    lands on the server. `expand` stands for `os.path.expanduser`, whose
    answer depends on the environment. */
module Remote {
  import opened Common
  import opened Text
  import opened CommandLine

  /** The shell user every command logs in as. */
  function Login(ip: Option<string>): string {
    "root@" + Shown(ip)
  }

  /** The destination and the remote commands are plain arguments, never options. */
  lemma PlainSshWords(ip: Option<string>, dir: string)
    ensures !IsOption(Login(ip)) && Login(ip) !in {"-i", "-o", "-t"}
    ensures !IsOption(StartIn(dir)) && StartIn(dir) !in {"-i", "-o", "-t"}
    ensures !IsOption("true") && "true" !in {"-i", "-o", "-t"}
  {
    assert Login(ip)[0] == 'r';
    assert StartIn(dir)[0] == 'c';
  }

  /** What `ssh` reads from `base_ssh_cmd`: one identity file, batch mode, no
      host-key prompt, and nothing else yet. */
  function BaseSettings(identity: string): SshCall {
    SshCall([identity], ["BatchMode=yes", "StrictHostKeyChecking=no"], false, None, [])
  }

  /** The list `base_ssh_cmd` builds around the expanded key path. */
  function BaseArgv(identity: string): seq<string> {
    ["ssh", "-i", identity, "-o", "BatchMode=yes", "-o", "StrictHostKeyChecking=no"]
  }

  /** `base_ssh_cmd(ssh_key)`. None stands for the TypeError that
      `os.path.expanduser(None)` raises when no key was given. */
  function BaseSshCmd(sshKey: Option<string>, expand: string -> string): (r: Option<seq<string>>)
    ensures r.Some? <==> sshKey.Some?
    ensures r.Some? ==> ReadSsh(r.value) == Some(BaseSettings(expand(sshKey.value)))
  {
    match sshKey
    case None => None
    case Some(key) =>
      var argv := BaseArgv(expand(key));
      BaseSshCmdThen(sshKey, expand, argv, []);
      assert argv + [] == argv;
      Some(argv)
  }

  /** Whatever follows the base command is read with the base settings in force. */
  lemma BaseSshCmdThen(sshKey: Option<string>, expand: string -> string, base: seq<string>, extra: seq<string>)
    requires sshKey.Some?
    requires base == BaseArgv(expand(sshKey.value))
    ensures ReadSsh(base + extra) == ReadSshArgs(extra, BaseSettings(expand(sshKey.value)))
  {
    var identity := expand(sshKey.value);
    var args := (base + extra)[1..];
    assert args == ["-i", identity, "-o", "BatchMode=yes"] + (["-o", "StrictHostKeyChecking=no"] + extra);
    ReadSshPairs("-i", identity, "-o", "BatchMode=yes", ["-o", "StrictHostKeyChecking=no"] + extra, NoSshSettings);
    var acc := Add(Add(NoSshSettings, "-i", identity), "-o", "BatchMode=yes");
    var rest := ["-o", "StrictHostKeyChecking=no"] + extra;
    assert rest[2..] == extra;
    assert ReadSshArgs(rest, acc) == ReadSshArgs(extra, Add(acc, "-o", "StrictHostKeyChecking=no"));
    assert Add(acc, "-o", "StrictHostKeyChecking=no") == BaseSettings(identity);
    assert (base + extra)[0] == "ssh";
  }

  /** One reachability probe of `wait_for_ssh`: connect within five seconds
      and run `true`. */
  function ProbeCommand(sshKey: Option<string>, expand: string -> string, ip: string): (r: Option<seq<string>>)
    ensures r.Some? <==> sshKey.Some?
    ensures r.Some? ==>
              ReadSsh(r.value) ==
              Some(SshCall([expand(sshKey.value)], ["BatchMode=yes", "StrictHostKeyChecking=no", "ConnectTimeout=5"],
                           false, Some(Login(Some(ip))), ["true"]))
  {
    match BaseSshCmd(sshKey, expand)
    case None => None
    case Some(base) =>
      var extra := ["-o", "ConnectTimeout=5", Login(Some(ip)), "true"];
      BaseSshCmdThen(sshKey, expand, base, extra);
      PlainSshWords(Some(ip), "");
      OptionWords();
      var acc := BaseSettings(expand(sshKey.value));
      var acc' := acc.(options := acc.options + ["ConnectTimeout=5"]);
      assert extra[2..] == [Login(Some(ip)), "true"] && extra[2..][1..] == ["true"];
      assert ReadSshArgs(["true"], acc'.(destination := Some(Login(Some(ip))))) ==
             Some(acc'.(destination := Some(Login(Some(ip))), command := ["true"]));
      assert ReadSshArgs(extra[2..], acc') == ReadSshArgs(["true"], acc'.(destination := Some(Login(Some(ip)))));
      assert ReadSshArgs(extra, acc) == ReadSshArgs(extra[2..], acc');
      assert acc'.options == ["BatchMode=yes", "StrictHostKeyChecking=no", "ConnectTimeout=5"];
      Some(base + extra)
  }

  /** `ssh_into_server`: the session command, starting in `workdir` when one
      was synced, otherwise a plain login shell. */
  method SessionCommand(sshKey: Option<string>, expand: string -> string, ip: Option<string>, workdir: Option<string>)
    returns (argv: Option<seq<string>>)
    ensures argv.Some? <==> sshKey.Some?
    ensures argv.Some? ==>
              ReadSsh(argv.value) ==
              Some(SshCall([expand(sshKey.value)], ["BatchMode=yes", "StrictHostKeyChecking=no"], Truthy(workdir),
                           Some(Login(ip)), if Truthy(workdir) then [StartIn(workdir.value)] else []))
  {
    var base := BaseSshCmd(sshKey, expand);
    if base.None? {
      return None;
    }
    var cmd := base.value + [Login(ip)];
    ghost var extra := [Login(ip)];
    OptionWords();
    ghost var acc := BaseSettings(expand(sshKey.value)).(destination := Some(Login(ip)));
    PlainSshWords(ip, if Truthy(workdir) then workdir.value else "");
    if Truthy(workdir) {
      cmd := cmd + ["-t", StartIn(workdir.value)];
      extra := extra + ["-t", StartIn(workdir.value)];
      assert extra[1..] == ["-t", StartIn(workdir.value)] && extra[1..][1..] == [StartIn(workdir.value)];
      assert ReadSshArgs(extra[1..][1..], acc.(tty := true)) == Some(acc.(tty := true, command := [StartIn(workdir.value)]));
      assert ReadSshArgs(extra[1..], acc) == ReadSshArgs(extra[1..][1..], acc.(tty := true));
    } else {
      assert extra[1..] == [];
    }
    assert ReadSshArgs(extra, BaseSettings(expand(sshKey.value))) == ReadSshArgs(extra[1..], acc);
    assert cmd == base.value + extra;
    BaseSshCmdThen(sshKey, expand, base.value, extra);
    argv := Some(cmd);
  }

  /** The remote command that opens a login shell inside `dir`. */
  function StartIn(dir: string): string {
    "cd " + dir + " && exec $SHELL -l"
  }

  /** `/root/<name>`, where a synced directory lands (main.py:192-193). */
  function RemoteWorkdir(workdir: string): (r: string)
    ensures StartsWith(r, "/root/") && '/' !in r[6..]
    ensures |r[6..]| <= |workdir| && r[6..] == workdir[|workdir| - |r[6..]|..]
    ensures |r[6..]| < |workdir| ==> workdir[|workdir| - |r[6..]| - 1] == '/'
  {
    var name := LastComponent(workdir);
    assert ("/root/" + name)[6..] == name;
    "/root/" + name
  }

  /** Two directories land in the same place exactly when their last path
      components agree: a second directory of the same name overwrites. */
  lemma SameRemoteWorkdir(a: string, b: string)
    ensures RemoteWorkdir(a) == RemoteWorkdir(b) <==> LastComponent(a) == LastComponent(b)
  {
    assert RemoteWorkdir(a)[6..] == LastComponent(a);
    assert RemoteWorkdir(b)[6..] == LastComponent(b);
  }

  /** `<workdir>/` and `root@<ip>:/root/<name>/`: the two operands of the sync. */
  function SyncSource(workdir: string): string {
    workdir + "/"
  }

  function SyncTarget(ip: Option<string>, workdir: string): string {
    Login(ip) + ":" + RemoteWorkdir(workdir) + "/"
  }

  /** The rsync argument list as `sync_workdir` writes it: the list from
      `base_ssh_cmd` is spread after `-e` instead of being passed as one
      argument. */
  function SyncCommandAsWritten(sshKey: Option<string>, expand: string -> string, ip: Option<string>, workdir: string)
    : (r: Option<seq<string>>)
    ensures r.Some? <==> sshKey.Some?
  {
    match sshKey
    case None => None
    case Some(key) =>
      Some(["rsync", "-avz", "--progress", "-e"] + BaseArgv(expand(key)) + [SyncSource(workdir), SyncTarget(ip, workdir)])
  }

  /** As written, rsync takes only `ssh` as its remote shell; the identity file
      and both `-o` settings become extra source operands (and `-i`, `-o`
      rsync's own itemize and owner flags). */
  lemma SyncAsWrittenDropsIdentity(sshKey: Option<string>, expand: string -> string, ip: Option<string>, workdir: string)
    requires sshKey.Some? && !IsOption(expand(sshKey.value))
    requires StartsWith(workdir, "/")
    ensures ReadRsync(SyncCommandAsWritten(sshKey, expand, ip, workdir).value) ==
            Some(RsyncCall(Some("ssh"), ["-avz", "--progress", "-i", "-o", "-o"],
                           [expand(sshKey.value), "BatchMode=yes", "StrictHostKeyChecking=no",
                            SyncSource(workdir), SyncTarget(ip, workdir)]))
  {
    var identity := expand(sshKey.value);
    var src, dst := SyncSource(workdir), SyncTarget(ip, workdir);
    WrittenArgv(sshKey, expand, ip, workdir);
    PlainOperands(ip, workdir);
    WrittenReading(identity, src, dst);
  }

  /** The written command, spelled out. */
  lemma WrittenArgv(sshKey: Option<string>, expand: string -> string, ip: Option<string>, workdir: string)
    requires sshKey.Some?
    ensures SyncCommandAsWritten(sshKey, expand, ip, workdir).value ==
            ["rsync", "-avz", "--progress", "-e", "ssh", "-i", expand(sshKey.value), "-o", "BatchMode=yes",
             "-o", "StrictHostKeyChecking=no", SyncSource(workdir), SyncTarget(ip, workdir)]
  {
    ArgvShape(expand(sshKey.value), SyncSource(workdir), SyncTarget(ip, workdir));
  }

  lemma ArgvShape(identity: string, src: string, dst: string)
    ensures ["rsync", "-avz", "--progress", "-e"] + BaseArgv(identity) + [src, dst] ==
            ["rsync", "-avz", "--progress", "-e", "ssh", "-i", identity, "-o", "BatchMode=yes",
             "-o", "StrictHostKeyChecking=no", src, dst]
  {
  }

  /** rsync's reading of the written command, for any identity and operands
      that are not options. */
  lemma WrittenReading(identity: string, src: string, dst: string)
    requires !IsOption(identity) && !IsOption(src) && !IsOption(dst)
    ensures ReadRsync(["rsync", "-avz", "--progress", "-e", "ssh", "-i", identity, "-o", "BatchMode=yes",
                       "-o", "StrictHostKeyChecking=no", src, dst]) ==
            Some(RsyncCall(Some("ssh"), ["-avz", "--progress", "-i", "-o", "-o"],
                           [identity, "BatchMode=yes", "StrictHostKeyChecking=no", src, dst]))
  {
    var tail := ["-i", identity, "-o", "BatchMode=yes", "-o", "StrictHostKeyChecking=no", src, dst];
    OptionWords();
    assert "BatchMode=yes"[0] == 'B' && "StrictHostKeyChecking=no"[0] == 'S';
    WrittenTail("-i", "-o", identity, "BatchMode=yes", "StrictHostKeyChecking=no", src, dst);
    var ops := [identity, "BatchMode=yes", "StrictHostKeyChecking=no", src, dst];
    SyncHead("ssh", tail, ["-i", "-o", "-o"], ops);
    assert ["rsync", "-avz", "--progress", "-e", "ssh", "-i", identity, "-o", "BatchMode=yes",
            "-o", "StrictHostKeyChecking=no", src, dst] == ["rsync"] + (["-avz", "--progress", "-e", "ssh"] + tail);
    assert ["-avz", "--progress"] + ["-i", "-o", "-o"] == ["-avz", "--progress", "-i", "-o", "-o"];
  }

  /** rsync's reading of what follows `-e ssh` in the written command, with
      the option words and the plain words left abstract. */
  lemma WrittenTail(i: string, o: string, identity: string, batch: string, strict: string, src: string, dst: string)
    requires IsOption(i) && i != "-e" && IsOption(o) && o != "-e"
    requires !IsOption(identity) && !IsOption(batch) && !IsOption(strict) && !IsOption(src) && !IsOption(dst)
    ensures ReadRsyncArgs([i, identity, o, batch, o, strict, src, dst]) ==
            Some(RsyncCall(None, [i, o, o], [identity, batch, strict, src, dst]))
  {
    var ops := [src, dst];
    PlainRun(ops);
    OptionStep(o, strict, ops, [], ops);
    OptionStep(o, batch, [o, strict] + ops, [o] + [], [strict] + ops);
    OptionStep(i, identity, [o, batch] + ([o, strict] + ops), [o] + ([o] + []), [batch] + ([strict] + ops));
    TailShape(i, o, identity, batch, strict, src, dst);
  }

  lemma TailShape(i: string, o: string, identity: string, batch: string, strict: string, src: string, dst: string)
    ensures [i, identity] + ([o, batch] + ([o, strict] + [src, dst])) == [i, identity, o, batch, o, strict, src, dst]
    ensures [i] + ([o] + ([o] + [])) == [i, o, o]
    ensures [identity] + ([batch] + ([strict] + [src, dst])) == [identity, batch, strict, src, dst]
  {
  }

  /** A flag that takes no value followed by a plain word. */
  lemma OptionStep(flag: string, word: string, rest: seq<string>, flags: seq<string>, ops: seq<string>)
    requires IsOption(flag) && flag != "-e" && !IsOption(word)
    requires ReadRsyncArgs(rest) == Some(RsyncCall(None, flags, ops))
    ensures ReadRsyncArgs([flag, word] + rest) == Some(RsyncCall(None, [flag] + flags, [word] + ops))
  {
    RsyncOperandStep(word, rest);
    RsyncFlagStep(flag, [word] + rest);
    assert [flag] + ([word] + rest) == [flag, word] + rest;
  }

  /** A run of plain arguments is read as operands only. */
  lemma {:induction false} PlainRun(ops: seq<string>)
    requires forall k | 0 <= k < |ops| :: !IsOption(ops[k])
    ensures ReadRsyncArgs(ops) == Some(RsyncCall(None, [], ops))
    decreases |ops|
  {
    if |ops| > 0 {
      PlainRun(ops[1..]);
      RsyncOperandStep(ops[0], ops[1..]);
      assert ops == [ops[0]] + ops[1..];
    }
  }

  /** `rsync -avz --progress -e <shell>` in front of a tail read without a shell. */
  lemma SyncHead(shell: string, tail: seq<string>, flags: seq<string>, ops: seq<string>)
    requires ReadRsyncArgs(tail) == Some(RsyncCall(None, flags, ops))
    ensures ReadRsync(["rsync"] + (["-avz", "--progress", "-e", shell] + tail)) ==
            Some(RsyncCall(Some(shell), ["-avz", "--progress"] + flags, ops))
  {
    OptionWords();
    RsyncShellStep(shell, tail);
    var withShell := ["-e", shell] + tail;
    RsyncFlagStep("--progress", withShell);
    var p1 := ["--progress"] + withShell;
    RsyncFlagStep("-avz", p1);
    var p0 := ["-avz"] + p1;
    assert ["-avz"] + (["--progress"] + flags) == ["-avz", "--progress"] + flags;
    var argv := ["rsync"] + (["-avz", "--progress", "-e", shell] + tail);
    assert argv[1..] == p0;
  }

  /** Neither sync operand can be mistaken for an option. */
  lemma PlainOperands(ip: Option<string>, workdir: string)
    requires StartsWith(workdir, "/")
    ensures !IsOption(SyncSource(workdir))
    ensures !IsOption(SyncTarget(ip, workdir))
  {
    assert SyncSource(workdir)[0] == '/';
    assert SyncTarget(ip, workdir)[0] == 'r';
  }

  /** The sync command as evidently intended: the ssh command joined into the
      single argument `-e` expects. rsync then uses the identity file and both
      settings, and copies only the working directory. */
  function SyncCommand(sshKey: Option<string>, expand: string -> string, ip: Option<string>, workdir: string)
    : (r: Option<seq<string>>)
    ensures r.Some? <==> sshKey.Some?
    ensures r.Some? && StartsWith(workdir, "/") ==>
              ReadRsync(r.value) ==
              Some(RsyncCall(Some(Join(BaseSshCmd(sshKey, expand).value)), ["-avz", "--progress"],
                             [SyncSource(workdir), SyncTarget(ip, workdir)]))
    ensures r.Some? && ' ' !in expand(sshKey.value) ==>
              ReadSsh(Split(Join(BaseSshCmd(sshKey, expand).value))) == Some(BaseSettings(expand(sshKey.value)))
  {
    match BaseSshCmd(sshKey, expand)
    case None => None
    case Some(base) =>
      AbsoluteReading(Join(base), ip, workdir);
      SplitBase(sshKey, expand);
      Some(["rsync", "-avz", "--progress", "-e", Join(base), SyncSource(workdir), SyncTarget(ip, workdir)])
  }

  /** For an absolute directory, rsync reads the corrected command as `shell`,
      its two flags and the two operands. */
  lemma AbsoluteReading(shell: string, ip: Option<string>, workdir: string)
    ensures StartsWith(workdir, "/") ==>
              ReadRsync(["rsync", "-avz", "--progress", "-e", shell, SyncSource(workdir), SyncTarget(ip, workdir)]) ==
              Some(RsyncCall(Some(shell), ["-avz", "--progress"], [SyncSource(workdir), SyncTarget(ip, workdir)]))
  {
    if StartsWith(workdir, "/") {
      PlainOperands(ip, workdir);
      CorrectedReading(shell, SyncSource(workdir), SyncTarget(ip, workdir));
    }
  }

  /** rsync reads the corrected command as one remote shell, its two flags
      and the two operands. */
  lemma CorrectedReading(shell: string, src: string, dst: string)
    requires !IsOption(src) && !IsOption(dst)
    ensures ReadRsync(["rsync", "-avz", "--progress", "-e", shell, src, dst]) ==
            Some(RsyncCall(Some(shell), ["-avz", "--progress"], [src, dst]))
  {
    var ops := [src, dst];
    PlainRun(ops);
    SyncHead(shell, ops, [], ops);
    assert ["rsync", "-avz", "--progress", "-e", shell, src, dst] == ["rsync"] + (["-avz", "--progress", "-e", shell] + ops);
    assert ["-avz", "--progress"] + [] == ["-avz", "--progress"];
  }

  /** Splitting the joined ssh command at spaces gives the command back when
      the identity path has no space. */
  lemma SplitBase(sshKey: Option<string>, expand: string -> string)
    requires sshKey.Some?
    ensures ' ' !in expand(sshKey.value) ==> Split(Join(BaseSshCmd(sshKey, expand).value)) == BaseSshCmd(sshKey, expand).value
  {
    var base := BaseSshCmd(sshKey, expand).value;
    if ' ' !in expand(sshKey.value) {
      assert forall k | 0 <= k < |base| :: ' ' !in base[k];
      SplitJoin(base);
    }
  }
}
