/** How the external programs read the argument lists the tool hands them.
    These readers are the reference against which the argument lists built
    by the tool are checked: a reader recovers the settings, and lemmas beside
    each builder show that the settings it recovers are the ones meant. */
module CommandLine {
  import opened Common

  /** An argument the receiving program takes as an option rather than as data. */
  predicate IsOption(arg: string) {
    |arg| > 1 && arg[0] == '-'
  }

  /** The option words used here are options and are told apart. */
  lemma OptionWords()
    ensures IsOption("-e") && IsOption("-i") && IsOption("-o") && IsOption("-t")
    ensures IsOption("-avz") && IsOption("--progress")
    ensures "-i" != "-o" && "-i" != "-t" && "-o" != "-t"
    ensures "-e" != "-i" && "-e" != "-o" && "-e" != "-avz" && "-e" != "--progress" && "-e" != "ssh"
  {
    assert "-i"[1] != "-o"[1] && "-i"[1] != "-t"[1] && "-o"[1] != "-t"[1];
    assert "-e"[1] != "-i"[1] && "-e"[1] != "-o"[1] && |"-e"| != |"-avz"| && |"-e"| != |"--progress"|;
    assert "-e"[0] != "ssh"[0];
  }

  // ---------------------------------------------------------------------
  // hcloud: `--flag value` pairs, a later occurrence overriding an earlier one

  /** The flag settings of an hcloud argument tail made of `--flag value`
      pairs; None when an argument that should be a flag is not one or a
      flag has no value. */
  function ReadFlags(args: seq<string>): Option<map<string, string>>
    decreases |args|
  {
    if |args| == 0 then Some(map[])
    else if |args| == 1 || !IsOption(args[0]) then None
    else
      match ReadFlags(args[2..])
      case None => None
      case Some(rest) => Some(map[args[0] := args[1]] + rest)
  }

  lemma {:induction false} ReadFlagsAppend(a: seq<string>, b: seq<string>)
    requires |a| % 2 == 0
    requires ReadFlags(a).Some? && ReadFlags(b).Some?
    ensures ReadFlags(a + b) == Some(ReadFlags(a).value + ReadFlags(b).value)
    decreases |a|
  {
    if |a| == 0 {
      assert a + b == b;
      assert map[] + ReadFlags(b).value == ReadFlags(b).value;
    } else {
      var ab := a + b;
      assert ab[0] == a[0] && ab[1] == a[1] && |ab| >= 2;
      assert ab[2..] == a[2..] + b;
      ReadFlagsAppend(a[2..], b);
      var head := map[a[0] := a[1]];
      var ra, rb := ReadFlags(a[2..]).value, ReadFlags(b).value;
      assert ReadFlags(a).value == head + ra;
      assert ReadFlags(ab) == Some(head + (ra + rb));
      MapUnionAssociative(head, ra, rb);
    }
  }

  lemma MapUnionAssociative(x: map<string, string>, y: map<string, string>, z: map<string, string>)
    ensures x + (y + z) == (x + y) + z
  {
  }

  lemma ReadFlagsPair(flag: string, value: string)
    requires IsOption(flag)
    ensures ReadFlags([flag, value]) == Some(map[flag := value])
  {
    assert [flag, value][2..] == [];
    assert map[flag := value] + map[] == map[flag := value];
  }

  /** Reading one more `--flag value` pair in front of a tail. */
  lemma ReadFlagsCons(flag: string, value: string, rest: seq<string>)
    requires IsOption(flag) && ReadFlags(rest).Some?
    ensures ReadFlags([flag, value] + rest) == Some(map[flag := value] + ReadFlags(rest).value)
  {
    var args := [flag, value] + rest;
    assert args[0] == flag && args[1] == value && args[2..] == rest;
  }

  /** Five pairs in a row, the flags left abstract. */
  lemma ReadFivePairs(f1: string, v1: string, f2: string, v2: string, f3: string, v3: string,
                      f4: string, v4: string, f5: string, v5: string)
    requires IsOption(f1) && IsOption(f2) && IsOption(f3) && IsOption(f4) && IsOption(f5)
    ensures ReadFlags([f1, v1, f2, v2, f3, v3, f4, v4, f5, v5]) ==
            Some(map[f1 := v1] + (map[f2 := v2] + (map[f3 := v3] + (map[f4 := v4] + map[f5 := v5]))))
  {
    ReadFlagsPair(f5, v5);
    ReadFlagsCons(f4, v4, [f5, v5]);
    ReadFlagsCons(f3, v3, [f4, v4] + [f5, v5]);
    ReadFlagsCons(f2, v2, [f3, v3] + ([f4, v4] + [f5, v5]));
    ReadFlagsCons(f1, v1, [f2, v2] + ([f3, v3] + ([f4, v4] + [f5, v5])));
    assert [f1, v1] + ([f2, v2] + ([f3, v3] + ([f4, v4] + [f5, v5]))) == [f1, v1, f2, v2, f3, v3, f4, v4, f5, v5];
  }

  // ---------------------------------------------------------------------
  // OpenSSH: options, then the destination, then options again, then the
  // remote command

  /** What `ssh` makes of its arguments: identity files (`-i`), `-o`
      settings, whether `-t` forces a terminal, the destination and the
      remote command (empty: a login shell). */
  datatype SshCall = SshCall(identities: seq<string>, options: seq<string>, tty: bool,
                             destination: Option<string>, command: seq<string>)

  const NoSshSettings := SshCall([], [], false, None, [])

  /** Reads an `ssh` argument vector; None when it does not start with `ssh`,
      an option lacks its value, or an option is one this model does not know. */
  function ReadSsh(argv: seq<string>): Option<SshCall> {
    if |argv| == 0 || argv[0] != "ssh" then None
    else ReadSshArgs(argv[1..], NoSshSettings)
  }

  /** OpenSSH parses options before the destination and, once, after it;
      the first plain argument after the destination starts the command. */
  function ReadSshArgs(args: seq<string>, acc: SshCall): Option<SshCall>
    decreases |args|
  {
    if |args| == 0 then Some(acc)
    else if args[0] == "-i" || args[0] == "-o" then
      if |args| == 1 then None
      else if args[0] == "-i" then ReadSshArgs(args[2..], acc.(identities := acc.identities + [args[1]]))
      else ReadSshArgs(args[2..], acc.(options := acc.options + [args[1]]))
    else if args[0] == "-t" then ReadSshArgs(args[1..], acc.(tty := true))
    else if IsOption(args[0]) then None
    else if acc.destination.None? then ReadSshArgs(args[1..], acc.(destination := Some(args[0])))
    else Some(acc.(command := args))
  }

  /** Reading two option-value pairs in a row. */
  lemma ReadSshPairs(o1: string, v1: string, o2: string, v2: string, rest: seq<string>, acc: SshCall)
    requires o1 in {"-i", "-o"} && o2 in {"-i", "-o"}
    ensures ReadSshArgs([o1, v1, o2, v2] + rest, acc) == ReadSshArgs(rest, Add(Add(acc, o1, v1), o2, v2))
  {
    var args := [o1, v1, o2, v2] + rest;
    assert args[2..] == [o2, v2] + rest;
    assert args[2..][2..] == rest;
  }

  /** The settings after one `-i`/`-o` pair. */
  function Add(acc: SshCall, opt: string, value: string): SshCall {
    if opt == "-i" then acc.(identities := acc.identities + [value])
    else acc.(options := acc.options + [value])
  }

  // ---------------------------------------------------------------------
  // rsync: `-e` takes the next argument as the remote shell; the other
  // options used here take none; plain arguments are sources, then the
  // destination

  /** What `rsync` makes of its arguments: the remote shell given with `-e`,
      the other options, and the plain arguments (sources and destination). */
  datatype RsyncCall = RsyncCall(shell: Option<string>, flags: seq<string>, operands: seq<string>)

  function ReadRsync(argv: seq<string>): Option<RsyncCall> {
    if |argv| == 0 || argv[0] != "rsync" then None
    else ReadRsyncArgs(argv[1..])
  }

  function ReadRsyncArgs(args: seq<string>): Option<RsyncCall>
    decreases |args|
  {
    if |args| == 0 then Some(RsyncCall(None, [], []))
    else if args[0] == "-e" then
      if |args| == 1 then None
      else
        match ReadRsyncArgs(args[2..])
        case None => None
        case Some(rest) => Some(rest.(shell := if rest.shell.Some? then rest.shell else Some(args[1])))
    else
      match ReadRsyncArgs(args[1..])
      case None => None
      case Some(rest) =>
        if IsOption(args[0]) then Some(rest.(flags := [args[0]] + rest.flags))
        else Some(rest.(operands := [args[0]] + rest.operands))
  }

  lemma RsyncOperandStep(a: string, rest: seq<string>)
    requires !IsOption(a) && ReadRsyncArgs(rest).Some?
    ensures ReadRsyncArgs([a] + rest) ==
            Some(ReadRsyncArgs(rest).value.(operands := [a] + ReadRsyncArgs(rest).value.operands))
  {
    OptionWords();
    assert a != "-e";
    assert ([a] + rest)[1..] == rest;
  }

  lemma RsyncFlagStep(a: string, rest: seq<string>)
    requires IsOption(a) && a != "-e" && ReadRsyncArgs(rest).Some?
    ensures ReadRsyncArgs([a] + rest) ==
            Some(ReadRsyncArgs(rest).value.(flags := [a] + ReadRsyncArgs(rest).value.flags))
  {
    assert ([a] + rest)[1..] == rest;
  }

  lemma RsyncShellStep(shell: string, rest: seq<string>)
    requires ReadRsyncArgs(rest).Some? && ReadRsyncArgs(rest).value.shell.None?
    ensures ReadRsyncArgs(["-e", shell] + rest) == Some(ReadRsyncArgs(rest).value.(shell := Some(shell)))
  {
    assert (["-e", shell] + rest)[2..] == rest;
  }
}
