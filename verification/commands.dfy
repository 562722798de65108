/**
 * The `Command` method of every MenuCommandGruntInteract* class, as a function
 * from one input line to the staging operations it issues against the Task menu
 * or the GruntTasking it posts. Answers the console or the server would give
 * (a random tasking name, a confirmation, a file's content, a looked-up Grunt)
 * are parameters.
 */
module Commands {
  import opened Wrappers
  import opened Text
  import opened Staging

  // ---- shared shapes ----

  /** One `Set` per field, each taking the value at the same position. */
  function SetEach(fields: seq<Field>, values: seq<string>): (ops: seq<StagingOp>)
    requires |fields| <= |values|
    ensures |ops| == |fields|
    ensures forall i :: 0 <= i < |fields| ==> ops[i] == Set(fields[i], values[i])
  {
    if |fields| == 0 then [] else [Set(fields[0], values[0])] + SetEach(fields[1..], values[1..])
  }

  /**
   * `r` is what a command with fixed positional parameters does: it is rejected unless
   * the name and the token count fit; otherwise the i-th argument is staged into the
   * i-th field, in declared order, and the line is started.
   */
  predicate StagesFields(r: Outcome, inp: Input, name: string, arity: Arity, task: string, fields: seq<Field>) {
    && (r != Reject <==> Admits(inp.tokens, name, arity))
    && (r != Reject ==>
      && r.Staged? && r.task == task && Committed(r.ops, inp.line)
      && |r.ops| == |fields| + 1 && |fields| < |inp.tokens|
      && forall i :: 0 <= i < |fields| ==> r.ops[i] == Set(fields[i], inp.tokens[i + 1]))
  }

  /** A command with one positional token per field and no other argument. */
  function Positional(inp: Input, name: string, task: string, fields: seq<Field>): (r: Outcome)
    ensures StagesFields(r, inp, name, Exactly(|fields| + 1), task, fields)
  {
    var t := inp.tokens;
    if !Admits(t, name, Exactly(|fields| + 1)) then Reject
    else Staged(task, SetEach(fields, t[1..]) + [Start(inp.line)])
  }

  /** A command whose arguments, rejoined with single spaces, are one free-text field. */
  function FreeText(t: seq<string>, line: string, name: string, task: string, field: Field): Outcome {
    if !Admits(t, name, AtLeast(2)) then Reject
    else Staged(task, [Set(field, JoinSpace(t[1..])), Start(line)])
  }

  /**
   * The free text a command stages splits back, at single spaces, into the argument
   * words it was joined from, as long as no argument holds a space.
   */
  lemma FreeTextKeepsArguments(t: seq<string>, line: string, name: string, task: string, field: Field)
    requires NoSpaces(t)
    requires FreeText(t, line, name, task, field) != Reject
    ensures FreeText(t, line, name, task, field).ops[0] == Set(field, JoinSpace(t[1..]))
    ensures SplitSpace(FreeText(t, line, name, task, field).ops[0].value) == t[1..]
  {
    assert NoSpaces(t[1..]) by {
      forall i | 0 <= i < |t| - 1 ensures NoSpace(t[1..][i]) {
        assert t[1..][i] == t[i + 1];
      }
    }
    SplitOfJoin(t[1..]);
  }

  /** A Mimikatz shortcut: any arguments after the name are ignored and a fixed command is staged. */
  function MimikatzPreset(inp: Input, name: string, command: string): Outcome {
    if !Admits(inp.tokens, name, AtLeast(1)) then Reject
    else Staged("Mimikatz", [Set(Command, command), Start(inp.line)])
  }

  /** GetDomainUser, GetDomainGroup and GetDomainComputer: one optional Identities argument. */
  function DomainQuery(inp: Input, name: string): (r: Outcome)
    requires |inp.tokens| > 0
    ensures r != Reject <==> Admits(inp.tokens, name, Between(1, 2))
    ensures r != Reject ==> (r.Staged? && r.task == name && Committed(r.ops, inp.line) && |r.ops| == 2
      && r.ops[0] == (if |inp.tokens| == 2 then Set(Identities, inp.tokens[1]) else Unset(Identities)))
  {
    var t := inp.tokens;
    if |t| > 2 || !EqualsIgnoreCase(t[0], name) then Reject
    else if |t| == 2 then Staged(name, [Set(Identities, t[1]), Start(inp.line)])
    else Staged(name, [Unset(Identities), Start(inp.line)])
  }

  // ---- direct taskings ----

  /** Kill: exactly one token, then the operator must answer with something starting with "y". */
  function KillGrunt(inp: Input, gruntId: int, taskingName: string, answer: string): (r: Outcome)
    ensures r == Reject <==> !Admits(inp.tokens, "Kill", Exactly(1))
    ensures r == Declined <==> Admits(inp.tokens, "Kill", Exactly(1)) && !StartsWithIgnoreCase(answer, "y")
    ensures r.Post? ==> (Fresh(r.tasking, gruntId, inp.line) && r.tasking.kind == TaskingType.Kill
      && r.tasking.taskId == 1 && r.tasking.name == Some(taskingName) && r.tasking.message.None?)
  {
    if !Admits(inp.tokens, "Kill", Exactly(1)) then Reject
    else if !StartsWithIgnoreCase(answer, "y") then Declined
    else Post(Descriptor(0, gruntId, 1, Some(taskingName), Uninitialized, TaskingType.Kill, None, inp.line, false))
  }

  /** The Grunt variable a `Set` option names, compared ignoring case. */
  function SetOptionKind(option: string): (k: Option<TaskingType>)
    ensures k.Some? ==> k.value in {SetDelay, SetJitter, SetConnectAttempts}
  {
    if EqualsIgnoreCase(option, "delay") then Some(SetDelay)
    else if EqualsIgnoreCase(option, "jitterpercent") then Some(SetJitter)
    else if EqualsIgnoreCase(option, "connectattempts") then Some(SetConnectAttempts)
    else None
  }

  /**
   * Set <option> <value>, as the code is written: an option other than Delay,
   * JitterPercent and ConnectAttempts leaves the tasking null, and it is posted anyway.
   */
  function SetAsWritten(inp: Input, gruntId: int): (r: Outcome)
    ensures r == Reject <==> !Admits(inp.tokens, "Set", Exactly(3)) || ParseInt(inp.tokens[2]).None?
    ensures r == PostNull <==> r != Reject && SetOptionKind(inp.tokens[1]).None?
    ensures r.Post? ==> r == GruntSet(inp, gruntId)
  {
    var t := inp.tokens;
    if !Admits(t, "Set", Exactly(3)) then Reject
    else match ParseInt(t[2])
      case None => Reject
      case Some(n) =>
        match SetOptionKind(t[1])
        case None => PostNull
        case Some(kind) => Post(Descriptor(0, gruntId, 1, None, Uninitialized, kind, Some(IntToString(n)), inp.line, false))
  }

  /** The unknown option in `Set` makes the command post a null tasking. */
  lemma SetUnknownOptionPostsNull()
    ensures SetAsWritten(Input("Set foo 5", ["Set", "foo", "5"]), 1) == PostNull
  {
    assert ParseInt("5") == Some(5) by {
      assert DigitsValue("5") == DigitsValue("5"[..0]) * 10 + 5;
    }
    assert !EqualsIgnoreCase("foo", "delay");
    assert !EqualsIgnoreCase("foo", "jitterpercent");
    assert !EqualsIgnoreCase("foo", "connectattempts");
  }

  /**
   * Set <option> <value> with an unknown option rejected like a non-numeric value:
   * every accepted line posts a real SetDelay, SetJitter or SetConnectAttempts tasking
   * whose message is the number, printed back in canonical form.
   */
  function GruntSet(inp: Input, gruntId: int): (r: Outcome)
    ensures r != Reject <==> (Admits(inp.tokens, "Set", Exactly(3))
      && ParseInt(inp.tokens[2]).Some? && SetOptionKind(inp.tokens[1]).Some?)
    ensures r != Reject ==> (r.Post? && Fresh(r.tasking, gruntId, inp.line)
      && r.tasking.kind == SetOptionKind(inp.tokens[1]).value
      && r.tasking.taskId == 1 && r.tasking.name.None?
      && r.tasking.message.Some? && ParseInt(r.tasking.message.value) == ParseInt(inp.tokens[2]))
    ensures r != Reject ==> (r.Post? && r.tasking.message == Some(IntToString(ParseInt(inp.tokens[2]).value))
      && Canonical(r.tasking.message.value))
  {
    var t := inp.tokens;
    if !Admits(t, "Set", Exactly(3)) then Reject
    else match ParseInt(t[2])
      case None => Reject
      case Some(n) =>
        match SetOptionKind(t[1])
        case None => Reject
        case Some(kind) =>
          ParseOfIntToString(n);
          IntToStringCanonical(n);
          Post(Descriptor(0, gruntId, 1, None, Uninitialized, kind, Some(IntToString(n)), inp.line, false))
  }

  /**
   * SharpShell <code...>: the line is split at single spaces; the code is uploaded
   * as a new GruntTask (whose id the server returns) and an Assembly tasking of it is posted.
   */
  function SharpShell(inp: Input, gruntId: int, taskingName: string, createdTaskId: int): (r: Outcome)
    ensures r != Reject <==> Admits(SplitSpace(inp.line), "SharpShell", AtLeast(2))
    ensures r != Reject ==> (r.Post? && Fresh(r.tasking, gruntId, inp.line)
      && r.tasking.kind == TaskingType.Assembly && r.tasking.taskId == createdTaskId
      && r.tasking.name == Some(taskingName) && r.tasking.message.None?)
  {
    if !Admits(SplitSpace(inp.line), "SharpShell", AtLeast(2)) then Reject
    else Post(Descriptor(0, gruntId, createdTaskId, Some(taskingName), Uninitialized, TaskingType.Assembly, None, inp.line, false))
  }

  /** Connect <computername> [<pipename>]: the pipe name defaults to "gruntsvc". */
  function ConnectGrunt(inp: Input, gruntId: int, taskingName: string): (r: Outcome)
    ensures var t := SplitSpace(inp.line);
      && (r != Reject <==> Admits(t, "Connect", Between(2, 3)))
      && (r != Reject ==> (r.Post? && Fresh(r.tasking, gruntId, inp.line)
          && r.tasking.kind == TaskingType.Connect && r.tasking.taskId == 1 && r.tasking.name == Some(taskingName)
          && r.tasking.message == Some(t[1] + "," + (if |t| == 3 then t[2] else "gruntsvc"))))
  {
    var t := SplitSpace(inp.line);
    if !Admits(t, "Connect", Between(2, 3)) then Reject
    else
      var pipeName := if |t| == 3 then t[2] else "gruntsvc";
      Post(Descriptor(0, gruntId, 1, Some(taskingName), Uninitialized, TaskingType.Connect, Some(t[1] + "," + pipeName), inp.line, false))
  }

  /**
   * Disconnect <childgruntname>: `namedGuid` is the Guid of the Grunt the server finds
   * under that name (None when there is none); it must be one of this Grunt's children.
   */
  function DisconnectGrunt(inp: Input, gruntId: int, children: seq<string>, namedGuid: Option<string>, taskingName: string): (r: Outcome)
    ensures r != Reject <==> (Admits(SplitSpace(inp.line), "Disconnect", Exactly(2))
      && namedGuid.Some? && ContainsIgnoreCase(children, namedGuid.value))
    ensures r != Reject ==> (r.Post? && Fresh(r.tasking, gruntId, inp.line)
      && r.tasking.kind == TaskingType.Disconnect && r.tasking.taskId == 1 && r.tasking.name == Some(taskingName)
      && r.tasking.message == namedGuid)
  {
    if !Admits(SplitSpace(inp.line), "Disconnect", Exactly(2)) then Reject
    else match namedGuid
      case None => Reject
      case Some(guid) =>
        if !ContainsIgnoreCase(children, guid) then Reject
        else Post(Descriptor(0, gruntId, 1, Some(taskingName), Uninitialized, TaskingType.Disconnect, Some(guid), inp.line, false))
  }

  /** Jobs: exactly the one word. */
  function ListJobs(inp: Input, gruntId: int, taskingName: string): (r: Outcome)
    ensures r != Reject <==> Admits(SplitSpace(inp.line), "Jobs", Exactly(1))
    ensures r != Reject ==> (r.Post? && Fresh(r.tasking, gruntId, inp.line)
      && r.tasking.kind == TaskingType.Jobs && r.tasking.taskId == 1 && r.tasking.name == Some(taskingName)
      && r.tasking.message == Some("Jobs"))
  {
    if !Admits(SplitSpace(inp.line), "Jobs", Exactly(1)) then Reject
    else Post(Descriptor(0, gruntId, 1, Some(taskingName), Uninitialized, TaskingType.Jobs, Some("Jobs"), inp.line, false))
  }

  // ---- commands with no argument or fixed positional arguments ----

  function WhoAmI(inp: Input): (r: Outcome)
    ensures StagesFields(r, inp, "whoami", Exactly(1), "whoami", [])
  {
    Positional(inp, "whoami", "whoami", [])
  }

  function ProcessList(inp: Input): (r: Outcome)
    ensures StagesFields(r, inp, "ps", Exactly(1), "ProcessList", [])
  {
    Positional(inp, "ps", "ProcessList", [])
  }

  function SafetyKatz(inp: Input): (r: Outcome)
    ensures StagesFields(r, inp, "SafetyKatz", Exactly(1), "SafetyKatz", [])
  {
    Positional(inp, "SafetyKatz", "SafetyKatz", [])
  }

  function GetSystem(inp: Input): (r: Outcome)
    ensures StagesFields(r, inp, "GetSystem", Exactly(1), "GetSystem", [])
  {
    Positional(inp, "GetSystem", "GetSystem", [])
  }

  function RevertToSelf(inp: Input): (r: Outcome)
    ensures StagesFields(r, inp, "RevertToSelf", Exactly(1), "RevertToSelf", [])
  {
    Positional(inp, "RevertToSelf", "RevertToSelf", [])
  }

  function GetRegistryKey(inp: Input): (r: Outcome)
    ensures StagesFields(r, inp, "GetRegistryKey", Exactly(2), "GetRegistryKey", [RegPath])
  {
    Positional(inp, "GetRegistryKey", "GetRegistryKey", [RegPath])
  }

  function SetRegistryKey(inp: Input): (r: Outcome)
    ensures StagesFields(r, inp, "SetRegistryKey", Exactly(3), "SetRegistryKey", [RegPath, Value])
  {
    Positional(inp, "SetRegistryKey", "SetRegistryKey", [RegPath, Value])
  }

  function GetRemoteRegistryKey(inp: Input): (r: Outcome)
    ensures StagesFields(r, inp, "GetRemoteRegistryKey", Exactly(3), "GetRemoteRegistryKey", [Hostname, RegPath])
  {
    Positional(inp, "GetRemoteRegistryKey", "GetRemoteRegistryKey", [Hostname, RegPath])
  }

  function SetRemoteRegistryKey(inp: Input): (r: Outcome)
    ensures StagesFields(r, inp, "SetRemoteRegistryKey", Exactly(4), "SetRemoteRegistryKey", [Hostname, RegPath, Value])
  {
    Positional(inp, "SetRemoteRegistryKey", "SetRemoteRegistryKey", [Hostname, RegPath, Value])
  }

  function Upload(inp: Input): (r: Outcome)
    ensures StagesFields(r, inp, "Upload", Exactly(2), "Upload", [LocalFilePath])
  {
    Positional(inp, "Upload", "Upload", [LocalFilePath])
  }

  function Download(inp: Input): (r: Outcome)
    ensures StagesFields(r, inp, "Download", Exactly(2), "Download", [FileName])
  {
    Positional(inp, "Download", "Download", [FileName])
  }

  function SharpDump(inp: Input): (r: Outcome)
    ensures StagesFields(r, inp, "SharpDump", Exactly(2), "SharpDump", [Command])
  {
    Positional(inp, "SharpDump", "SharpDump", [Command])
  }

  function GetNetLocalGroup(inp: Input): (r: Outcome)
    ensures StagesFields(r, inp, "GetNetLocalGroup", Exactly(2), "GetNetLocalGroup", [ComputerNames])
  {
    Positional(inp, "GetNetLocalGroup", "GetNetLocalGroup", [ComputerNames])
  }

  function GetNetLocalGroupMember(inp: Input): (r: Outcome)
    ensures StagesFields(r, inp, "GetNetLocalGroupMember", Exactly(3), "GetNetLocalGroupMember", [ComputerNames, LocalGroup])
  {
    Positional(inp, "GetNetLocalGroupMember", "GetNetLocalGroupMember", [ComputerNames, LocalGroup])
  }

  function GetNetLoggedOnUser(inp: Input): (r: Outcome)
    ensures StagesFields(r, inp, "GetNetLoggedOnUser", Exactly(2), "GetNetLoggedOnUser", [ComputerNames])
  {
    Positional(inp, "GetNetLoggedOnUser", "GetNetLoggedOnUser", [ComputerNames])
  }

  function GetNetSession(inp: Input): (r: Outcome)
    ensures StagesFields(r, inp, "GetNetSession", Exactly(2), "GetNetSession", [ComputerNames])
  {
    Positional(inp, "GetNetSession", "GetNetSession", [ComputerNames])
  }

  function ImpersonateUser(inp: Input): (r: Outcome)
    ensures StagesFields(r, inp, "ImpersonateUser", Exactly(2), "ImpersonateUser", [Username])
  {
    Positional(inp, "ImpersonateUser", "ImpersonateUser", [Username])
  }

  function ImpersonateProcess(inp: Input): (r: Outcome)
    ensures StagesFields(r, inp, "ImpersonateProcess", Exactly(2), "ImpersonateProcess", [ProcessID])
  {
    Positional(inp, "ImpersonateProcess", "ImpersonateProcess", [ProcessID])
  }

  // ---- free-text tails ----

  function ChangeDirectory(inp: Input): (r: Outcome)
    ensures r != Reject <==> Admits(inp.tokens, "cd", AtLeast(2))
    ensures r != Reject ==> (r.Staged? && r.task == "ChangeDirectory" && Committed(r.ops, inp.line) && |r.ops| == 2
      && r.ops[0] == Set(Directory, JoinSpace(inp.tokens[1..])))
  {
    FreeText(inp.tokens, inp.line, "cd", "ChangeDirectory", Directory)
  }

  function Mimikatz(inp: Input): (r: Outcome)
    ensures r != Reject <==> Admits(inp.tokens, "Mimikatz", AtLeast(2))
    ensures r != Reject ==> (r.Staged? && r.task == "Mimikatz" && Committed(r.ops, inp.line) && |r.ops| == 2
      && r.ops[0] == Set(Command, JoinSpace(inp.tokens[1..])))
  {
    FreeText(inp.tokens, inp.line, "Mimikatz", "Mimikatz", Command)
  }

  function Rubeus(inp: Input): (r: Outcome)
    ensures r != Reject <==> Admits(inp.tokens, "Rubeus", AtLeast(2))
    ensures r != Reject ==> (r.Staged? && r.task == "Rubeus" && Committed(r.ops, inp.line) && |r.ops| == 2
      && r.ops[0] == Set(Command, JoinSpace(inp.tokens[1..])))
  {
    FreeText(inp.tokens, inp.line, "Rubeus", "Rubeus", Command)
  }

  function SharpDPAPI(inp: Input): (r: Outcome)
    ensures r != Reject <==> Admits(inp.tokens, "SharpDPAPI", AtLeast(2))
    ensures r != Reject ==> (r.Staged? && r.task == "SharpDPAPI" && Committed(r.ops, inp.line) && |r.ops| == 2
      && r.ops[0] == Set(Command, JoinSpace(inp.tokens[1..])))
  {
    FreeText(inp.tokens, inp.line, "SharpDPAPI", "SharpDPAPI", Command)
  }

  function SharpUp(inp: Input): (r: Outcome)
    ensures r != Reject <==> Admits(inp.tokens, "SharpUp", AtLeast(2))
    ensures r != Reject ==> (r.Staged? && r.task == "SharpUp" && Committed(r.ops, inp.line) && |r.ops| == 2
      && r.ops[0] == Set(Command, JoinSpace(inp.tokens[1..])))
  {
    FreeText(inp.tokens, inp.line, "SharpUp", "SharpUp", Command)
  }

  function SharpWMI(inp: Input): (r: Outcome)
    ensures r != Reject <==> Admits(inp.tokens, "SharpWMI", AtLeast(2))
    ensures r != Reject ==> (r.Staged? && r.task == "SharpWMI" && Committed(r.ops, inp.line) && |r.ops| == 2
      && r.ops[0] == Set(Command, JoinSpace(inp.tokens[1..])))
  {
    FreeText(inp.tokens, inp.line, "SharpWMI", "SharpWMI", Command)
  }

  function Seatbelt(inp: Input): (r: Outcome)
    ensures r != Reject <==> Admits(inp.tokens, "Seatbelt", AtLeast(2))
    ensures r != Reject ==> (r.Staged? && r.task == "Seatbelt" && Committed(r.ops, inp.line) && |r.ops| == 2
      && r.ops[0] == Set(Command, JoinSpace(inp.tokens[1..])))
  {
    FreeText(inp.tokens, inp.line, "Seatbelt", "Seatbelt", Command)
  }

  function BypassUACCommand(inp: Input): (r: Outcome)
    ensures r != Reject <==> Admits(inp.tokens, "BypassUACCommand", AtLeast(2))
    ensures r != Reject ==> (r.Staged? && r.task == "BypassUACCommand" && Committed(r.ops, inp.line) && |r.ops| == 2
      && r.ops[0] == Set(Command, JoinSpace(inp.tokens[1..])))
  {
    FreeText(inp.tokens, inp.line, "BypassUACCommand", "BypassUACCommand", Command)
  }

  /**
   * Shell <command...>: the raw line is split at single spaces, so the staged
   * ShellCommand is exactly the text after the first space of the line.
   */
  function Shell(inp: Input): (r: Outcome)
    ensures r != Reject <==> Admits(SplitSpace(inp.line), "Shell", AtLeast(2))
    ensures r != Reject ==> (r.Staged? && r.task == "Shell" && |r.ops| == 2 && r.ops[1] == Start(inp.line)
      && r.ops[0].Set? && r.ops[0].field == ShellCommand
      && inp.line == SplitSpace(inp.line)[0] + " " + r.ops[0].value)
  {
    var t := SplitSpace(inp.line);
    if !Admits(t, "Shell", AtLeast(2)) then Reject
    else
      HeadSpaceTail(inp.line);
      FreeText(t, inp.line, "Shell", "Shell", ShellCommand)
  }

  /** ShellCmd <command...>: as Shell, run through "cmd.exe /c" by the agent. */
  function ShellCmd(inp: Input): (r: Outcome)
    ensures r != Reject <==> Admits(SplitSpace(inp.line), "ShellCmd", AtLeast(2))
    ensures r != Reject ==> (r.Staged? && r.task == "ShellCmd" && |r.ops| == 2 && r.ops[1] == Start(inp.line)
      && r.ops[0].Set? && r.ops[0].field == ShellCommand
      && inp.line == SplitSpace(inp.line)[0] + " " + r.ops[0].value)
  {
    var t := SplitSpace(inp.line);
    if !Admits(t, "ShellCmd", AtLeast(2)) then Reject
    else
      HeadSpaceTail(inp.line);
      FreeText(t, inp.line, "ShellCmd", "ShellCmd", ShellCommand)
  }

  /**
   * PowerShell <code...>: the staged code is the previously imported script, trimmed,
   * a CR LF, and the text after the first space of the raw line.
   */
  function PowerShell(inp: Input, imported: string): (r: Outcome)
    ensures r != Reject <==> Admits(SplitSpace(inp.line), "PowerShell", AtLeast(2))
    ensures r != Reject ==> (r.Staged? && r.task == "PowerShell" && |r.ops| == 2 && r.ops[1] == Start(inp.line)
      && r.ops[0].Set? && r.ops[0].field == PowerShellCommand)
  {
    var t := SplitSpace(inp.line);
    if !Admits(t, "PowerShell", AtLeast(2)) then Reject
    else Staged("PowerShell", [Set(PowerShellCommand, Trim(imported) + "\r\n" + JoinSpace(t[1..])), Start(inp.line)])
  }

  /** The code PowerShell stages is the imported script, trimmed, a CR LF, and everything after the first space of the line. */
  lemma PowerShellCode(inp: Input, imported: string)
    requires PowerShell(inp, imported) != Reject
    ensures exists code :: (PowerShell(inp, imported).ops[0].value == Trim(imported) + "\r\n" + code
      && inp.line == SplitSpace(inp.line)[0] + " " + code)
  {
    HeadSpaceTail(inp.line);
  }

  /**
   * PowerShellImport <file>: `file` is the content of the named file in the data
   * folder, or None when it does not exist. The content is staged as PowerShell code.
   */
  function PowerShellImport(inp: Input, file: Option<string>): (r: Outcome)
    ensures r != Reject <==> Admits(inp.tokens, "PowerShellImport", AtLeast(2)) && file.Some?
    ensures r != Reject ==> r == Staged("PowerShell", [Set(PowerShellCommand, file.value), Start(inp.line)])
  {
    if !Admits(inp.tokens, "PowerShellImport", AtLeast(2)) then Reject
    else match file
      case None => Reject
      case Some(content) => Staged("PowerShell", [Set(PowerShellCommand, content), Start(inp.line)])
  }

  // ---- optional arguments ----

  /** ls [<path...>]: a path, if given, is the rejoined rest of the line. */
  function ListDirectory(inp: Input): (r: Outcome)
    ensures r != Reject <==> Admits(inp.tokens, "ls", AtLeast(1))
    ensures r != Reject ==> (r.Staged? && r.task == "ListDirectory" && Committed(r.ops, inp.line)
      && (|inp.tokens| == 1 ==> |r.ops| == 1)
      && (|inp.tokens| > 1 ==> |r.ops| == 2 && r.ops[0] == Set(Path, JoinSpace(inp.tokens[1..]))))
  {
    var t := inp.tokens;
    if !Admits(t, "ls", AtLeast(1)) then Reject
    else if |t| > 1 then Staged("ListDirectory", [Set(Path, JoinSpace(t[1..])), Start(inp.line)])
    else Staged("ListDirectory", [Start(inp.line)])
  }

  /** Assembly <file> [<parameters...>]: parameters, if given, are the rejoined rest of the line. */
  function ExecuteAssembly(inp: Input): (r: Outcome)
    ensures r != Reject <==> Admits(inp.tokens, "Assembly", AtLeast(2))
    ensures r != Reject ==> (r.Staged? && r.task == "Assembly" && Committed(r.ops, inp.line)
      && r.ops[0] == Set(LocalFilePath, inp.tokens[1])
      && (|inp.tokens| == 2 ==> |r.ops| == 2)
      && (|inp.tokens| > 2 ==> |r.ops| == 3 && r.ops[1] == Set(Parameters, JoinSpace(inp.tokens[2..]))))
  {
    var t := inp.tokens;
    if !Admits(t, "Assembly", AtLeast(2)) then Reject
    else
      var params := if |t| > 2 then [Set(Parameters, JoinSpace(t[2..]))] else [];
      Staged("Assembly", [Set(LocalFilePath, t[1])] + params + [Start(inp.line)])
  }

  /** The parameters of AssemblyReflect, in declared order. */
  const ReflectFields: seq<Field> := [LocalFilePath, TypeName, MethodName, Parameters]

  /**
   * AssemblyReflect <file> [<type> [<method> [<parameters>]]]: the i-th argument goes
   * to the i-th declared parameter, one Set for each argument given.
   */
  function AssemblyReflect(inp: Input): (r: Outcome)
    ensures r != Reject <==> Admits(inp.tokens, "AssemblyReflect", Between(2, 5))
    ensures r != Reject ==> (r.Staged? && r.task == "AssemblyReflect" && Committed(r.ops, inp.line)
      && |r.ops| == |inp.tokens|
      && forall i :: 0 <= i < |inp.tokens| - 1 ==> r.ops[i] == Set(ReflectFields[i], inp.tokens[i + 1]))
  {
    var t := inp.tokens;
    if !Admits(t, "AssemblyReflect", AtLeast(2)) then Reject
    else if |t| > 5 then Reject
    else
      var ops := [Set(LocalFilePath, t[1])]
        + (if |t| > 2 then [Set(TypeName, t[2])] else [])
        + (if |t| > 3 then [Set(MethodName, t[3])] else [])
        + (if |t| > 4 then [Set(Parameters, t[4])] else []);
      Staged("AssemblyReflect", ops + [Start(inp.line)])
  }

  predicate IsBoolWord(s: string) {
    EqualsIgnoreCase(s, "true") || EqualsIgnoreCase(s, "false")
  }

  /**
   * PortScan <computernames> <ports> [<ping>]. The Ping word is checked only after
   * ComputerNames and Ports are staged, so a bad Ping leaves them staged and nothing started.
   */
  function PortScan(inp: Input): (r: Outcome)
    ensures r != Reject <==> Admits(inp.tokens, "PortScan", Between(3, 4))
    ensures r != Reject ==> (r.Staged? && r.task == "PortScan" && |r.ops| >= 2
      && r.ops[..2] == [Set(ComputerNames, inp.tokens[1]), Set(Ports, inp.tokens[2])])
    ensures r != Reject ==> (Committed(r.ops, inp.line) <==> |inp.tokens| == 3 || IsBoolWord(inp.tokens[3]))
    ensures r != Reject && |inp.tokens| == 3 ==> |r.ops| == 3
    ensures r != Reject && |inp.tokens| == 4 && IsBoolWord(inp.tokens[3]) ==> |r.ops| == 4 && r.ops[2] == Set(Ping, inp.tokens[3])
    ensures r != Reject && |inp.tokens| == 4 && !IsBoolWord(inp.tokens[3]) ==> |r.ops| == 2 && Uncommitted(r.ops)
  {
    var t := inp.tokens;
    if !Admits(t, "PortScan", Between(3, 4)) then Reject
    else
      var staged := [Set(ComputerNames, t[1]), Set(Ports, t[2])];
      if |t| == 4 then
        if !IsBoolWord(t[3]) then Staged("PortScan", staged)
        else Staged("PortScan", staged + [Set(Ping, t[3]), Start(inp.line)])
      else Staged("PortScan", staged + [Start(inp.line)])
  }

  function LogonPasswords(inp: Input): (r: Outcome)
    ensures r != Reject <==> Admits(inp.tokens, "LogonPasswords", AtLeast(1))
    ensures r != Reject ==> (r.Staged? && r.task == "Mimikatz" && Committed(r.ops, inp.line) && |r.ops| == 2
      && r.ops[0] == Set(Command, "privilege::debug sekurlsa::logonPasswords"))
  {
    MimikatzPreset(inp, "LogonPasswords", "privilege::debug sekurlsa::logonPasswords")
  }

  function SamDump(inp: Input): (r: Outcome)
    ensures r != Reject <==> Admits(inp.tokens, "SamDump", AtLeast(1))
    ensures r != Reject ==> (r.Staged? && r.task == "Mimikatz" && Committed(r.ops, inp.line) && |r.ops| == 2
      && r.ops[0] == Set(Command, "token::elevate lsadump::sam"))
  {
    MimikatzPreset(inp, "SamDump", "token::elevate lsadump::sam")
  }

  function LsaSecrets(inp: Input): (r: Outcome)
    ensures r != Reject <==> Admits(inp.tokens, "LsaSecrets", AtLeast(1))
    ensures r != Reject ==> (r.Staged? && r.task == "Mimikatz" && Committed(r.ops, inp.line) && |r.ops| == 2
      && r.ops[0] == Set(Command, "token::elevate lsadump::secrets"))
  {
    MimikatzPreset(inp, "LsaSecrets", "token::elevate lsadump::secrets")
  }

  /** The account selector of DCSync: every account for "all" (ignoring case), otherwise the named user. */
  function DcSyncUser(account: string): string {
    if EqualsIgnoreCase(account, "all") then "/all" else "/user:" + account
  }

  /** The Mimikatz arguments DCSync asks for: the account selector, then the domain and the DC when given. */
  function DcSyncArguments(t: seq<string>): seq<string>
    requires |t| >= 2
  {
    ["lsadump::dcsync", DcSyncUser(t[1])]
      + (if |t| > 2 then ["/domain:" + t[2]] else [])
      + (if |t| > 3 then ["/dc:" + t[3]] else [])
  }

  /** The quoted Mimikatz command DCSync builds piece by piece: its arguments, space-separated, in one pair of quotes. */
  function DcSyncCommand(t: seq<string>): (c: string)
    requires |t| >= 2
    ensures c == "\"" + JoinSpace(DcSyncArguments(t)) + "\""
  {
    var command := "lsadump::dcsync " + DcSyncUser(t[1]);
    var command := if |t| > 2 then command + " /domain:" + t[2] else command;
    var command := if |t| > 3 then command + " /dc:" + t[3] else command;
    DcSyncJoin(t, command);
    "\"" + command + "\""
  }

  lemma DcSyncJoin(t: seq<string>, command: string)
    requires |t| >= 2
    requires |t| == 2 ==> command == "lsadump::dcsync " + DcSyncUser(t[1])
    requires |t| == 3 ==> command == "lsadump::dcsync " + DcSyncUser(t[1]) + " /domain:" + t[2]
    requires |t| > 3 ==> command == "lsadump::dcsync " + DcSyncUser(t[1]) + " /domain:" + t[2] + " /dc:" + t[3]
    ensures JoinSpace(DcSyncArguments(t)) == command
  {
    var head := ["lsadump::dcsync", DcSyncUser(t[1])];
    var s0 := "lsadump::dcsync " + DcSyncUser(t[1]);
    assert JoinSpace(head) == s0 by {
      assert JoinSpace(head[1..]) == head[1];
    }
    if |t| == 2 {
      assert DcSyncArguments(t) == head;
    } else {
      var withDomain := head + ["/domain:" + t[2]];
      JoinSnoc(head, "/domain:" + t[2]);
      assert JoinSpace(withDomain) == s0 + " /domain:" + t[2];
      if |t| == 3 {
        assert DcSyncArguments(t) == withDomain;
      } else {
        assert DcSyncArguments(t) == withDomain + ["/dc:" + t[3]];
        JoinSnoc(withDomain, "/dc:" + t[3]);
      }
    }
  }

  /** DCSync <user> [<fqdn>] [<dc>]: a Mimikatz task whose Command is the quoted lsadump::dcsync line. */
  function DCSync(inp: Input): (r: Outcome)
    ensures r != Reject <==> Admits(inp.tokens, "DCSync", Between(2, 4))
    ensures r != Reject ==> (r.Staged? && r.task == "Mimikatz" && Committed(r.ops, inp.line) && |r.ops| == 2
      && r.ops[0] == Set(Command, DcSyncCommand(inp.tokens)))
  {
    var t := inp.tokens;
    if !Admits(t, "DCSync", Between(2, 4)) then Reject
    else Staged("Mimikatz", [Set(Command, DcSyncCommand(t)), Start(inp.line)])
  }

  /** A Kerberoast hash format word: Hashcat or John, ignoring case. */
  predicate IsHashFormat(s: string) {
    EqualsIgnoreCase(s, "hashcat") || EqualsIgnoreCase(s, "john")
  }

  /**
   * Kerberoast [<usernames>] [<hash_format>]: usernames default to "" and the format to
   * "Hashcat"; a single argument that is a format word is the format, any other is the
   * usernames; with two arguments the second must be a format word.
   */
  function Kerberoast(inp: Input): (r: Outcome)
    ensures var t := inp.tokens;
      r != Reject <==> Admits(t, "Kerberoast", Between(1, 3)) && (|t| == 3 ==> IsHashFormat(t[2]))
    ensures r != Reject ==> (r.Staged? && r.task == "Kerberoast" && |r.ops| == 3 && r.ops[2] == Start(inp.line)
      && r.ops[0].Set? && r.ops[0].field == Usernames && r.ops[1].Set? && r.ops[1].field == HashFormat
      && IsHashFormat(r.ops[1].value))
    ensures var t := inp.tokens; r != Reject && |t| == 1 ==> r.ops[0].value == "" && r.ops[1].value == "Hashcat"
    ensures var t := inp.tokens; r != Reject && |t| == 2 && IsHashFormat(t[1]) ==> r.ops[0].value == "" && r.ops[1].value == t[1]
    ensures var t := inp.tokens; r != Reject && |t| == 2 && !IsHashFormat(t[1]) ==> r.ops[0].value == t[1] && r.ops[1].value == "Hashcat"
    ensures var t := inp.tokens; r != Reject && |t| == 3 ==> r.ops[0].value == t[1] && r.ops[1].value == t[2]
  {
    var t := inp.tokens;
    if !Admits(t, "Kerberoast", Between(1, 3)) then Reject
    else if |t| == 3 && !IsHashFormat(t[2]) then Reject
    else
      var usernames := if |t| == 3 || (|t| == 2 && !IsHashFormat(t[1])) then t[1] else "";
      var format := if |t| == 3 then t[2] else if |t| == 2 && IsHashFormat(t[1]) then t[1] else "Hashcat";
      assert IsHashFormat("Hashcat") by { assert EqualsIgnoreCase("Hashcat", "hashcat"); }
      Staged("Kerberoast", [Set(Usernames, usernames), Set(HashFormat, format), Start(inp.line)])
  }

  /** GetDomainUser [<identities>]: the identity filter is set when given and cleared otherwise. */
  function GetDomainUser(inp: Input): (r: Outcome)
    requires |inp.tokens| > 0
    ensures r != Reject <==> Admits(inp.tokens, "GetDomainUser", Between(1, 2))
    ensures r != Reject ==> (r.Staged? && r.task == "GetDomainUser" && Committed(r.ops, inp.line) && |r.ops| == 2
      && r.ops[0] == (if |inp.tokens| == 2 then Set(Identities, inp.tokens[1]) else Unset(Identities)))
  {
    DomainQuery(inp, "GetDomainUser")
  }

  /** GetDomainGroup [<identities>]: the identity filter is set when given and cleared otherwise. */
  function GetDomainGroup(inp: Input): (r: Outcome)
    requires |inp.tokens| > 0
    ensures r != Reject <==> Admits(inp.tokens, "GetDomainGroup", Between(1, 2))
    ensures r != Reject ==> (r.Staged? && r.task == "GetDomainGroup" && Committed(r.ops, inp.line) && |r.ops| == 2
      && r.ops[0] == (if |inp.tokens| == 2 then Set(Identities, inp.tokens[1]) else Unset(Identities)))
  {
    DomainQuery(inp, "GetDomainGroup")
  }

  /** GetDomainComputer [<identities>]: the identity filter is set when given and cleared otherwise. */
  function GetDomainComputer(inp: Input): (r: Outcome)
    requires |inp.tokens| > 0
    ensures r != Reject <==> Admits(inp.tokens, "GetDomainComputer", Between(1, 2))
    ensures r != Reject ==> (r.Staged? && r.task == "GetDomainComputer" && Committed(r.ops, inp.line) && |r.ops| == 2
      && r.ops[0] == (if |inp.tokens| == 2 then Set(Identities, inp.tokens[1]) else Unset(Identities)))
  {
    DomainQuery(inp, "GetDomainComputer")
  }

  /**
   * MakeToken <username> <domain> <password> [<logontype>]: Username, Domain, Password and
   * LogonType are staged in that order; the logon type defaults to LOGON32_LOGON_NEW_CREDENTIALS.
   * The defaults the code keeps for the other three can never be used.
   */
  function MakeToken(inp: Input): (r: Outcome)
    ensures r != Reject <==> Admits(inp.tokens, "MakeToken", Between(4, 5))
    ensures var t := inp.tokens;
      r != Reject ==> (r.Staged? && r.task == "MakeToken" && Committed(r.ops, inp.line) && |r.ops| == 5
        && r.ops[..4] == [Set(Username, t[1]), Set(Domain, t[2]), Set(Password, t[3]),
          Set(LogonType, if |t| == 5 then t[4] else "LOGON32_LOGON_NEW_CREDENTIALS")])
  {
    var t := inp.tokens;
    if !Admits(t, "MakeToken", Between(4, 5)) then Reject
    else
      var username := if |t| > 1 then t[1] else "username";
      var domain := if |t| > 2 then t[2] else "domain";
      var password := if |t| > 3 then t[3] else "password";
      var logonType := if |t| > 4 then t[4] else "LOGON32_LOGON_NEW_CREDENTIALS";
      Staged("MakeToken", [Set(Username, username), Set(Domain, domain), Set(Password, password),
        Set(LogonType, logonType), Start(inp.line)])
  }

  /** The credential ops of WMICommand and WMIGrunt: both set with exactly five tokens, otherwise both unset. */
  function Credentials(t: seq<string>): (ops: seq<StagingOp>)
    requires |t| >= 3
  {
    if |t| == 5 then [Set(Username, t[3]), Set(Password, t[4])] else [Unset(Username), Unset(Password)]
  }

  /**
   * WMICommand <computername> <command> [<username> <password>]: credentials are staged
   * only with exactly five tokens; otherwise they are unset and extra tokens are ignored.
   */
  function WMICommand(inp: Input): (r: Outcome)
    ensures r != Reject <==> Admits(inp.tokens, "WMICommand", AtLeast(3))
    ensures var t := inp.tokens;
      r != Reject ==> (r.Staged? && r.task == "WMICommand" && Committed(r.ops, inp.line)
        && r.ops[..|r.ops| - 1] == [Set(ComputerName, t[1]), Set(Command, t[2])] + Credentials(t))
  {
    var t := inp.tokens;
    if !Admits(t, "WMICommand", AtLeast(3)) then Reject
    else
      var creds := if |t| == 5 then [Set(Username, t[3]), Set(Password, t[4])] else [Unset(Username), Unset(Password)];
      Staged("WMICommand", [Set(ComputerName, t[1]), Set(Command, t[2])] + creds + [Start(inp.line)])
  }

  /** WMIGrunt <computername> <launcher> [<username> <password>]: the launcher must be a known one. */
  function WMIGrunt(inp: Input, launchers: seq<string>): (r: Outcome)
    ensures r != Reject <==> Admits(inp.tokens, "WMIGrunt", EitherOf(3, 5)) && ContainsIgnoreCase(launchers, inp.tokens[2])
    ensures var t := inp.tokens;
      r != Reject ==> (r.Staged? && r.task == "WMIGrunt" && Committed(r.ops, inp.line)
        && r.ops[..|r.ops| - 1] == [Set(ComputerName, t[1]), Set(Launcher, t[2])] + Credentials(t))
  {
    var t := inp.tokens;
    if !Admits(t, "WMIGrunt", EitherOf(3, 5)) then Reject
    else if !ContainsIgnoreCase(launchers, t[2]) then Reject
    else
      var creds := if |t| == 5 then [Set(Username, t[3]), Set(Password, t[4])] else [Unset(Username), Unset(Password)];
      Staged("WMIGrunt", [Set(ComputerName, t[1]), Set(Launcher, t[2])] + creds + [Start(inp.line)])
  }

  /** The DCOM methods DCOMCommand recognises as a trailing argument. */
  const DcomCommandMethods: seq<string> := ["mmc20.application", "mmc20_application", "shellwindows", "shellbrowserwindow", "exceldde"]

  /** The DCOM methods DCOMGrunt accepts. */
  const DcomGruntMethods: seq<string> := ["mmc20.application", "shellwindows", "shellbrowserwindow", "exceldde"]

  /**
   * DCOMCommand <computername> <command...> [<method>]: the last token is the Method only
   * when there are exactly four tokens and it names a DCOM method; otherwise everything
   * after the computer name, rejoined, is the Command. The Method is staged before the Command.
   */
  function DCOMCommand(inp: Input): (r: Outcome)
    ensures r != Reject <==> Admits(inp.tokens, "DCOMCommand", AtLeast(3))
    ensures var t := inp.tokens;
      r != Reject ==> (r.Staged? && r.task == "DCOMCommand" && Committed(r.ops, inp.line)
        && r.ops[0] == Set(ComputerName, t[1])
        && (|r.ops| == 4 <==> |t| == 4 && ContainsIgnoreCase(DcomCommandMethods, t[3]))
        && (|r.ops| == 4 ==> r.ops[1] == Set(Method, t[3]) && r.ops[2] == Set(Command, t[2]))
        && (|r.ops| != 4 ==> |r.ops| == 3 && r.ops[1] == Set(Command, JoinSpace(t[2..]))))
  {
    var t := inp.tokens;
    if !Admits(t, "DCOMCommand", AtLeast(3)) then Reject
    else if |t| == 4 && ContainsIgnoreCase(DcomCommandMethods, t[|t| - 1]) then
      assert JoinSpace(t[2..|t| - 1]) == t[2];
      Staged("DCOMCommand", [Set(ComputerName, t[1]), Set(Method, t[|t| - 1]), Set(Command, JoinSpace(t[2..|t| - 1])), Start(inp.line)])
    else
      Staged("DCOMCommand", [Set(ComputerName, t[1]), Set(Command, JoinSpace(t[2..])), Start(inp.line)])
  }

  /**
   * DCOMGrunt <computername> <launcher> [<method>], as the code is written: an unknown
   * launcher is reported but the command goes on and stages it.
   */
  function DcomGruntAsWritten(inp: Input, launchers: seq<string>): (r: Outcome)
    ensures var t := inp.tokens;
      r != Reject <==> Admits(t, "DCOMGrunt", Between(3, 4)) && (|t| == 4 ==> ContainsIgnoreCase(DcomGruntMethods, t[3]))
    ensures var t := inp.tokens;
      r != Reject ==> r == Staged("DCOMGrunt", [Set(ComputerName, t[1]), Set(Launcher, t[2])]
        + (if |t| == 4 then [Set(Method, t[3])] else []) + [Start(inp.line)])
  {
    var t := inp.tokens;
    if !Admits(t, "DCOMGrunt", Between(3, 4)) then Reject
    else if |t| == 4 && !ContainsIgnoreCase(DcomGruntMethods, t[3]) then Reject
    else
      var dcomMethod := if |t| == 4 then [Set(Method, t[3])] else [];
      Staged("DCOMGrunt", [Set(ComputerName, t[1]), Set(Launcher, t[2])] + dcomMethod + [Start(inp.line)])
  }

  /** DCOMGrunt stages a launcher that is not among the known launchers. */
  lemma DcomGruntStagesUnknownLauncher()
    ensures DcomGruntAsWritten(Input("DCOMGrunt host nope", ["DCOMGrunt", "host", "nope"]), []).Staged?
    ensures !ContainsIgnoreCase([], "nope")
  {
  }

  /**
   * DCOMGrunt <computername> <launcher> [<method>] with the unknown-launcher check
   * returning like its siblings: a staged launcher is always a known one.
   */
  function DcomGrunt(inp: Input, launchers: seq<string>): (r: Outcome)
    ensures var t := inp.tokens;
      r != Reject <==> (Admits(t, "DCOMGrunt", Between(3, 4)) && ContainsIgnoreCase(launchers, t[2])
        && (|t| == 4 ==> ContainsIgnoreCase(DcomGruntMethods, t[3])))
    ensures var t := inp.tokens;
      r != Reject ==> r == Staged("DCOMGrunt", [Set(ComputerName, t[1]), Set(Launcher, t[2])]
        + (if |t| == 4 then [Set(Method, t[3])] else []) + [Start(inp.line)])
  {
    var t := inp.tokens;
    if !Admits(t, "DCOMGrunt", Between(3, 4)) then Reject
    else if !ContainsIgnoreCase(launchers, t[2]) then Reject
    else DcomGruntAsWritten(inp, launchers)
  }

  /** The corrected Set agrees with the code except where the code posts a null tasking, which it rejects. */
  lemma SetCorrects(inp: Input, gruntId: int)
    ensures var w := SetAsWritten(inp, gruntId);
      var c := GruntSet(inp, gruntId);
      && (c == Reject || c == w)
      && (c != w ==> w == PostNull)
  {
  }

  /** The corrected DCOMGrunt agrees with the code except where the code stages an unknown launcher, which it rejects. */
  lemma DcomGruntCorrects(inp: Input, launchers: seq<string>)
    ensures var w := DcomGruntAsWritten(inp, launchers);
      var c := DcomGrunt(inp, launchers);
      && (c == Reject || c == w)
      && (c != Reject ==> |inp.tokens| > 2 && ContainsIgnoreCase(launchers, inp.tokens[2]))
      && (c != w ==> w.Staged? && |inp.tokens| > 2 && !ContainsIgnoreCase(launchers, inp.tokens[2]))
  {
  }

  /** BypassUACGrunt <launcher>: the launcher must be a known one. */
  function BypassUACGrunt(inp: Input, launchers: seq<string>): (r: Outcome)
    ensures r != Reject <==> Admits(inp.tokens, "BypassUACGrunt", Exactly(2)) && ContainsIgnoreCase(launchers, inp.tokens[1])
    ensures r != Reject ==> (r.Staged? && r.task == "BypassUACGrunt" && Committed(r.ops, inp.line) && |r.ops| == 2
      && r.ops[0] == Set(Launcher, inp.tokens[1]))
  {
    var t := inp.tokens;
    if !Admits(t, "BypassUACGrunt", Exactly(2)) then Reject
    else if !ContainsIgnoreCase(launchers, t[1]) then Reject
    else Staged("BypassUACGrunt", [Set(Launcher, t[1]), Start(inp.line)])
  }
}
