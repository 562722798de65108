/**
 * The commands of the Grunt interact menu that compile one input line into staging
 * operations or a posted tasking, and the guarantees they share.
 */
module CommandTable {
  import opened Wrappers
  import opened Text
  import Staging
  import Commands

  /** One constructor per MenuCommandGruntInteract* class that stages or posts a tasking. */
  datatype Cmd =
    | Kill | Set | WhoAmI | ListDirectory | ChangeDirectory | ProcessList
    | GetRegistryKey | SetRegistryKey | GetRemoteRegistryKey | SetRemoteRegistryKey
    | Upload | Download | Assembly | AssemblyReflect | SharpShell | Shell | ShellCmd
    | PowerShell | PowerShellImport | PortScan | Mimikatz | LogonPasswords | SamDump
    | LsaSecrets | DCSync | Rubeus | SharpDPAPI | SharpUp | SafetyKatz | SharpDump
    | SharpWMI | Seatbelt | Kerberoast | GetDomainUser | GetDomainGroup | GetDomainComputer
    | GetNetLocalGroup | GetNetLocalGroupMember | GetNetLoggedOnUser | GetNetSession
    | ImpersonateUser | ImpersonateProcess | GetSystem | MakeToken | RevertToSelf
    | WMICommand | WMIGrunt | DCOMCommand | DCOMGrunt | BypassUACCommand | BypassUACGrunt
    | Connect | Disconnect | Jobs

  /** The state of the interact menu a command reads. */
  datatype Session = Session(
    gruntId: int,
    children: seq<string>,      // Guids of the Grunt's children
    launchers: seq<string>,     // names of the known launchers
    powerShellImport: string)

  /**
   * What the operator, the file system and the server answer while a command runs:
   * the random tasking name, the Kill confirmation, the content of the file named
   * by PowerShellImport (None when it does not exist), the id of the GruntTask
   * SharpShell creates, and the Guid of the Grunt Disconnect names (None when unknown).
   */
  datatype Answers = Answers(
    taskingName: string,
    confirmation: string,
    importedFile: Option<string>,
    createdTaskId: int,
    namedGuid: Option<string>)

  /** The `Name` each command is invoked by. */
  function Name(cmd: Cmd): string {
    match cmd
    case Kill => "Kill"
    case Set => "Set"
    case WhoAmI => "whoami"
    case ListDirectory => "ls"
    case ChangeDirectory => "cd"
    case ProcessList => "ps"
    case GetRegistryKey => "GetRegistryKey"
    case SetRegistryKey => "SetRegistryKey"
    case GetRemoteRegistryKey => "GetRemoteRegistryKey"
    case SetRemoteRegistryKey => "SetRemoteRegistryKey"
    case Upload => "Upload"
    case Download => "Download"
    case Assembly => "Assembly"
    case AssemblyReflect => "AssemblyReflect"
    case SharpShell => "SharpShell"
    case Shell => "Shell"
    case ShellCmd => "ShellCmd"
    case PowerShell => "PowerShell"
    case PowerShellImport => "PowerShellImport"
    case PortScan => "PortScan"
    case Mimikatz => "Mimikatz"
    case LogonPasswords => "LogonPasswords"
    case SamDump => "SamDump"
    case LsaSecrets => "LsaSecrets"
    case DCSync => "DCSync"
    case Rubeus => "Rubeus"
    case SharpDPAPI => "SharpDPAPI"
    case SharpUp => "SharpUp"
    case SafetyKatz => "SafetyKatz"
    case SharpDump => "SharpDump"
    case SharpWMI => "SharpWMI"
    case Seatbelt => "Seatbelt"
    case Kerberoast => "Kerberoast"
    case GetDomainUser => "GetDomainUser"
    case GetDomainGroup => "GetDomainGroup"
    case GetDomainComputer => "GetDomainComputer"
    case GetNetLocalGroup => "GetNetLocalGroup"
    case GetNetLocalGroupMember => "GetNetLocalGroupMember"
    case GetNetLoggedOnUser => "GetNetLoggedOnUser"
    case GetNetSession => "GetNetSession"
    case ImpersonateUser => "ImpersonateUser"
    case ImpersonateProcess => "ImpersonateProcess"
    case GetSystem => "GetSystem"
    case MakeToken => "MakeToken"
    case RevertToSelf => "RevertToSelf"
    case WMICommand => "WMICommand"
    case WMIGrunt => "WMIGrunt"
    case DCOMCommand => "DCOMCommand"
    case DCOMGrunt => "DCOMGrunt"
    case BypassUACCommand => "BypassUACCommand"
    case BypassUACGrunt => "BypassUACGrunt"
    case Connect => "Connect"
    case Disconnect => "Disconnect"
    case Jobs => "Jobs"
  }

  /** The token-count bound each command checks. */
  function ArityOf(cmd: Cmd): Staging.Arity {
    match cmd
    case Kill | WhoAmI | ProcessList | SafetyKatz | GetSystem | RevertToSelf | Jobs => Staging.Exactly(1)
    case GetRegistryKey | Upload | Download | SharpDump | GetNetLocalGroup | GetNetLoggedOnUser
      | GetNetSession | ImpersonateUser | ImpersonateProcess | BypassUACGrunt | Disconnect => Staging.Exactly(2)
    case Set | SetRegistryKey | GetRemoteRegistryKey | GetNetLocalGroupMember => Staging.Exactly(3)
    case SetRemoteRegistryKey => Staging.Exactly(4)
    case ListDirectory | LogonPasswords | SamDump | LsaSecrets => Staging.AtLeast(1)
    case ChangeDirectory | Assembly | SharpShell | Shell | ShellCmd | PowerShell | PowerShellImport
      | Mimikatz | Rubeus | SharpDPAPI | SharpUp | SharpWMI | Seatbelt | BypassUACCommand => Staging.AtLeast(2)
    case WMICommand | DCOMCommand => Staging.AtLeast(3)
    case AssemblyReflect => Staging.Between(2, 5)
    case PortScan | DCOMGrunt => Staging.Between(3, 4)
    case DCSync => Staging.Between(2, 4)
    case Kerberoast => Staging.Between(1, 3)
    case GetDomainUser | GetDomainGroup | GetDomainComputer => Staging.Between(1, 2)
    case MakeToken => Staging.Between(4, 5)
    case WMIGrunt => Staging.EitherOf(3, 5)
    case Connect => Staging.Between(2, 3)
  }

  /** Commands that split the raw line at single spaces instead of using the parsed tokens. */
  predicate SplitsRawLine(cmd: Cmd) {
    cmd in {SharpShell, Shell, ShellCmd, PowerShell, Connect, Disconnect, Jobs}
  }

  /** The token list a command inspects. */
  function Tokens(cmd: Cmd, inp: Staging.Input): seq<string> {
    if SplitsRawLine(cmd) then SplitSpace(inp.line) else inp.tokens
  }

  /** The commands that index the first token before checking that there is one. */
  predicate IndexesUnchecked(cmd: Cmd) {
    cmd in {GetDomainUser, GetDomainGroup, GetDomainComputer}
  }

  /** The task each staging command selects with ValidateMenuParameters. */
  function TaskOf(cmd: Cmd): string {
    match cmd
    case WhoAmI => "whoami"
    case ListDirectory => "ListDirectory"
    case ChangeDirectory => "ChangeDirectory"
    case ProcessList => "ProcessList"
    case PowerShellImport => "PowerShell"
    case LogonPasswords | SamDump | LsaSecrets | DCSync => "Mimikatz"
    case _ => Name(cmd)
  }

  /** The groups Compile dispatches through, so that each proof about a group stays small. */
  function GroupOf(cmd: Cmd): (g: nat)
    ensures g < 27
  {
    match cmd
    case Kill | Set => 0
    case SharpShell => 1
    case Connect | Disconnect | Jobs => 2
    case WhoAmI | ProcessList | SafetyKatz => 3
    case GetSystem | RevertToSelf | GetRegistryKey => 4
    case SetRegistryKey | GetRemoteRegistryKey => 5
    case SetRemoteRegistryKey => 6
    case Upload | Download | SharpDump => 7
    case GetNetLocalGroup | GetNetLocalGroupMember => 8
    case GetNetLoggedOnUser | GetNetSession => 9
    case ImpersonateUser | ImpersonateProcess => 10
    case ChangeDirectory | Mimikatz | Rubeus => 11
    case SharpDPAPI | SharpUp | SharpWMI => 12
    case Seatbelt | BypassUACCommand => 13
    case Shell | ShellCmd => 14
    case PowerShell => 15
    case PowerShellImport => 16
    case LogonPasswords | SamDump => 17
    case LsaSecrets | ListDirectory => 18
    case Assembly | AssemblyReflect => 19
    case PortScan | DCSync => 20
    case Kerberoast => 21
    case MakeToken => 22
    case BypassUACGrunt => 23
    case GetDomainUser | GetDomainGroup | GetDomainComputer => 24
    case WMICommand | WMIGrunt => 25
    case DCOMCommand | DCOMGrunt => 26
  }

  /** Runs one command on one input line; whatever the command, the outcome conforms. */
  function Compile(cmd: Cmd, inp: Staging.Input, s: Session, a: Answers): (r: Staging.Outcome)
    requires IndexesUnchecked(cmd) ==> |inp.tokens| > 0
    ensures Conforms(cmd, inp, s, a, r)
  {
    match GroupOf(cmd)
    case 0 => CompileGroup0(cmd, inp, s, a)
    case 1 => CompileGroup1(cmd, inp, s, a)
    case 2 => CompileGroup2(cmd, inp, s, a)
    case 3 => CompileGroup3(cmd, inp, s, a)
    case 4 => CompileGroup4(cmd, inp, s, a)
    case 5 => CompileGroup5(cmd, inp, s, a)
    case 6 => CompileGroup6(cmd, inp, s, a)
    case 7 => CompileGroup7(cmd, inp, s, a)
    case 8 => CompileGroup8(cmd, inp, s, a)
    case 9 => CompileGroup9(cmd, inp, s, a)
    case 10 => CompileGroup10(cmd, inp, s, a)
    case 11 => CompileGroup11(cmd, inp, s, a)
    case 12 => CompileGroup12(cmd, inp, s, a)
    case 13 => CompileGroup13(cmd, inp, s, a)
    case 14 => CompileGroup14(cmd, inp, s, a)
    case 15 => CompileGroup15(cmd, inp, s, a)
    case 16 => CompileGroup16(cmd, inp, s, a)
    case 17 => CompileGroup17(cmd, inp, s, a)
    case 18 => CompileGroup18(cmd, inp, s, a)
    case 19 => CompileGroup19(cmd, inp, s, a)
    case 20 => CompileGroup20(cmd, inp, s, a)
    case 21 => CompileGroup21(cmd, inp, s, a)
    case 22 => CompileGroup22(cmd, inp, s, a)
    case 23 => CompileGroup23(cmd, inp, s, a)
    case 24 => CompileGroup24(cmd, inp, s, a)
    case 25 => CompileGroup25(cmd, inp, s, a)
    case 26 => CompileGroup26(cmd, inp, s, a)
    case _ => assert false; Staging.Reject
  }

  /**
   * The menu with the two defects of the code corrected: Set rejects an unknown
   * option and DCOMGrunt rejects an unknown launcher. It agrees with `Compile`
   * everywhere else, and where it differs it rejects a line the code mishandles.
   */
  function CompileCorrected(cmd: Cmd, inp: Staging.Input, s: Session, a: Answers): (r: Staging.Outcome)
    requires IndexesUnchecked(cmd) ==> |inp.tokens| > 0
    ensures Conforms(cmd, inp, s, a, r)
    ensures r != Staging.PostNull
    ensures cmd == DCOMGrunt && r != Staging.Reject ==> |inp.tokens| > 2 && ContainsIgnoreCase(s.launchers, inp.tokens[2])
    ensures r != Compile(cmd, inp, s, a) ==> (r == Staging.Reject
      && ((cmd == Set && Compile(cmd, inp, s, a) == Staging.PostNull)
        || (cmd == DCOMGrunt && Compile(cmd, inp, s, a).Staged? && |inp.tokens| > 2 && !ContainsIgnoreCase(s.launchers, inp.tokens[2]))))
  {
    if cmd == Set then
      SetCorrection(inp, s, a);
      Commands.GruntSet(inp, s.gruntId)
    else if cmd == DCOMGrunt then
      DcomGruntCorrection(inp, s, a);
      Commands.DcomGrunt(inp, s.launchers)
    else Compile(cmd, inp, s, a)
  }

  /** The corrected Set differs from the code only by rejecting what the code posts as a null tasking. */
  lemma SetCorrection(inp: Staging.Input, s: Session, a: Answers)
    ensures var w := Compile(Set, inp, s, a);
      var c := Commands.GruntSet(inp, s.gruntId);
      && Conforms(Set, inp, s, a, c) && c != Staging.PostNull
      && (c != w ==> c == Staging.Reject && w == Staging.PostNull)
  {
    SetDispatch(inp, s, a);
    SetConforms(inp, s, a);
    Commands.SetCorrects(inp, s.gruntId);
  }

  /** The dispatcher runs Set as written. */
  lemma SetDispatch(inp: Staging.Input, s: Session, a: Answers)
    ensures Compile(Set, inp, s, a) == Commands.SetAsWritten(inp, s.gruntId)
  {
    assert GroupOf(Set) == 0;
    assert Compile(Set, inp, s, a) == CompileGroup0(Set, inp, s, a);
  }

  /** The corrected Set keeps the dispatcher's promises and never posts a null tasking. */
  lemma SetConforms(inp: Staging.Input, s: Session, a: Answers)
    ensures Conforms(Set, inp, s, a, Commands.GruntSet(inp, s.gruntId))
    ensures Commands.GruntSet(inp, s.gruntId) != Staging.PostNull
  {
    var w := CompileGroup0(Set, inp, s, a);
    assert w == Commands.SetAsWritten(inp, s.gruntId);
    Commands.SetCorrects(inp, s.gruntId);
    if Commands.GruntSet(inp, s.gruntId) != Staging.Reject {
      assert Commands.GruntSet(inp, s.gruntId) == w;
    }
  }

  /** The corrected DCOMGrunt differs from the code only by rejecting a staged unknown launcher. */
  lemma DcomGruntCorrection(inp: Staging.Input, s: Session, a: Answers)
    ensures var w := Compile(DCOMGrunt, inp, s, a);
      var c := Commands.DcomGrunt(inp, s.launchers);
      && Conforms(DCOMGrunt, inp, s, a, c)
      && (c != Staging.Reject ==> |inp.tokens| > 2 && ContainsIgnoreCase(s.launchers, inp.tokens[2]))
      && (c != w ==> c == Staging.Reject && w.Staged? && |inp.tokens| > 2 && !ContainsIgnoreCase(s.launchers, inp.tokens[2]))
  {
    DcomGruntDispatch(inp, s, a);
    DcomGruntConforms(inp, s, a);
    Commands.DcomGruntCorrects(inp, s.launchers);
  }

  /** The dispatcher runs DCOMGrunt as written. */
  lemma DcomGruntDispatch(inp: Staging.Input, s: Session, a: Answers)
    ensures Compile(DCOMGrunt, inp, s, a) == Commands.DcomGruntAsWritten(inp, s.launchers)
  {
    assert GroupOf(DCOMGrunt) == 26;
    CompileLastGroup(DCOMGrunt, inp, s, a);
    assert CompileGroup26(DCOMGrunt, inp, s, a) == Commands.DcomGruntAsWritten(inp, s.launchers);
  }

  /** The dispatcher hands the last group's commands to that group. */
  lemma CompileLastGroup(cmd: Cmd, inp: Staging.Input, s: Session, a: Answers)
    requires GroupOf(cmd) == 26
    ensures Compile(cmd, inp, s, a) == CompileGroup26(cmd, inp, s, a)
  {
  }

  /** The corrected DCOMGrunt keeps the dispatcher's promises. */
  lemma DcomGruntConforms(inp: Staging.Input, s: Session, a: Answers)
    ensures Conforms(DCOMGrunt, inp, s, a, Commands.DcomGrunt(inp, s.launchers))
  {
    var w := CompileGroup26(DCOMGrunt, inp, s, a);
    assert w == Commands.DcomGruntAsWritten(inp, s.launchers);
    Commands.DcomGruntCorrects(inp, s.launchers);
    if Commands.DcomGrunt(inp, s.launchers) != Staging.Reject {
      assert Commands.DcomGrunt(inp, s.launchers) == w;
    }
  }

  function CompileGroup0(cmd: Cmd, inp: Staging.Input, s: Session, a: Answers): (r: Staging.Outcome)
    requires GroupOf(cmd) == 0
    ensures Conforms(cmd, inp, s, a, r)
  {
    match cmd
    case Kill =>
      assert Name(cmd) == "Kill" && TaskOf(cmd) == "Kill";
      Commands.KillGrunt(inp, s.gruntId, a.taskingName, a.confirmation)
    case Set =>
      assert Name(cmd) == "Set" && TaskOf(cmd) == "Set";
      Commands.SetAsWritten(inp, s.gruntId)
    case _ => assert false; Staging.Reject
  }

  function CompileGroup1(cmd: Cmd, inp: Staging.Input, s: Session, a: Answers): (r: Staging.Outcome)
    requires GroupOf(cmd) == 1
    ensures Conforms(cmd, inp, s, a, r)
  {
    match cmd
    case SharpShell =>
      assert Name(cmd) == "SharpShell" && TaskOf(cmd) == "SharpShell";
      Commands.SharpShell(inp, s.gruntId, a.taskingName, a.createdTaskId)
    case _ => assert false; Staging.Reject
  }

  function CompileGroup2(cmd: Cmd, inp: Staging.Input, s: Session, a: Answers): (r: Staging.Outcome)
    requires GroupOf(cmd) == 2
    ensures Conforms(cmd, inp, s, a, r)
  {
    match cmd
    case Connect =>
      assert Name(cmd) == "Connect" && TaskOf(cmd) == "Connect";
      Commands.ConnectGrunt(inp, s.gruntId, a.taskingName)
    case Disconnect =>
      assert Name(cmd) == "Disconnect" && TaskOf(cmd) == "Disconnect";
      Commands.DisconnectGrunt(inp, s.gruntId, s.children, a.namedGuid, a.taskingName)
    case Jobs =>
      assert Name(cmd) == "Jobs" && TaskOf(cmd) == "Jobs";
      Commands.ListJobs(inp, s.gruntId, a.taskingName)
    case _ => assert false; Staging.Reject
  }

  function CompileGroup3(cmd: Cmd, inp: Staging.Input, s: Session, a: Answers): (r: Staging.Outcome)
    requires GroupOf(cmd) == 3
    ensures Conforms(cmd, inp, s, a, r)
  {
    match cmd
    case WhoAmI =>
      assert Name(cmd) == "whoami" && TaskOf(cmd) == "whoami";
      Commands.WhoAmI(inp)
    case ProcessList =>
      assert Name(cmd) == "ps" && TaskOf(cmd) == "ProcessList";
      Commands.ProcessList(inp)
    case SafetyKatz =>
      assert Name(cmd) == "SafetyKatz" && TaskOf(cmd) == "SafetyKatz";
      Commands.SafetyKatz(inp)
    case _ => assert false; Staging.Reject
  }

  function CompileGroup4(cmd: Cmd, inp: Staging.Input, s: Session, a: Answers): (r: Staging.Outcome)
    requires GroupOf(cmd) == 4
    ensures Conforms(cmd, inp, s, a, r)
  {
    match cmd
    case GetSystem =>
      assert Name(cmd) == "GetSystem" && TaskOf(cmd) == "GetSystem";
      Commands.GetSystem(inp)
    case RevertToSelf =>
      assert Name(cmd) == "RevertToSelf" && TaskOf(cmd) == "RevertToSelf";
      Commands.RevertToSelf(inp)
    case GetRegistryKey =>
      assert Name(cmd) == "GetRegistryKey" && TaskOf(cmd) == "GetRegistryKey";
      Commands.GetRegistryKey(inp)
    case _ => assert false; Staging.Reject
  }

  function CompileGroup5(cmd: Cmd, inp: Staging.Input, s: Session, a: Answers): (r: Staging.Outcome)
    requires GroupOf(cmd) == 5
    ensures Conforms(cmd, inp, s, a, r)
  {
    match cmd
    case SetRegistryKey =>
      assert Name(cmd) == "SetRegistryKey" && TaskOf(cmd) == "SetRegistryKey";
      Commands.SetRegistryKey(inp)
    case GetRemoteRegistryKey =>
      assert Name(cmd) == "GetRemoteRegistryKey" && TaskOf(cmd) == "GetRemoteRegistryKey";
      Commands.GetRemoteRegistryKey(inp)
    case _ => assert false; Staging.Reject
  }

  function CompileGroup6(cmd: Cmd, inp: Staging.Input, s: Session, a: Answers): (r: Staging.Outcome)
    requires GroupOf(cmd) == 6
    ensures Conforms(cmd, inp, s, a, r)
  {
    match cmd
    case SetRemoteRegistryKey =>
      assert Name(cmd) == "SetRemoteRegistryKey" && TaskOf(cmd) == "SetRemoteRegistryKey";
      Commands.SetRemoteRegistryKey(inp)
    case _ => assert false; Staging.Reject
  }

  function CompileGroup7(cmd: Cmd, inp: Staging.Input, s: Session, a: Answers): (r: Staging.Outcome)
    requires GroupOf(cmd) == 7
    ensures Conforms(cmd, inp, s, a, r)
  {
    match cmd
    case Upload =>
      assert Name(cmd) == "Upload" && TaskOf(cmd) == "Upload";
      Commands.Upload(inp)
    case Download =>
      assert Name(cmd) == "Download" && TaskOf(cmd) == "Download";
      Commands.Download(inp)
    case SharpDump =>
      assert Name(cmd) == "SharpDump" && TaskOf(cmd) == "SharpDump";
      Commands.SharpDump(inp)
    case _ => assert false; Staging.Reject
  }

  function CompileGroup8(cmd: Cmd, inp: Staging.Input, s: Session, a: Answers): (r: Staging.Outcome)
    requires GroupOf(cmd) == 8
    ensures Conforms(cmd, inp, s, a, r)
  {
    match cmd
    case GetNetLocalGroup =>
      assert Name(cmd) == "GetNetLocalGroup" && TaskOf(cmd) == "GetNetLocalGroup";
      Commands.GetNetLocalGroup(inp)
    case GetNetLocalGroupMember =>
      assert Name(cmd) == "GetNetLocalGroupMember" && TaskOf(cmd) == "GetNetLocalGroupMember";
      Commands.GetNetLocalGroupMember(inp)
    case _ => assert false; Staging.Reject
  }

  function CompileGroup9(cmd: Cmd, inp: Staging.Input, s: Session, a: Answers): (r: Staging.Outcome)
    requires GroupOf(cmd) == 9
    ensures Conforms(cmd, inp, s, a, r)
  {
    match cmd
    case GetNetLoggedOnUser =>
      assert Name(cmd) == "GetNetLoggedOnUser" && TaskOf(cmd) == "GetNetLoggedOnUser";
      Commands.GetNetLoggedOnUser(inp)
    case GetNetSession =>
      assert Name(cmd) == "GetNetSession" && TaskOf(cmd) == "GetNetSession";
      Commands.GetNetSession(inp)
    case _ => assert false; Staging.Reject
  }

  function CompileGroup10(cmd: Cmd, inp: Staging.Input, s: Session, a: Answers): (r: Staging.Outcome)
    requires GroupOf(cmd) == 10
    ensures Conforms(cmd, inp, s, a, r)
  {
    match cmd
    case ImpersonateUser =>
      assert Name(cmd) == "ImpersonateUser" && TaskOf(cmd) == "ImpersonateUser";
      Commands.ImpersonateUser(inp)
    case ImpersonateProcess =>
      assert Name(cmd) == "ImpersonateProcess" && TaskOf(cmd) == "ImpersonateProcess";
      Commands.ImpersonateProcess(inp)
    case _ => assert false; Staging.Reject
  }

  function CompileGroup11(cmd: Cmd, inp: Staging.Input, s: Session, a: Answers): (r: Staging.Outcome)
    requires GroupOf(cmd) == 11
    ensures Conforms(cmd, inp, s, a, r)
  {
    match cmd
    case ChangeDirectory =>
      assert Name(cmd) == "cd" && TaskOf(cmd) == "ChangeDirectory";
      Commands.ChangeDirectory(inp)
    case Mimikatz =>
      assert Name(cmd) == "Mimikatz" && TaskOf(cmd) == "Mimikatz";
      Commands.Mimikatz(inp)
    case Rubeus =>
      assert Name(cmd) == "Rubeus" && TaskOf(cmd) == "Rubeus";
      Commands.Rubeus(inp)
    case _ => assert false; Staging.Reject
  }

  function CompileGroup12(cmd: Cmd, inp: Staging.Input, s: Session, a: Answers): (r: Staging.Outcome)
    requires GroupOf(cmd) == 12
    ensures Conforms(cmd, inp, s, a, r)
  {
    match cmd
    case SharpDPAPI =>
      assert Name(cmd) == "SharpDPAPI" && TaskOf(cmd) == "SharpDPAPI";
      Commands.SharpDPAPI(inp)
    case SharpUp =>
      assert Name(cmd) == "SharpUp" && TaskOf(cmd) == "SharpUp";
      Commands.SharpUp(inp)
    case SharpWMI =>
      assert Name(cmd) == "SharpWMI" && TaskOf(cmd) == "SharpWMI";
      Commands.SharpWMI(inp)
    case _ => assert false; Staging.Reject
  }

  function CompileGroup13(cmd: Cmd, inp: Staging.Input, s: Session, a: Answers): (r: Staging.Outcome)
    requires GroupOf(cmd) == 13
    ensures Conforms(cmd, inp, s, a, r)
  {
    match cmd
    case Seatbelt =>
      assert Name(cmd) == "Seatbelt" && TaskOf(cmd) == "Seatbelt";
      Commands.Seatbelt(inp)
    case BypassUACCommand =>
      assert Name(cmd) == "BypassUACCommand" && TaskOf(cmd) == "BypassUACCommand";
      Commands.BypassUACCommand(inp)
    case _ => assert false; Staging.Reject
  }

  function CompileGroup14(cmd: Cmd, inp: Staging.Input, s: Session, a: Answers): (r: Staging.Outcome)
    requires GroupOf(cmd) == 14
    ensures Conforms(cmd, inp, s, a, r)
  {
    match cmd
    case Shell =>
      assert Name(cmd) == "Shell" && TaskOf(cmd) == "Shell";
      Commands.Shell(inp)
    case ShellCmd =>
      assert Name(cmd) == "ShellCmd" && TaskOf(cmd) == "ShellCmd";
      Commands.ShellCmd(inp)
    case _ => assert false; Staging.Reject
  }

  function CompileGroup15(cmd: Cmd, inp: Staging.Input, s: Session, a: Answers): (r: Staging.Outcome)
    requires GroupOf(cmd) == 15
    ensures Conforms(cmd, inp, s, a, r)
  {
    match cmd
    case PowerShell =>
      assert Name(cmd) == "PowerShell" && TaskOf(cmd) == "PowerShell";
      Commands.PowerShell(inp, s.powerShellImport)
    case _ => assert false; Staging.Reject
  }

  function CompileGroup16(cmd: Cmd, inp: Staging.Input, s: Session, a: Answers): (r: Staging.Outcome)
    requires GroupOf(cmd) == 16
    ensures Conforms(cmd, inp, s, a, r)
  {
    match cmd
    case PowerShellImport =>
      assert Name(cmd) == "PowerShellImport" && TaskOf(cmd) == "PowerShell";
      Commands.PowerShellImport(inp, a.importedFile)
    case _ => assert false; Staging.Reject
  }

  function CompileGroup17(cmd: Cmd, inp: Staging.Input, s: Session, a: Answers): (r: Staging.Outcome)
    requires GroupOf(cmd) == 17
    ensures Conforms(cmd, inp, s, a, r)
  {
    match cmd
    case LogonPasswords =>
      assert Name(cmd) == "LogonPasswords" && TaskOf(cmd) == "Mimikatz";
      Commands.LogonPasswords(inp)
    case SamDump =>
      assert Name(cmd) == "SamDump" && TaskOf(cmd) == "Mimikatz";
      Commands.SamDump(inp)
    case _ => assert false; Staging.Reject
  }

  function CompileGroup18(cmd: Cmd, inp: Staging.Input, s: Session, a: Answers): (r: Staging.Outcome)
    requires GroupOf(cmd) == 18
    ensures Conforms(cmd, inp, s, a, r)
  {
    match cmd
    case LsaSecrets =>
      assert Name(cmd) == "LsaSecrets" && TaskOf(cmd) == "Mimikatz";
      Commands.LsaSecrets(inp)
    case ListDirectory =>
      assert Name(cmd) == "ls" && TaskOf(cmd) == "ListDirectory";
      Commands.ListDirectory(inp)
    case _ => assert false; Staging.Reject
  }

  function CompileGroup19(cmd: Cmd, inp: Staging.Input, s: Session, a: Answers): (r: Staging.Outcome)
    requires GroupOf(cmd) == 19
    ensures Conforms(cmd, inp, s, a, r)
  {
    match cmd
    case Assembly =>
      assert Name(cmd) == "Assembly" && TaskOf(cmd) == "Assembly";
      Commands.ExecuteAssembly(inp)
    case AssemblyReflect =>
      assert Name(cmd) == "AssemblyReflect" && TaskOf(cmd) == "AssemblyReflect";
      Commands.AssemblyReflect(inp)
    case _ => assert false; Staging.Reject
  }

  function CompileGroup20(cmd: Cmd, inp: Staging.Input, s: Session, a: Answers): (r: Staging.Outcome)
    requires GroupOf(cmd) == 20
    ensures Conforms(cmd, inp, s, a, r)
  {
    match cmd
    case PortScan =>
      assert Name(cmd) == "PortScan" && TaskOf(cmd) == "PortScan";
      Commands.PortScan(inp)
    case DCSync =>
      assert Name(cmd) == "DCSync" && TaskOf(cmd) == "Mimikatz";
      Commands.DCSync(inp)
    case _ => assert false; Staging.Reject
  }

  function CompileGroup21(cmd: Cmd, inp: Staging.Input, s: Session, a: Answers): (r: Staging.Outcome)
    requires GroupOf(cmd) == 21
    ensures Conforms(cmd, inp, s, a, r)
  {
    match cmd
    case Kerberoast =>
      assert Name(cmd) == "Kerberoast" && TaskOf(cmd) == "Kerberoast";
      Commands.Kerberoast(inp)
    case _ => assert false; Staging.Reject
  }

  function CompileGroup22(cmd: Cmd, inp: Staging.Input, s: Session, a: Answers): (r: Staging.Outcome)
    requires GroupOf(cmd) == 22
    ensures Conforms(cmd, inp, s, a, r)
  {
    match cmd
    case MakeToken =>
      assert Name(cmd) == "MakeToken" && TaskOf(cmd) == "MakeToken";
      Commands.MakeToken(inp)
    case _ => assert false; Staging.Reject
  }

  function CompileGroup23(cmd: Cmd, inp: Staging.Input, s: Session, a: Answers): (r: Staging.Outcome)
    requires GroupOf(cmd) == 23
    ensures Conforms(cmd, inp, s, a, r)
  {
    match cmd
    case BypassUACGrunt =>
      assert Name(cmd) == "BypassUACGrunt" && TaskOf(cmd) == "BypassUACGrunt";
      Commands.BypassUACGrunt(inp, s.launchers)
    case _ => assert false; Staging.Reject
  }

  function CompileGroup24(cmd: Cmd, inp: Staging.Input, s: Session, a: Answers): (r: Staging.Outcome)
    requires IndexesUnchecked(cmd) ==> |inp.tokens| > 0
    requires GroupOf(cmd) == 24
    ensures Conforms(cmd, inp, s, a, r)
  {
    match cmd
    case GetDomainUser =>
      assert Name(cmd) == "GetDomainUser" && TaskOf(cmd) == "GetDomainUser";
      Commands.GetDomainUser(inp)
    case GetDomainGroup =>
      assert Name(cmd) == "GetDomainGroup" && TaskOf(cmd) == "GetDomainGroup";
      Commands.GetDomainGroup(inp)
    case GetDomainComputer =>
      assert Name(cmd) == "GetDomainComputer" && TaskOf(cmd) == "GetDomainComputer";
      Commands.GetDomainComputer(inp)
    case _ => assert false; Staging.Reject
  }

  function CompileGroup25(cmd: Cmd, inp: Staging.Input, s: Session, a: Answers): (r: Staging.Outcome)
    requires GroupOf(cmd) == 25
    ensures Conforms(cmd, inp, s, a, r)
  {
    match cmd
    case WMICommand =>
      assert Name(cmd) == "WMICommand" && TaskOf(cmd) == "WMICommand";
      Commands.WMICommand(inp)
    case WMIGrunt =>
      assert Name(cmd) == "WMIGrunt" && TaskOf(cmd) == "WMIGrunt";
      Commands.WMIGrunt(inp, s.launchers)
    case _ => assert false; Staging.Reject
  }

  function CompileGroup26(cmd: Cmd, inp: Staging.Input, s: Session, a: Answers): (r: Staging.Outcome)
    requires GroupOf(cmd) == 26
    ensures Conforms(cmd, inp, s, a, r)
  {
    match cmd
    case DCOMCommand =>
      assert Name(cmd) == "DCOMCommand" && TaskOf(cmd) == "DCOMCommand";
      Commands.DCOMCommand(inp)
    case DCOMGrunt =>
      assert Name(cmd) == "DCOMGrunt" && TaskOf(cmd) == "DCOMGrunt";
      Commands.DcomGruntAsWritten(inp, s.launchers)
    case _ => assert false; Staging.Reject
  }

  /** The commands that post a GruntTasking themselves instead of staging a task. */
  predicate Posts(cmd: Cmd) {
    cmd == Kill || cmd == Set || cmd == SharpShell || cmd == Connect || cmd == Disconnect || cmd == Jobs
  }

  /**
   * What every command guarantees about its outcome `r`: a line failing the name and
   * token-count check is rejected; a staged task is the command's own and ends with
   * one Start carrying the raw line (PortScan may stage without starting); a posted
   * tasking is fresh, for this Grunt, and comes from a posting command, which never
   * stages; only Set, given an option it does not know, posts a null tasking; only
   * Kill, when not confirmed, is declined;
   * PowerShellImport stages only a file it could read, and stages its content.
   */
  predicate Conforms(cmd: Cmd, inp: Staging.Input, s: Session, a: Answers, r: Staging.Outcome) {
    && (!Staging.Admits(Tokens(cmd, inp), Name(cmd), ArityOf(cmd)) ==> r == Staging.Reject)
    && (r.Staged? ==> (r.task == TaskOf(cmd)
          && (Staging.Committed(r.ops, inp.line) || (cmd == PortScan && Staging.Uncommitted(r.ops)))))
    && (r == Staging.PostNull ==> (cmd == Set && |inp.tokens| == 3 && Commands.SetOptionKind(inp.tokens[1]).None?))
    && (r.Post? ==> Posts(cmd) && Staging.Fresh(r.tasking, s.gruntId, inp.line))
    && (Posts(cmd) ==> !r.Staged?)
    && (r == Staging.Declined ==> cmd == Kill && !StartsWithIgnoreCase(a.confirmation, "y"))
    && (cmd == PowerShellImport && r.Staged? ==> (a.importedFile.Some? && |r.ops| > 0
          && r.ops[0] == Staging.Set(Staging.PowerShellCommand, a.importedFile.value)))
  }
}
