# The Grunt interact menu of Elite, modelled in Dafny

Elite is the command-line client of the Covenant command-and-control server. While
an operator interacts with one Grunt (an implant), a menu turns each line they type
into work for that Grunt. This project models that menu, `GruntInteractMenuItem`,
together with its `MenuCommandGruntInteract*` commands.

- **Command compiler** (`Commands`, `CommandTable`). Each command's `Command` method
  is a pure function. Its input is the raw line plus the tokens `ParseParameters` made
  of it. Its result is an `Outcome`, one of:
  - a rejection (usage error);
  - a declined Kill;
  - the staging operations issued against the sibling Task menu, in order:
    `Set <Field> <value>`, `Unset <Field>`, `Start <line>`;
  - the `GruntTasking` the command posts to the server itself (Kill, Set,
    SharpShell, Connect, Disconnect, Jobs).

  What the console, the file system and the server would answer (random tasking
  names, the Kill confirmation, file content, looked-up Guids, created task ids) is
  passed in as parameters. `CommandTable.Compile` dispatches over all 54 commands as
  the code has them, and proves the guarantees they share (`Conforms`). The menu
  object runs commands through it. `CommandTable.CompileCorrected` is the same menu
  with the two defects listed under Findings corrected.
- **Tasking history** (`TaskStore`, `InteractMenu`). The menu object keeps a local
  list of taskings and updates it in place:
  - `Refresh` merges the server's tasking list into the local list;
  - `HistoryRefresh` splices in one detailed record, or reloads everything;
  - the `History` command selects and refreshes taskings by name or by count;
  - `Show` lists the tasking names.

  These are methods of the class `InteractMenu.GruntInteractMenu`, each proved
  against a specification function: the refreshes against `TaskStore.MergeAll` and
  `TaskStore.RefreshOne`, `History` against `InteractMenu.HistoryState` and
  `InteractMenu.HistoryShown`. The properties of the merge and of the History
  selection are proved as lemmas about those functions.
- **String helpers** (`Text`). The small part of .NET the commands rely on:
  - `Split(" ")`, `String.Join(" ", …)`;
  - ordinal case-insensitive comparison;
  - `int.TryParse` / `ToString`;
  - `Trim`.

  Their round trips are proved.

Files:
- `text.dfy`: the `Wrappers` and `Text` modules.
- `staging.dfy`: `Staging`, the shared vocabulary.
- `commands.dfy`
- `command_table.dfy`
- `task_store.dfy`
- `interact_menu.dfy`

## Model

Source paths are relative to the repository root.

| member | source | states |
|---|---|---|
| Commands.KillGrunt | Elite/Menu/Grunts/InteractGruntMenuItem.cs:69-106 | Rejected exactly when the line is not the single word Kill. Declined exactly when it is but the answer does not start with "y". Otherwise it posts a fresh Kill tasking for this Grunt: task 1, the random name, no message. |
| Commands.SetAsWritten | Elite/Menu/Grunts/InteractGruntMenuItem.cs:128-197 | The Set command as written: rejected exactly for a malformed line or a non-numeric value. It posts a null tasking exactly when the option is not Delay, JitterPercent or ConnectAttempts. Any tasking it does post that is not null is the one the corrected Set posts. |
| Commands.SetUnknownOptionPostsNull | Elite/Menu/Grunts/InteractGruntMenuItem.cs:140-185 | `Set foo 5` passes every check of the code and posts a null tasking. |
| Commands.GruntSet | Elite/Menu/Grunts/InteractGruntMenuItem.cs:128-197 | Set with an unknown option rejected. Accepted exactly for three tokens, a 32-bit number and a known option. It then posts a fresh tasking of that option's kind, whose message is the number as `ToString` prints it: canonical, and parsing back to the same number (`Set delay 007` posts `7`). |
| Commands.SetCorrects | Elite/Menu/Grunts/InteractGruntMenuItem.cs:128-197 | The corrected Set either rejects or does what the code does, and it differs from the code only where the code posts a null tasking. |
| Commands.SharpShell | Elite/Menu/Grunts/InteractGruntMenuItem.cs:633-675 | Accepted exactly when the raw line, split at spaces, starts with SharpShell and has code after it. It posts a fresh Assembly tasking of the created GruntTask, with the random name. |
| Commands.ConnectGrunt | Elite/Menu/Grunts/InteractGruntMenuItem.cs:1968-2001 | Accepted exactly for 2 or 3 space-separated words starting with Connect. The posted Connect tasking's message is `computer,pipe`, and the pipe defaults to gruntsvc. |
| Commands.DisconnectGrunt | Elite/Menu/Grunts/InteractGruntMenuItem.cs:2015-2057 | Accepted exactly when the named Grunt exists and its Guid is among this Grunt's children (ignoring case). The posted Disconnect tasking carries that Guid. |
| Commands.ListJobs | Elite/Menu/Grunts/InteractGruntMenuItem.cs:2069-2098 | Accepted exactly for the single word Jobs. It posts a fresh Jobs tasking whose message is "Jobs". |
| Commands.WhoAmI | Elite/Menu/Grunts/InteractGruntMenuItem.cs:209-222 | Accepted exactly for the single word whoami. It then stages task whoami with no fields and Start with the line. |
| Commands.ProcessList | Elite/Menu/Grunts/InteractGruntMenuItem.cs:294-307 | Accepted exactly for the single word ps. It stages task ProcessList and starts it. |
| Commands.SafetyKatz | Elite/Menu/Grunts/InteractGruntMenuItem.cs:1106-1119 | Accepted exactly for the single word SafetyKatz. It stages and starts the task. |
| Commands.GetSystem | Elite/Menu/Grunts/InteractGruntMenuItem.cs:1551-1564 | Accepted exactly for the single word GetSystem. It stages and starts the task. |
| Commands.RevertToSelf | Elite/Menu/Grunts/InteractGruntMenuItem.cs:1618-1631 | Accepted exactly for the single word RevertToSelf. It stages and starts the task. |
| Commands.GetRegistryKey | Elite/Menu/Grunts/InteractGruntMenuItem.cs:329-343 | Accepted exactly for 2 tokens. The argument is set as RegPath, then Start. |
| Commands.SetRegistryKey | Elite/Menu/Grunts/InteractGruntMenuItem.cs:366-381 | Accepted exactly for 3 tokens. The arguments are set as RegPath and Value, in that order, then Start. |
| Commands.GetRemoteRegistryKey | Elite/Menu/Grunts/InteractGruntMenuItem.cs:404-419 | Accepted exactly for 3 tokens. The arguments are set as Hostname and RegPath, then Start. |
| Commands.SetRemoteRegistryKey | Elite/Menu/Grunts/InteractGruntMenuItem.cs:443-459 | Accepted exactly for 4 tokens. The arguments are set as Hostname, RegPath and Value, then Start. |
| Commands.Upload | Elite/Menu/Grunts/InteractGruntMenuItem.cs:473-487 | Accepted exactly for 2 tokens. The argument is set as LocalFilePath, then Start. |
| Commands.Download | Elite/Menu/Grunts/InteractGruntMenuItem.cs:501-515 | Accepted exactly for 2 tokens. The argument is set as FileName, then Start. |
| Commands.SharpDump | Elite/Menu/Grunts/InteractGruntMenuItem.cs:1133-1148 | Accepted exactly for 2 tokens. The argument is set as Command (the process id), then Start. |
| Commands.GetNetLocalGroup | Elite/Menu/Grunts/InteractGruntMenuItem.cs:1383-1397 | Accepted exactly for 2 tokens. The argument is set as ComputerNames, then Start. |
| Commands.GetNetLocalGroupMember | Elite/Menu/Grunts/InteractGruntMenuItem.cs:1412-1427 | Accepted exactly for 3 tokens. The arguments are set as ComputerNames and LocalGroup, then Start. |
| Commands.GetNetLoggedOnUser | Elite/Menu/Grunts/InteractGruntMenuItem.cs:1441-1455 | Accepted exactly for 2 tokens. The argument is set as ComputerNames, then Start. |
| Commands.GetNetSession | Elite/Menu/Grunts/InteractGruntMenuItem.cs:1469-1483 | Accepted exactly for 2 tokens. The argument is set as ComputerNames, then Start. |
| Commands.ImpersonateUser | Elite/Menu/Grunts/InteractGruntMenuItem.cs:1497-1511 | Accepted exactly for 2 tokens. The argument is set as Username, then Start. |
| Commands.ImpersonateProcess | Elite/Menu/Grunts/InteractGruntMenuItem.cs:1525-1539 | Accepted exactly for 2 tokens. The argument is set as ProcessID, then Start. |
| Commands.ChangeDirectory | Elite/Menu/Grunts/InteractGruntMenuItem.cs:267-282 | Rejected unless `cd` has at least one argument. Otherwise the arguments, rejoined with single spaces, are set as Directory, then Start. |
| Commands.Mimikatz | Elite/Menu/Grunts/InteractGruntMenuItem.cs:865-880 | Rejected unless there is at least one argument. Otherwise the rejoined arguments are set as Command, then Start. |
| Commands.Rubeus | Elite/Menu/Grunts/InteractGruntMenuItem.cs:1021-1036 | Rejected unless there is at least one argument. Otherwise the rejoined arguments are set as Command, then Start. |
| Commands.SharpDPAPI | Elite/Menu/Grunts/InteractGruntMenuItem.cs:1050-1065 | Rejected unless there is at least one argument. Otherwise the rejoined arguments are set as Command, then Start. |
| Commands.SharpUp | Elite/Menu/Grunts/InteractGruntMenuItem.cs:1079-1094 | Rejected unless there is at least one argument. Otherwise the rejoined arguments are set as Command, then Start. |
| Commands.SharpWMI | Elite/Menu/Grunts/InteractGruntMenuItem.cs:1162-1177 | Rejected unless there is at least one argument. Otherwise the rejoined arguments are set as Command, then Start. |
| Commands.Seatbelt | Elite/Menu/Grunts/InteractGruntMenuItem.cs:1191-1206 | Rejected unless there is at least one argument. Otherwise the rejoined arguments are set as Command, then Start. |
| Commands.BypassUACCommand | Elite/Menu/Grunts/InteractGruntMenuItem.cs:1828-1842 | Rejected unless there is at least one argument. Otherwise the rejoined arguments are set as Command, then Start. |
| Commands.FreeTextKeepsArguments | Elite/Menu/Grunts/InteractGruntMenuItem.cs:279 | The free text cd, Mimikatz, Rubeus, SharpDPAPI, SharpUp, SharpWMI, Seatbelt, BypassUACCommand, Shell and ShellCmd stage is the rejoined argument list. When no argument holds a space, it splits back into exactly those arguments. |
| Commands.Shell | Elite/Menu/Grunts/InteractGruntMenuItem.cs:689-705 | Accepted exactly when the raw line, split at single spaces, starts with Shell and has more. The staged ShellCommand is exactly the text after the first space, so the line is its first word, a space, and the command. |
| Commands.ShellCmd | Elite/Menu/Grunts/InteractGruntMenuItem.cs:719-735 | The same as Shell, for ShellCmd. |
| Commands.PowerShell | Elite/Menu/Grunts/InteractGruntMenuItem.cs:749-768 | Accepted exactly when the raw line starts with PowerShell and has more. It stages one PowerShellCommand and then Start with the line. |
| Commands.PowerShellCode | Elite/Menu/Grunts/InteractGruntMenuItem.cs:760-765 | The staged PowerShell code is the imported script trimmed, then CR LF, then the text after the first space of the line. |
| Commands.PowerShellImport | Elite/Menu/Grunts/InteractGruntMenuItem.cs:782-809 | Accepted exactly when a file name is given and the file exists. It then stages exactly the file's content as PowerShellCommand of task PowerShell, and starts it. |
| Commands.ListDirectory | Elite/Menu/Grunts/InteractGruntMenuItem.cs:236-253 | `ls` alone stages only Start. With arguments, they are rejoined and set as Path first. |
| Commands.ExecuteAssembly | Elite/Menu/Grunts/InteractGruntMenuItem.cs:530-548 | Accepted exactly with a file argument. It sets LocalFilePath, then Parameters (the rejoined rest) only when more tokens follow, then Start. |
| Commands.AssemblyReflect | Elite/Menu/Grunts/InteractGruntMenuItem.cs:565-596 | Accepted exactly for 2 to 5 tokens. The i-th argument is set into the i-th of LocalFilePath, TypeName, MethodName, Parameters, one Set per argument, then Start. |
| Commands.PortScan | Elite/Menu/Grunts/InteractGruntMenuItem.cs:825-851 | Accepted exactly for 3 or 4 tokens. It always sets ComputerNames and Ports first. Start follows if and only if there is no fourth token or that token is true or false (which is then set as Ping). A bad Ping word leaves two Sets staged and nothing started. |
| Commands.LogonPasswords | Elite/Menu/Grunts/InteractGruntMenuItem.cs:892-906 | Any arguments are ignored. It stages Mimikatz with the fixed `privilege::debug sekurlsa::logonPasswords` command. |
| Commands.SamDump | Elite/Menu/Grunts/InteractGruntMenuItem.cs:918-932 | Stages Mimikatz with the fixed `token::elevate lsadump::sam` command. |
| Commands.LsaSecrets | Elite/Menu/Grunts/InteractGruntMenuItem.cs:944-958 | Stages Mimikatz with the fixed `token::elevate lsadump::secrets` command. |
| Commands.DcSyncCommand | Elite/Menu/Grunts/InteractGruntMenuItem.cs:986-1003 | The command built piece by piece equals the quoted, space-joined argument list: `lsadump::dcsync`, `/all` or `/user:x`, then optional `/domain:` and `/dc:`. |
| Commands.DcSyncJoin | Elite/Menu/Grunts/InteractGruntMenuItem.cs:986-1003 | The string concatenation DCSync performs equals joining its argument words with single spaces. |
| Commands.DCSync | Elite/Menu/Grunts/InteractGruntMenuItem.cs:974-1007 | Accepted exactly for 2 to 4 tokens. It stages Mimikatz with that quoted command. |
| Commands.Kerberoast | Elite/Menu/Grunts/InteractGruntMenuItem.cs:1221-1264 | Accepted exactly for 1 to 3 tokens, where a third token must be a hash format. It always stages Usernames and then a valid HashFormat. One argument is the format if it names one, else the usernames. The defaults are "" and Hashcat. |
| Commands.GetDomainUser | Elite/Menu/Grunts/InteractGruntMenuItem.cs:1278-1299 | Accepted exactly for 1 or 2 tokens. Identities is set when given and unset otherwise, then Start. |
| Commands.GetDomainGroup | Elite/Menu/Grunts/InteractGruntMenuItem.cs:1313-1334 | The same as GetDomainUser, for GetDomainGroup. |
| Commands.GetDomainComputer | Elite/Menu/Grunts/InteractGruntMenuItem.cs:1348-1369 | The same as GetDomainUser, for GetDomainComputer. |
| Commands.MakeToken | Elite/Menu/Grunts/InteractGruntMenuItem.cs:1581-1606 | Accepted exactly for 4 or 5 tokens. It sets Username, Domain, Password and LogonType in that order. The logon type defaults to LOGON32_LOGON_NEW_CREDENTIALS. |
| Commands.WMICommand | Elite/Menu/Grunts/InteractGruntMenuItem.cs:1648-1674 | Accepted exactly for at least 3 tokens. It sets ComputerName and Command. Username and Password are set only with exactly 5 tokens and are unset otherwise. |
| Commands.WMIGrunt | Elite/Menu/Grunts/InteractGruntMenuItem.cs:1691-1724 | Accepted exactly for 3 or 5 tokens naming a known launcher. Credentials follow the same rule as WMICommand. |
| Commands.DCOMCommand | Elite/Menu/Grunts/InteractGruntMenuItem.cs:1740-1763 | Accepted exactly for at least 3 tokens. Four ops (Method set before Command) if and only if there are exactly 4 tokens and the last names a DCOM method. Otherwise the rejoined rest is the Command. |
| Commands.DcomGruntAsWritten | Elite/Menu/Grunts/InteractGruntMenuItem.cs:1779-1814 | DCOMGrunt as written: accepted exactly for 3 or 4 tokens with a valid method, whatever the launcher. It then stages ComputerName, Launcher, the Method when a fourth token is given, and Start with the line. |
| Commands.DcomGruntStagesUnknownLauncher | Elite/Menu/Grunts/InteractGruntMenuItem.cs:1789-1794 | With no known launchers, `DCOMGrunt host nope` is still staged. |
| Commands.DcomGrunt | Elite/Menu/Grunts/InteractGruntMenuItem.cs:1779-1814 | DCOMGrunt with the launcher check returning. Accepted exactly for 3 or 4 tokens, a known launcher and a valid method. It stages ComputerName, Launcher, the optional Method, then Start. |
| Commands.DcomGruntCorrects | Elite/Menu/Grunts/InteractGruntMenuItem.cs:1779-1814 | The corrected DCOMGrunt either rejects or does what the code does. It accepts only a known launcher, and it differs from the code only where the code stages an unknown one. |
| Commands.BypassUACGrunt | Elite/Menu/Grunts/InteractGruntMenuItem.cs:1856-1878 | Accepted exactly for 2 tokens naming a known launcher. It sets Launcher, then Start. |
| CommandTable.Compile | Elite/Menu/Grunts/InteractGruntMenuItem.cs:2120-2175 | The menu as written, dispatching every command to its code (Set and DCOMGrunt as written). For every command and line, the outcome conforms to all of the following:<br>- a line failing the command's name and token-count check is rejected;<br>- a staged task is the command's own and ends in exactly one Start with the raw line (only PortScan may leave fields staged without a Start);<br>- posts come only from the six posting commands, which never stage, and their taskings are fresh for this Grunt;<br>- a null tasking is posted only by Set, given three tokens and an option it does not know;<br>- only an unconfirmed Kill is declined;<br>- PowerShellImport stages only a file it read, with that file's content. |
| CommandTable.CompileCorrected | Elite/Menu/Grunts/InteractGruntMenuItem.cs:2120-2175 | The menu with the two findings below corrected. It keeps all of Compile's guarantees, never posts a null tasking, and stages DCOMGrunt only with a known launcher. Wherever it differs from Compile, it rejects, and Compile either posted a null Set tasking or staged DCOMGrunt with an unknown launcher. |
| CommandTable.SetCorrection | Elite/Menu/Grunts/InteractGruntMenuItem.cs:128-197 | The corrected Set keeps Compile's guarantees and never posts a null tasking. Where it differs from the dispatched Set, it rejects and the code posted a null tasking. |
| CommandTable.SetDispatch | Elite/Menu/Grunts/InteractGruntMenuItem.cs:2120-2175 | The dispatcher runs Set as written. |
| CommandTable.SetConforms | Elite/Menu/Grunts/InteractGruntMenuItem.cs:128-197 | The corrected Set meets every guarantee the dispatcher makes, and never posts a null tasking. |
| CommandTable.DcomGruntCorrection | Elite/Menu/Grunts/InteractGruntMenuItem.cs:1779-1814 | The corrected DCOMGrunt keeps Compile's guarantees and stages only a known launcher. Where it differs from the dispatched DCOMGrunt, it rejects and the code staged an unknown launcher. |
| CommandTable.DcomGruntDispatch | Elite/Menu/Grunts/InteractGruntMenuItem.cs:2120-2175 | The dispatcher runs DCOMGrunt as written. |
| CommandTable.DcomGruntConforms | Elite/Menu/Grunts/InteractGruntMenuItem.cs:1779-1814 | The corrected DCOMGrunt meets every guarantee the dispatcher makes. |
| CommandTable.CompileLastGroup | Elite/Menu/Grunts/InteractGruntMenuItem.cs:2120-2175 | The dispatcher hands DCOMCommand and DCOMGrunt to their group. |
| TaskStore.RemoveFirst | Elite/Menu/Grunts/InteractGruntMenuItem.cs:2207 | `List.Remove`: when `t` is absent the list is unchanged. Otherwise the result is the list with exactly its first occurrence of `t` cut out, the rest in order. The result holds one copy of `t` fewer. |
| TaskStore.RefreshTwiceReorders | Elite/Menu/Grunts/InteractGruntMenuItem.cs:2203-2210 | Merging the same server list twice can reorder the history. A tasking still awaiting completion is moved behind a completed one, which stays put: `[a, b]` becomes `[b, a]`. |
| TaskStore.FirstMergeKeepsOrder | Elite/Menu/Grunts/InteractGruntMenuItem.cs:2203-2210 | Merging two taskings with different Ids into an empty history keeps server order. |
| TaskStore.SecondMergeReorders | Elite/Menu/Grunts/InteractGruntMenuItem.cs:2203-2210 | Merging `[a, b]` again, with `a` not completed and `b` completed, gives `[b, a]`. |
| TaskStore.MergeTwo | Elite/Menu/Grunts/InteractGruntMenuItem.cs:2203-2210 | A server list of two taskings is merged in two steps, in order. |
| TaskStore.MergeOneAppends | Elite/Menu/Grunts/InteractGruntMenuItem.cs:2205-2209 | A tasking the list does not hold, under an Id no local tasking holds, is appended. |
| TaskStore.MergeOneMovesFirst | Elite/Menu/Grunts/InteractGruntMenuItem.cs:2205-2209 | Merging the first of two taskings again, while its Id is not completed, moves it to the end. |
| TaskStore.MergeOneSkipsHeld | Elite/Menu/Grunts/InteractGruntMenuItem.cs:2205 | A server tasking whose Id a completed local tasking holds leaves the list as it was. |
| TaskStore.MergeStep | Elite/Menu/Grunts/InteractGruntMenuItem.cs:2203-2210 | Merging one more server tasking is one more merge step, in server order. |
| TaskStore.MergeOneBounds | Elite/Menu/Grunts/InteractGruntMenuItem.cs:2205-2209 | One merge step keeps every local tasking and adds at most the server's one. |
| TaskStore.MergeNeverLoses | Elite/Menu/Grunts/InteractGruntMenuItem.cs:2203-2210 | The merge never loses a local tasking: every local tasking survives as a multiset. |
| TaskStore.MergeAddsOnlyRemote | Elite/Menu/Grunts/InteractGruntMenuItem.cs:2203-2210 | Everything in the merged list was local or came from the server. |
| TaskStore.HeldCompletedGrows | Elite/Menu/Grunts/InteractGruntMenuItem.cs:2205 | A completed tasking holding an Id stays when the list only grows. |
| TaskStore.CompletedIdsFrozen | Elite/Menu/Grunts/InteractGruntMenuItem.cs:2203-2210 | Once a completed local tasking holds an Id, the merge leaves every record with that Id exactly as it was: none is replaced, moved in or duplicated. |
| TaskStore.MergeCoversRemote | Elite/Menu/Grunts/InteractGruntMenuItem.cs:2203-2210 | After the merge, every server tasking is in the local list unless a completed local tasking holds its Id. |
| TaskStore.FirstAwaiting | Elite/Menu/Grunts/InteractGruntMenuItem.cs:2187 | The first position with this Id and empty output; None exactly when there is none. |
| TaskStore.FirstWithId | Elite/Menu/Grunts/InteractGruntMenuItem.cs:2193 | `FindIndex`: the first position with this Id; None exactly when there is none. |
| TaskStore.RefreshOneSplices | Elite/Menu/Grunts/InteractGruntMenuItem.cs:2184-2194 | For a non-zero Id, HistoryRefresh keeps the length of the refreshed list. It changes nothing when no tasking with that Id awaits output. Otherwise it changes exactly the first position holding that Id, to the server's detailed record. |
| TaskStore.OverwritesAwaitingWhenIdsUnique | Elite/Menu/Grunts/InteractGruntMenuItem.cs:2187-2193 | When Ids are unique, the position overwritten is the one found awaiting output. |
| TaskStore.OverwriteCanMissWithSharedIds | Elite/Menu/Grunts/InteractGruntMenuItem.cs:2187-2193 | When two taskings share an Id, the record written replaces the first one, which already had output, and the awaiting one stays. |
| TaskStore.InsertByCompletion | Elite/Menu/Grunts/InteractGruntMenuItem.cs:1910 | Inserting adds exactly one tasking. |
| TaskStore.PrependKeepsOrder | Elite/Menu/Grunts/InteractGruntMenuItem.cs:1910 | A tasking no later than the head keeps a completion-ordered list ordered. |
| TaskStore.InsertKeepsOrder | Elite/Menu/Grunts/InteractGruntMenuItem.cs:1910 | Insertion keeps a completion-ordered list ordered. |
| TaskStore.SortByCompletion | Elite/Menu/Grunts/InteractGruntMenuItem.cs:1910 | `OrderBy(CompletionTime)`: the result is ordered by completion time and is a permutation of the input. |
| TaskStore.TakeLast | Elite/Menu/Grunts/InteractGruntMenuItem.cs:1936 | `TakeLast(k)`: the suffix of length k, clamped to 0 and to the length. |
| TaskStore.SuffixIsPart | Elite/Menu/Grunts/InteractGruntMenuItem.cs:1936 | A suffix is a sub-multiset of the list. |
| TaskStore.SuffixInOrder | Elite/Menu/Grunts/InteractGruntMenuItem.cs:1936 | A suffix of a completion-ordered list is ordered. |
| TaskStore.LastShownAreLocal | Elite/Menu/Grunts/InteractGruntMenuItem.cs:1936-1939 | The last k taskings by completion time are local taskings. |
| TaskStore.LastShownInOrder | Elite/Menu/Grunts/InteractGruntMenuItem.cs:1936-1939 | The last k taskings by completion time are in completion order. |
| TaskStore.LastShownAreLatest | Elite/Menu/Grunts/InteractGruntMenuItem.cs:1936-1939 | `History <k>` shows min(k, n) taskings (none for k ≤ 0). They are the last ones in completion order, all local and ordered. None of the taskings left out completed later than one shown. |
| TaskStore.FirstByName | Elite/Menu/Grunts/InteractGruntMenuItem.cs:1928 | `FirstOrDefault`: Some exactly when some tasking has that name (ignoring case). It is then the first so named: no earlier tasking has that name. |
| TaskStore.FirstByNameInOrder | Elite/Menu/Grunts/InteractGruntMenuItem.cs:1928-1931 | Looking a name up in the completion-ordered list finds a tasking exactly when the list holds one so named. It is then one of the list's own taskings, and the earliest completed so named. |
| TaskStore.Select | Elite/Menu/Grunts/InteractGruntMenuItem.cs:1925-1949 | A name match wins over a number. ByQuantity carries the parsed number. Unrecognised exactly when the word is neither a name nor a number. |
| TaskStore.Names | Elite/Menu/Grunts/InteractGruntMenuItem.cs:52 | The names of the taskings, position by position. |
| TaskStore.CompletedOnly | Elite/Menu/Grunts/InteractGruntMenuItem.cs:53-54 | `Where(Status == Completed)`: each kept tasking is completed and local, and every completed one is kept. A completed tasking is kept as many times as the list holds it; any other, never. |
| TaskStore.CompletedOnlyCounts | Elite/Menu/Grunts/InteractGruntMenuItem.cs:53-54 | The filter keeps each completed tasking as often as the list holds it, and nothing else. |
| TaskStore.CompletedOnlyAppend | Elite/Menu/Grunts/InteractGruntMenuItem.cs:53-54 | The filter keeps relative order: filtering two lists joined gives the two filtered lists joined. |
| InteractMenu.HistoryRefuses | Elite/Menu/Grunts/InteractGruntMenuItem.cs:1899-1953 | History is invalid exactly for a malformed line, or a word that is neither a tasking name nor a number. The history is then unchanged. |
| InteractMenu.HistoryShowsAll | Elite/Menu/Grunts/InteractGruntMenuItem.cs:1913-1922 | `History` reloads the detailed list and shows all of it, in completion order. |
| InteractMenu.HistoryShowsNamed | Elite/Menu/Grunts/InteractGruntMenuItem.cs:1926-1932 | `History <name>` shows a tasking exactly when the refreshed history holds one so named. It is then the first so named in completion order. `OneTasking(None)` arises only when a name matched before the reload is gone after it; there the source prints a null tasking and fails with a null reference. |
| InteractMenu.HistoryShowsLatest | Elite/Menu/Grunts/InteractGruntMenuItem.cs:1925-1944 | `History <k>` is shown only for a parsed number k. It shows the latest min(k, n) taskings of the refreshed history (none for k ≤ 0), in completion order. |
| InteractMenu.GruntInteractMenu.constructor | Elite/Menu/Grunts/InteractGruntMenuItem.cs:2102-2110 | A new menu has an empty history and nothing imported. |
| InteractMenu.GruntInteractMenu.Refresh | Elite/Menu/Grunts/InteractGruntMenuItem.cs:2197-2238 | The history becomes the merge of the server list into the old history, one tasking at a time. Nothing changes when the refresh fails before the merge, and no other field changes. |
| InteractMenu.GruntInteractMenu.HistoryRefresh | Elite/Menu/Grunts/InteractGruntMenuItem.cs:2178-2195 | The history becomes `RefreshOne` of the old history. Id 0 reloads it; any other Id refreshes and then splices in (see RefreshOneSplices). |
| InteractMenu.GruntInteractMenu.History | Elite/Menu/Grunts/InteractGruntMenuItem.cs:1899-1953 | The new history and the printed view are `HistoryState` and `HistoryShown` of the old history (see HistoryRefuses, HistoryShowsAll, HistoryShowsNamed and HistoryShowsLatest). The last-k branch refreshes each sampled tasking in order. |
| InteractMenu.GruntInteractMenu.Show | Elite/Menu/Grunts/InteractGruntMenuItem.cs:28-57 | Refreshes the history, then lists the names of all taskings and of the completed ones. |
| InteractMenu.GruntInteractMenu.Execute | Elite/Menu/Grunts/InteractGruntMenuItem.cs:782-809 | Running a command gives `Compile` against the menu's state. The history is untouched. Only a successful PowerShellImport changes the menu: it keeps the file's content as the imported script. |
| Text.SplitSpace | Elite/Menu/Grunts/InteractGruntMenuItem.cs:691 | `Split(" ")` yields at least one piece, and no piece contains a space. |
| Text.JoinOfSplit | Elite/Menu/Grunts/InteractGruntMenuItem.cs:691-699 | Joining the pieces of a line with single spaces gives the line back. |
| Text.SplitOfJoin | Elite/Menu/Grunts/InteractGruntMenuItem.cs:691-699 | Splitting space-free words after joining them gives the words back. |
| Text.JoinSnoc | Elite/Menu/Grunts/InteractGruntMenuItem.cs:986-1003 | Joining one more word appends a space and the word. |
| Text.HeadSpaceTail | Elite/Menu/Grunts/InteractGruntMenuItem.cs:691-699 | A line of two or more pieces is its first piece, a space, and the rejoined rest. |
| Text.NatToDigits | Elite/Menu/Grunts/InteractGruntMenuItem.cs:150 | The decimal spelling denotes the number, and has no leading zero. |
| Text.ParseInt | Elite/Menu/Grunts/InteractGruntMenuItem.cs:138 | `int.TryParse` yields only 32-bit values, and only for text that is an optional sign followed by one or more decimal digits. (The value it yields is stated by the lemmas below.) |
| Text.ParseRejectsMalformed | Elite/Menu/Grunts/InteractGruntMenuItem.cs:138 | The empty text, a lone sign, a letter after a digit, a sign after a digit and a word are not numbers. |
| Text.ParseOfIntToString | Elite/Menu/Grunts/InteractGruntMenuItem.cs:138-150 | Printing a 32-bit integer and parsing the text gives the integer back. |
| Text.IntToStringCanonical | Elite/Menu/Grunts/InteractGruntMenuItem.cs:150 | `ToString` spells every integer canonically: no leading zero, no plus sign, no `-0`. |
| Text.IntToStringOfParse | Elite/Menu/Grunts/InteractGruntMenuItem.cs:138-150 | Text that parses and is spelt the way `ToString` spells numbers prints back unchanged. |
| Text.DigitsOfValue | Elite/Menu/Grunts/InteractGruntMenuItem.cs:138-150 | Digits with no leading zero are exactly how their number is printed. |
| Text.DigitsPositive | Elite/Menu/Grunts/InteractGruntMenuItem.cs:138 | Digits not starting with a zero denote at least 1, and at least 10 when there are two or more. |
| Text.ParseDigits | Elite/Menu/Grunts/InteractGruntMenuItem.cs:138 | Digits within the 32-bit range parse to the number they denote. |
| Text.ParseNegative | Elite/Menu/Grunts/InteractGruntMenuItem.cs:138 | A minus sign before digits denoting at most 2147483648 parses to the negated number, so `-2147483648` parses too. |
| Text.ParsePlus | Elite/Menu/Grunts/InteractGruntMenuItem.cs:1925 | A leading `+` parses like no sign (`History +3` is `History 3`). |
| Text.ParseLeadingZero | Elite/Menu/Grunts/InteractGruntMenuItem.cs:138 | A leading zero parses like no digit (`Set delay 007` sets 7). |
| Text.DigitsValueLeadingZero | Elite/Menu/Grunts/InteractGruntMenuItem.cs:138 | A leading zero does not change the number digits denote. |
| Text.TrimStartKeepsSuffix | Elite/Menu/Grunts/InteractGruntMenuItem.cs:760 | `TrimStart` keeps a suffix that starts with a non-white character and drops only white space. |
| Text.TrimEndKeepsPrefix | Elite/Menu/Grunts/InteractGruntMenuItem.cs:760 | `TrimEnd` keeps a prefix that ends with a non-white character and drops only white space. |
| Text.TrimIsSlice | Elite/Menu/Grunts/InteractGruntMenuItem.cs:760 | `Trim` keeps one contiguous slice that neither starts nor ends with white space, and drops only white space. |

Notes where the code behaves other than its description would suggest. The model follows the code in each case:
- PortScan stages ComputerNames and Ports before it checks the Ping word. A bad Ping word therefore leaves them staged in the Task menu with nothing started.
- DCOMCommand stages Method before Command, and it reads a trailing method only when there are exactly four tokens.
- MakeToken keeps defaults for Username, Domain and Password, but the token-count check makes them unreachable.
- HistoryRefresh looks for a tasking with that Id that has no output. It then writes the detailed record at the first position holding that Id, which differs when two local taskings share an Id (`TaskStore.OverwriteCanMissWithSharedIds`).
- Shell, ShellCmd, PowerShell, SharpShell, Connect, Disconnect and Jobs split the raw line at single spaces. All other commands use the tokenizer's list.
- A Refresh removes each server tasking and appends it again, unless a completed local tasking holds its Id. Repeating a refresh therefore moves taskings still awaiting completion behind completed ones, so the local order is not server order (`TaskStore.RefreshTwiceReorders`).

## Left out

- Console output, colours, menus, `PrintTasking` formatting and auto-completion are not modelled. The History command's result is the list of taskings it would print.
- The `Utilities.ParseParameters` tokenizer is not part of this model. Each input carries the token list it produced next to the raw line.
- Server calls are parameters, and the server is a fixed snapshot for the duration of one command:
  - the tasking list, the detailed list and the detailed record by Id (`Server`);
  - the GruntTask SharpShell creates (its id is a parameter);
  - the Grunt Disconnect looks up by name (its Guid or None).
- Posting a tasking, and what the server then does with it, is the `Post` outcome. The HTTP call is not modelled.
- SharpShell's GruntTask body (the C# wrapper format, its reference assemblies and the code it embeds) is not modelled. Only the posted tasking is.
- Exceptions are not modelled, beyond a failed refresh. `listing` is None when the refresh fails before the merge. A request that fails after the merge (the launcher list) leaves the merge done, and the model does not distinguish that case.
- `Refresh` also reloads the Grunt, its Children and the Launchers, and resets the parameter value lists of Upload, Assembly, AssemblyReflect, PowerShellImport, History and Disconnect. These are not modelled. `children` and `launchers` are fields the caller sets.
- The Grunt detail rows that Show prints (host, user, delay, …) are not modelled. Only the two tasking-name lists are.
- The Task menu that receives `Set`, `Unset` and `Start` is not part of this model, including `ValidateMenuParameters` and how Set parses its own line. Staged operations are its inputs.
- File I/O: PowerShellImport's file is a parameter holding the file's content, or None when the file does not exist.
- Random tasking names (`Guid.NewGuid`) are a parameter.
- After `Start`, every staging command calls `task.LeavingMenuItem()` on the Task menu. That call belongs to the Task menu, which is not part of this model.
- `Text.Upper`: the case folding is ASCII-only, where .NET's ordinal ignore-case comparison folds all of Unicode.
- `Text.ParseInt`: leading and trailing white space and culture-specific signs accepted by `int.TryParse` are not modelled.
- `Text.IsWhiteSpace`: limited to the Latin-1 white-space characters.
- A null tasking Id is modelled as 0 and a null output as "". This is what `?? default` and `IsNullOrEmpty` make of them.
- `TaskStore.RemoveFirst`: compares taskings by value. The generated `GruntTasking` class is not part of this model. If it compares by reference, `Remove` drops nothing and the merge only appends.
- `TaskStore.SortByCompletion`: sorts by completion time and yields a permutation, but its stability (`OrderBy` keeps equal keys in their original order) is not proved.
- `TaskStore.FirstByName`: a tasking with a null name is not modelled (names are strings).

## Findings

| source | as written | input that shows it | evidently intended | confidence | as-written member | corrected member |
|---|---|---|---|---|---|---|
| Elite/Menu/Grunts/InteractGruntMenuItem.cs:140-185 | Set with an option other than delay, jitterpercent or connectattempts leaves `tasking` null and still posts it | `Set foo 5` | reject the unknown option like a non-numeric value | not executed | Commands.SetUnknownOptionPostsNull | Commands.GruntSet |
| Elite/Menu/Grunts/InteractGruntMenuItem.cs:1789-1794 | DCOMGrunt reports an unknown launcher but does not return, so the unknown launcher is staged and started | `DCOMGrunt host nope` with no launcher named nope | return after the report, as WMIGrunt and BypassUACGrunt do | not executed | Commands.DcomGruntStagesUnknownLauncher | Commands.DcomGrunt |

`CommandTable.Compile`, and so the menu object, runs the code as written (`Commands.SetAsWritten`, `Commands.DcomGruntAsWritten`). The as-written members in the table exhibit the defect on those definitions. `CommandTable.CompileCorrected` runs the corrected members in their place.
