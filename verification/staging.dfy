/**
 * The vocabulary of the command compiler: what one input line looks like, the
 * primitive operations a command issues against the sibling Task menu
 * (ValidateMenuParameters, then `Set <Field> <value>` / `Unset <Field>`, then
 * `Start`), the GruntTasking a command posts directly, and the shared check of
 * the command name and the number of tokens.
 */
module Staging {
  import opened Wrappers
  import opened Text

  /**
   * One input line: the raw text the operator typed, and the token list
   * `Utilities.ParseParameters` made of it (that tokenizer is not part of this model).
   */
  datatype Input = Input(line: string, tokens: seq<string>)

  /** The option names that commands pass to the Task menu's `Set` and `Unset`. */
  datatype Field =
    | Path | Directory | RegPath | Value | Hostname | LocalFilePath | FileName
    | Parameters | TypeName | MethodName | ShellCommand | PowerShellCommand
    | ComputerNames | Ports | Ping | Command | Usernames | HashFormat | Identities
    | LocalGroup | Username | ProcessID | Domain | Password | LogonType
    | ComputerName | Launcher | Method

  /**
   * `Set <field> <value>`, `Unset <field>`, or `Start` (which receives the raw
   * input line and submits the staged task).
   */
  datatype StagingOp = Set(field: Field, value: string) | Unset(field: Field) | Start(input: string)

  datatype TaskingStatus = Uninitialized | Tasked | Progressed | Completed

  /** The GruntTaskingType values that commands build directly. */
  datatype TaskingType = Kill | SetDelay | SetJitter | SetConnectAttempts | Assembly | Connect | Disconnect | Jobs

  /** A GruntTasking as a command builds it before posting it. */
  datatype Descriptor = Descriptor(
    id: int,
    gruntId: int,
    taskId: int,
    name: Option<string>,
    status: TaskingStatus,
    kind: TaskingType,
    message: Option<string>,
    command: string,
    tokenTask: bool)

  /**
   * What a command does with one line.
   * Reject: a usage error; nothing is staged and nothing is posted.
   * Declined: Kill whose confirmation was not "y"; nothing is posted.
   * Staged: `ValidateMenuParameters(task)` and then `ops`, in order.
   * Post: a GruntTasking built by the command and posted to the server.
   * PostNull: a post whose tasking is null.
   */
  datatype Outcome =
    | Reject
    | Declined
    | Staged(task: string, ops: seq<StagingOp>)
    | Post(tasking: Descriptor)
    | PostNull

  /** The token-count bound a command checks first. */
  datatype Arity = Exactly(n: nat) | AtLeast(lo: nat) | Between(lo: nat, hi: nat) | EitherOf(a: nat, b: nat)

  predicate Fits(count: nat, arity: Arity) {
    match arity
    case Exactly(n) => count == n
    case AtLeast(lo) => lo <= count
    case Between(lo, hi) => lo <= count <= hi
    case EitherOf(a, b) => count == a || count == b
  }

  /** The first token names the command, compared ignoring case. */
  predicate NameMatches(t: seq<string>, name: string) {
    |t| > 0 && EqualsIgnoreCase(t[0], name)
  }

  /** The guard every command applies before anything else. */
  predicate Admits(t: seq<string>, name: string, arity: Arity) {
    NameMatches(t, name) && Fits(|t|, arity)
  }

  /** Staging ops that end in exactly one `Start`, which carries the raw line. */
  predicate Committed(ops: seq<StagingOp>, line: string) {
    && |ops| > 0
    && ops[|ops| - 1] == Start(line)
    && forall i :: 0 <= i < |ops| - 1 ==> !ops[i].Start?
  }

  /** Staging ops with no `Start` at all: fields were staged but nothing was submitted. */
  predicate Uncommitted(ops: seq<StagingOp>) {
    forall i :: 0 <= i < |ops| ==> !ops[i].Start?
  }

  /** A GruntTasking as every command creates it: no server id yet, not yet queued, no token flag, the raw line as its command. */
  predicate Fresh(d: Descriptor, gruntId: int, line: string) {
    d.id == 0 && d.gruntId == gruntId && d.status == Uninitialized && !d.tokenTask && d.command == line
  }
}
