/**
 * The Grunt interact menu as an object: the Grunt it talks to, the children and
 * launchers it last fetched, the PowerShell script last imported, and the local
 * tasking history it keeps merging with the server's. Commands read this state; the
 * History command and the refreshes update the history in place.
 */
module InteractMenu {
  import opened Wrappers
  import opened Text
  import opened Staging
  import opened TaskStore
  import CommandTable

  /** What the History command prints. */
  datatype HistoryView =
    | Invalid                                // a usage error; nothing is refreshed
    | Everything(all: seq<Tasking>)          // `History`: the whole history
    // `History <name>`. `None` only when the name matched before the reload and is
    // gone after it: the source then prints a null tasking and fails with a null
    // reference instead of printing nothing.
    | OneTasking(tasking: Option<Tasking>)
    | LastFew(shown: seq<Tasking>)           // `History <k>`

  /** What the History command checks before anything else. */
  predicate HistoryAdmits(t: seq<string>) {
    Admits(t, "History", Between(1, 2))
  }

  /** The local history after the History command with tokens `t`. */
  function HistoryState(ts: seq<Tasking>, t: seq<string>, server: Server): seq<Tasking> {
    if !HistoryAdmits(t) then ts
    else if |t| == 1 then server.detailed
    else
      var sorted := SortByCompletion(ts);
      match Select(sorted, t[1])
      case ByName(x) => RefreshOne(ts, x.id, server)
      case ByQuantity(q) => RefreshEach(ts, TakeLast(sorted, q), server)
      case Unrecognised => ts
  }

  /**
   * What the History command with tokens `t` prints. The word is read against the
   * history as it was before the command; what is printed is read from the history
   * after its refreshes.
   */
  function HistoryShown(ts: seq<Tasking>, t: seq<string>, server: Server): HistoryView {
    if !HistoryAdmits(t) then Invalid
    else
      var after := SortByCompletion(HistoryState(ts, t, server));
      if |t| == 1 then Everything(after)
      else
        match Select(SortByCompletion(ts), t[1])
        case ByName(_) => OneTasking(FirstByName(after, t[1]))
        case ByQuantity(q) => LastFew(TakeLast(after, q))
        case Unrecognised => Invalid
  }

  /**
   * The History command refuses exactly the malformed lines and the words that name
   * no tasking and are no number, and then changes nothing.
   */
  lemma HistoryRefuses(ts: seq<Tasking>, t: seq<string>, server: Server)
    ensures var v := HistoryShown(ts, t, server);
      && (v.Invalid? <==> (!HistoryAdmits(t)
            || (|t| == 2 && FirstByName(SortByCompletion(ts), t[1]).None? && ParseInt(t[1]).None?)))
      && (v.Invalid? ==> HistoryState(ts, t, server) == ts)
  {
  }

  /** `History` fetches the detailed list, keeps it, and prints all of it in completion order. */
  lemma HistoryShowsAll(ts: seq<Tasking>, t: seq<string>, server: Server)
    ensures var after := HistoryState(ts, t, server);
      var v := HistoryShown(ts, t, server);
      v.Everything? ==> (|t| == 1 && after == server.detailed
        && multiset(v.all) == multiset(after) && ByCompletion(v.all))
  {
  }

  /**
   * `History <name>` prints a tasking exactly when the refreshed history holds one so
   * named, and then the first so named in completion order.
   */
  lemma HistoryShowsNamed(ts: seq<Tasking>, t: seq<string>, server: Server)
    ensures var after := HistoryState(ts, t, server);
      var sorted := SortByCompletion(after);
      var v := HistoryShown(ts, t, server);
      v.OneTasking? ==> (|t| == 2
        && (v.tasking.Some? <==> exists x :: x in after && EqualsIgnoreCase(x.name, t[1]))
        && (v.tasking.Some? ==> (v.tasking.value in after && EqualsIgnoreCase(v.tasking.value.name, t[1])
              && exists i :: 0 <= i < |sorted| && sorted[i] == v.tasking.value && NoneNamedBefore(sorted, t[1], i))))
  {
    var after := HistoryState(ts, t, server);
    var v := HistoryShown(ts, t, server);
    if v.OneTasking? {
      assert v.tasking == FirstByName(SortByCompletion(after), t[1]);
      FirstByNameInOrder(after, t[1]);
    }
  }

  /**
   * `History <k>` prints k taskings of the refreshed history (all when there are
   * fewer, none when k is not positive), in completion order, and none left out
   * completed later than one shown.
   */
  lemma HistoryShowsLatest(ts: seq<Tasking>, t: seq<string>, server: Server)
    ensures var v := HistoryShown(ts, t, server);
      v.LastFew? ==> (|t| == 2 && ParseInt(t[1]).Some?
        && ShowsLatest(v.shown, HistoryState(ts, t, server), ParseInt(t[1]).value))
  {
    var after := HistoryState(ts, t, server);
    var v := HistoryShown(ts, t, server);
    if v.LastFew? {
      assert HistoryAdmits(t) && |t| == 2;
      var sel := Select(SortByCompletion(ts), t[1]);
      assert sel.ByQuantity?;
      var q := sel.quantity;
      assert ParseInt(t[1]) == Some(q);
      assert v.shown == TakeLast(SortByCompletion(after), q);
      LastShownAreLatest(after, q);
    }
  }

  /** The interact menu of one Grunt. */
  class GruntInteractMenu {
    var gruntId: int
    var children: seq<string>
    var launchers: seq<string>
    var tasks: seq<Tasking>
    var powerShellImport: string

    /** A menu starts with an empty history and nothing imported. */
    constructor (gruntId: int, children: seq<string>, launchers: seq<string>)
      ensures this.gruntId == gruntId && this.children == children && this.launchers == launchers
      ensures tasks == [] && powerShellImport == ""
    {
      this.gruntId := gruntId;
      this.children := children;
      this.launchers := launchers;
      tasks := [];
      powerShellImport := "";
    }

    /** The state a command reads. */
    function Session(): CommandTable.Session
      reads this
    {
      CommandTable.Session(gruntId, children, launchers, powerShellImport)
    }

    /**
     * Merges the server's tasking list into the history, one server tasking at a
     * time: unless a completed local tasking holds its Id, the first equal local
     * tasking is removed and the server's is appended. `listing` is None when the
     * refresh failed before the merge, and then nothing changes.
     */
    method Refresh(listing: Option<seq<Tasking>>)
      modifies this
      ensures tasks == Merged(old(tasks), listing)
      ensures gruntId == old(gruntId) && children == old(children) && launchers == old(launchers)
      ensures powerShellImport == old(powerShellImport)
    {
      if listing.Some? {
        var remote := listing.value;
        var i := 0;
        while i < |remote|
          invariant 0 <= i <= |remote|
          invariant tasks == MergeAll(old(tasks), remote[..i])
          invariant gruntId == old(gruntId) && children == old(children) && launchers == old(launchers)
          invariant powerShellImport == old(powerShellImport)
        {
          var t := remote[i];
          MergeStep(old(tasks), remote, i);
          if !HeldCompleted(tasks, t.id) {
            tasks := RemoveFirst(tasks, t) + [t];
          }
          i := i + 1;
        }
        assert remote[..|remote|] == remote;
      }
    }

    /**
     * Id 0 reloads the whole detailed history. Any other Id refreshes the history;
     * then, if a tasking with that Id still has no output, the detailed record
     * replaces the first tasking holding that Id.
     */
    method HistoryRefresh(id: int, server: Server)
      modifies this
      ensures tasks == RefreshOne(old(tasks), id, server)
      ensures gruntId == old(gruntId) && children == old(children) && launchers == old(launchers)
      ensures powerShellImport == old(powerShellImport)
    {
      if id == 0 {
        tasks := server.detailed;
      } else {
        Refresh(server.listing);
        var awaiting := FirstAwaiting(tasks, id);
        if awaiting.None? {
          return;
        }
        var k := FirstWithId(tasks, id);
        tasks := tasks[k.value := server.detail(id)];
      }
    }

    /** The History command: `History`, `History <name>` or `History <k>`. */
    method History(inp: Input, server: Server) returns (view: HistoryView)
      modifies this
      ensures tasks == HistoryState(old(tasks), inp.tokens, server)
      ensures view == HistoryShown(old(tasks), inp.tokens, server)
      ensures gruntId == old(gruntId) && children == old(children) && launchers == old(launchers)
      ensures powerShellImport == old(powerShellImport)
    {
      var t := inp.tokens;
      if !HistoryAdmits(t) {
        return Invalid;
      }
      if |t| == 1 {
        HistoryRefresh(0, server);
        return Everything(SortByCompletion(tasks));
      }
      var sorted := SortByCompletion(tasks);
      var sel := Select(sorted, t[1]);
      match sel
      case ByName(x) =>
        HistoryRefresh(x.id, server);
        view := OneTasking(FirstByName(SortByCompletion(tasks), t[1]));
      case ByQuantity(q) =>
        var sample := TakeLast(sorted, q);
        var i := 0;
        while i < |sample|
          invariant 0 <= i <= |sample|
          invariant tasks == RefreshEach(old(tasks), sample[..i], server)
          invariant gruntId == old(gruntId) && children == old(children) && launchers == old(launchers)
          invariant powerShellImport == old(powerShellImport)
        {
          HistoryRefresh(sample[i].id, server);
          assert sample[..i + 1][..i] == sample[..i];
          i := i + 1;
        }
        assert sample[..|sample|] == sample;
        view := LastFew(TakeLast(SortByCompletion(tasks), q));
      case Unrecognised =>
        view := Invalid;
    }

    /**
     * The Show command: refreshes, then lists the names of all taskings and of the
     * completed ones.
     */
    method Show(listing: Option<seq<Tasking>>) returns (allNames: seq<string>, completedNames: seq<string>)
      modifies this
      ensures tasks == Merged(old(tasks), listing)
      ensures allNames == Names(tasks) && completedNames == Names(CompletedOnly(tasks))
      ensures gruntId == old(gruntId) && children == old(children) && launchers == old(launchers)
      ensures powerShellImport == old(powerShellImport)
    {
      Refresh(listing);
      allNames := Names(tasks);
      completedNames := Names(CompletedOnly(tasks));
    }

    /**
     * Runs one compiling command against this menu. Only PowerShellImport changes the
     * menu: once its file is read, the content is kept for later PowerShell commands.
     */
    method Execute(cmd: CommandTable.Cmd, inp: Input, a: CommandTable.Answers) returns (r: Outcome)
      requires CommandTable.IndexesUnchecked(cmd) ==> |inp.tokens| > 0
      modifies this
      ensures r == CommandTable.Compile(cmd, inp, old(Session()), a)
      ensures powerShellImport ==
        if cmd == CommandTable.PowerShellImport && r.Staged? then a.importedFile.value else old(powerShellImport)
      ensures tasks == old(tasks)
      ensures gruntId == old(gruntId) && children == old(children) && launchers == old(launchers)
    {
      r := CommandTable.Compile(cmd, inp, Session(), a);
      if cmd == CommandTable.PowerShellImport && r.Staged? {
        powerShellImport := a.importedFile.value;
      }
    }
  }
}
