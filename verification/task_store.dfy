/**
 * The Grunt's tasking history as the interact menu keeps it: the merge of the
 * server's tasking list into the local list, the splice of one detailed tasking,
 * and the selection the History command makes (by name, or the last few by
 * completion time).
 */
module TaskStore {
  import opened Wrappers
  import opened Text
  import opened Staging

  /**
   * A GruntTasking as the history keeps it. An absent Id is 0 (the code reads it
   * with `?? default`), and an absent output is "".
   */
  datatype Tasking = Tasking(id: int, name: string, status: TaskingStatus, completionTime: int, output: string)

  /**
   * What the server answers during one command: the Grunt's tasking list (None when
   * that request, or one the refresh makes before it, fails; a request failing after
   * it leaves the merge done), the detailed list, and the detailed record of a
   * tasking by Id.
   */
  datatype Server = Server(listing: Option<seq<Tasking>>, detailed: seq<Tasking>, detail: int -> Tasking)

  // ---- the Refresh merge ----

  /** Some local tasking with this Id has already completed. */
  predicate HeldCompleted(ts: seq<Tasking>, id: int) {
    exists i :: 0 <= i < |ts| && ts[i].id == id && ts[i].status == Completed
  }

  /** The position of the first tasking equal to `t`. */
  function IndexOf(ts: seq<Tasking>, t: Tasking): (k: nat)
    requires t in ts
    ensures k < |ts| && ts[k] == t && t !in ts[..k]
  {
    if ts[0] == t then 0
    else
      var k := IndexOf(ts[1..], t) + 1;
      assert ts[..k] == [ts[0]] + ts[1..][..k - 1];
      k
  }

  /** `List.Remove`: drops the first element equal to `t`, if there is one; the others keep their order. */
  function RemoveFirst(ts: seq<Tasking>, t: Tasking): (r: seq<Tasking>)
    ensures multiset(r) == multiset(ts) - multiset{t}
    ensures t !in ts ==> r == ts
    ensures t in ts ==> exists k :: 0 <= k < |ts| && ts[k] == t && t !in ts[..k] && r == ts[..k] + ts[k + 1..]
  {
    if t !in ts then ts
    else
      var k := IndexOf(ts, t);
      assert ts == ts[..k] + [t] + ts[k + 1..];
      ts[..k] + ts[k + 1..]
  }

  /**
   * One step of the Refresh merge: a server tasking whose Id is held by a completed
   * local tasking is ignored; any other is removed (first equal element) and appended.
   */
  function MergeOne(ts: seq<Tasking>, t: Tasking): seq<Tasking> {
    if HeldCompleted(ts, t.id) then ts else RemoveFirst(ts, t) + [t]
  }

  /** The Refresh merge of the whole server list, one tasking at a time in server order. */
  function MergeAll(ts: seq<Tasking>, remote: seq<Tasking>): seq<Tasking> {
    if |remote| == 0 then ts
    else MergeOne(MergeAll(ts, remote[..|remote| - 1]), remote[|remote| - 1])
  }

  /** The local list after a Refresh whose tasking request answered `listing`. */
  function Merged(ts: seq<Tasking>, listing: Option<seq<Tasking>>): seq<Tasking> {
    match listing
    case None => ts
    case Some(remote) => MergeAll(ts, remote)
  }

  /** Merging one more server tasking is one more merge step. */
  lemma MergeStep(ts: seq<Tasking>, remote: seq<Tasking>, i: nat)
    requires i < |remote|
    ensures MergeAll(ts, remote[..i + 1]) == MergeOne(MergeAll(ts, remote[..i]), remote[i])
  {
    assert remote[..i + 1][..i] == remote[..i];
  }

  /**
   * Merging the same server list twice can reorder the history: a tasking still
   * awaiting completion is moved behind one that has completed, which stays put.
   */
  lemma RefreshTwiceReorders()
    ensures var a := Tasking(1, "a", Tasked, 0, "");
      var b := Tasking(2, "b", Completed, 1, "x");
      && MergeAll([], [a, b]) == [a, b]
      && MergeAll([a, b], [a, b]) == [b, a]
  {
    var a := Tasking(1, "a", Tasked, 0, "");
    var b := Tasking(2, "b", Completed, 1, "x");
    FirstMergeKeepsOrder(a, b);
    SecondMergeReorders(a, b);
  }

  lemma FirstMergeKeepsOrder(a: Tasking, b: Tasking)
    requires a != b && a.id != b.id
    ensures MergeAll([], [a, b]) == [a, b]
  {
    MergeTwo([], a, b);
    MergeOneAppends([], a);
    MergeOneAppends([a], b);
  }

  lemma SecondMergeReorders(a: Tasking, b: Tasking)
    requires a.id != b.id && a.status != Completed && b.status == Completed
    ensures MergeAll([a, b], [a, b]) == [b, a]
  {
    MergeTwo([a, b], a, b);
    MergeOneMovesFirst(a, b);
    MergeOneSkipsHeld(b, a);
  }

  /** Merging a server list of two taskings is two merge steps. */
  lemma MergeTwo(ts: seq<Tasking>, x: Tasking, y: Tasking)
    ensures MergeAll(ts, [x, y]) == MergeOne(MergeOne(ts, x), y)
  {
    var xy := [x, y];
    MergeStep(ts, xy, 0);
    MergeStep(ts, xy, 1);
    assert xy[..0] == [] && xy[..1] == [x] && xy[..2] == xy;
  }

  /** A tasking the list does not hold, under an Id no completed tasking holds, is appended. */
  lemma MergeOneAppends(ts: seq<Tasking>, t: Tasking)
    requires t !in ts && forall i :: 0 <= i < |ts| ==> ts[i].id != t.id
    ensures MergeOne(ts, t) == ts + [t]
  {
  }

  /** Merging the first of two taskings again, while its Id is not completed, moves it behind the second. */
  lemma MergeOneMovesFirst(a: Tasking, b: Tasking)
    requires a.id != b.id && a.status != Completed
    ensures MergeOne([a, b], a) == [b, a]
  {
    var ab := [a, b];
    assert !HeldCompleted(ab, a.id);
    assert IndexOf(ab, a) == 0;
    assert ab[1..] == [b];
  }

  /** A tasking whose Id a completed local tasking holds leaves the list alone. */
  lemma MergeOneSkipsHeld(b: Tasking, a: Tasking)
    requires b.status == Completed
    ensures MergeOne([b, a], b) == [b, a]
  {
    assert [b, a][0] == b;
  }

  lemma MergeOneBounds(ts: seq<Tasking>, t: Tasking)
    ensures multiset(ts) <= multiset(MergeOne(ts, t)) <= multiset(ts) + multiset{t}
  {
    if !HeldCompleted(ts, t.id) {
      var r := RemoveFirst(ts, t);
      assert multiset(r + [t]) == multiset(r) + multiset{t};
      assert multiset(r) == multiset(ts) - multiset{t};
    }
  }

  /** The merge never loses a local tasking: removing a tasking always goes with appending an equal one. */
  lemma {:induction false} MergeNeverLoses(ts: seq<Tasking>, remote: seq<Tasking>)
    ensures multiset(ts) <= multiset(MergeAll(ts, remote))
  {
    if |remote| > 0 {
      var init := remote[..|remote| - 1];
      var last := remote[|remote| - 1];
      var mid := MergeAll(ts, init);
      assert MergeAll(ts, remote) == MergeOne(mid, last);
      MergeNeverLoses(ts, init);
      MergeOneBounds(mid, last);
    }
  }

  lemma {:induction false} MergeAddsOnlyRemote(ts: seq<Tasking>, remote: seq<Tasking>)
    ensures multiset(MergeAll(ts, remote)) <= multiset(ts) + multiset(remote)
  {
    if |remote| > 0 {
      var init := remote[..|remote| - 1];
      var last := remote[|remote| - 1];
      var mid := MergeAll(ts, init);
      var r := MergeOne(mid, last);
      assert MergeAll(ts, remote) == r;
      MergeAddsOnlyRemote(ts, init);
      MergeOneBounds(mid, last);
      SnocMultiset(remote);
      AddBound(multiset(r), multiset(mid), multiset(ts), multiset(init), last);
    }
  }

  lemma SnocMultiset(s: seq<Tasking>)
    requires |s| > 0
    ensures multiset(s) == multiset(s[..|s| - 1]) + multiset{s[|s| - 1]}
  {
    assert s == s[..|s| - 1] + [s[|s| - 1]];
  }

  lemma AddBound(r: multiset<Tasking>, mid: multiset<Tasking>, ts: multiset<Tasking>, init: multiset<Tasking>, last: Tasking)
    requires r <= mid + multiset{last}
    requires mid <= ts + init
    ensures r <= ts + (init + multiset{last})
  {
  }

  lemma HeldCompletedGrows(a: seq<Tasking>, b: seq<Tasking>, id: int)
    requires multiset(a) <= multiset(b)
    requires HeldCompleted(a, id)
    ensures HeldCompleted(b, id)
  {
    var i :| 0 <= i < |a| && a[i].id == id && a[i].status == Completed;
    assert a[i] in multiset(a);
    assert a[i] in b;
    var j :| 0 <= j < |b| && b[j] == a[i];
  }

  /**
   * Once a local tasking with some Id has completed, the merge leaves every record
   * with that Id exactly as it was: none is replaced, moved in or duplicated.
   */
  lemma {:induction false} CompletedIdsFrozen(ts: seq<Tasking>, remote: seq<Tasking>, id: int)
    requires HeldCompleted(ts, id)
    ensures HeldCompleted(MergeAll(ts, remote), id)
    ensures forall t: Tasking :: t.id == id ==> multiset(MergeAll(ts, remote))[t] == multiset(ts)[t]
  {
    if |remote| > 0 {
      var init := remote[..|remote| - 1];
      var last := remote[|remote| - 1];
      var mid := MergeAll(ts, init);
      CompletedIdsFrozen(ts, init, id);
      MergeOneBounds(mid, last);
      HeldCompletedGrows(mid, MergeOne(mid, last), id);
      if !HeldCompleted(mid, last.id) {
        assert last.id != id;
        forall t: Tasking | t.id == id
          ensures multiset(MergeOne(mid, last))[t] == multiset(mid)[t]
        {
          assert t != last;
        }
      }
    }
  }

  /** Every server tasking is in the merged list, unless its Id is held by a completed tasking there. */
  lemma {:induction false} MergeCoversRemote(ts: seq<Tasking>, remote: seq<Tasking>)
    ensures forall j :: 0 <= j < |remote| ==>
      remote[j] in MergeAll(ts, remote) || HeldCompleted(MergeAll(ts, remote), remote[j].id)
  {
    if |remote| > 0 {
      var init := remote[..|remote| - 1];
      var last := remote[|remote| - 1];
      var mid := MergeAll(ts, init);
      var r := MergeAll(ts, remote);
      MergeCoversRemote(ts, init);
      MergeOneBounds(mid, last);
      forall j | 0 <= j < |remote|
        ensures remote[j] in r || HeldCompleted(r, remote[j].id)
      {
        if j < |remote| - 1 {
          assert remote[j] == init[j];
          if remote[j] in mid {
            assert remote[j] in multiset(mid);
          } else {
            HeldCompletedGrows(mid, r, remote[j].id);
          }
        } else if !HeldCompleted(mid, last.id) {
          assert r[|r| - 1] == last;
        }
      }
    }
  }

  // ---- HistoryRefresh ----

  /** The first tasking with this Id whose output is still empty. */
  function FirstAwaiting(ts: seq<Tasking>, id: int): (k: Option<nat>)
    ensures k.Some? ==> k.value < |ts| && ts[k.value].id == id && ts[k.value].output == ""
    ensures k.Some? ==> forall j :: 0 <= j < k.value ==> !(ts[j].id == id && ts[j].output == "")
    ensures k.None? ==> forall j :: 0 <= j < |ts| ==> !(ts[j].id == id && ts[j].output == "")
  {
    if |ts| == 0 then None
    else if ts[0].id == id && ts[0].output == "" then Some(0)
    else match FirstAwaiting(ts[1..], id)
      case None => None
      case Some(k) => Some(k + 1)
  }

  /** `List.FindIndex` on the Id: the first position holding this Id. */
  function FirstWithId(ts: seq<Tasking>, id: int): (k: Option<nat>)
    ensures k.Some? ==> k.value < |ts| && ts[k.value].id == id
    ensures k.Some? ==> forall j :: 0 <= j < k.value ==> ts[j].id != id
    ensures k.None? ==> forall j :: 0 <= j < |ts| ==> ts[j].id != id
  {
    if |ts| == 0 then None
    else if ts[0].id == id then Some(0)
    else match FirstWithId(ts[1..], id)
      case None => None
      case Some(k) => Some(k + 1)
  }

  /**
   * The local list after `HistoryRefresh(id)`. Id 0 reloads the whole detailed list.
   * Any other Id refreshes the list; then, if some tasking with that Id still has no
   * output, the detailed record is written at the first position holding that Id.
   */
  function RefreshOne(ts: seq<Tasking>, id: int, server: Server): seq<Tasking> {
    if id == 0 then server.detailed
    else
      var m := Merged(ts, server.listing);
      match FirstAwaiting(m, id)
      case None => m
      case Some(_) =>
        var k := FirstWithId(m, id);
        if k.Some? then m[k.value := server.detail(id)] else assert false; m
  }

  /**
   * After refreshing, `HistoryRefresh(id)` for a non-zero Id changes at most one
   * position of the list, the first one holding that Id, and only when some tasking
   * with that Id still awaits its output; the length never changes.
   */
  lemma RefreshOneSplices(ts: seq<Tasking>, id: int, server: Server)
    requires id != 0
    ensures var m := Merged(ts, server.listing);
      var r := RefreshOne(ts, id, server);
      && |r| == |m|
      && (FirstAwaiting(m, id).None? ==> r == m)
      && (FirstAwaiting(m, id).Some? ==>
        && FirstWithId(m, id).Some?
        && var k := FirstWithId(m, id).value;
        && r[k] == server.detail(id)
        && forall j :: 0 <= j < |m| && j != k ==> r[j] == m[j])
  {
  }

  /** No two taskings share an Id. */
  predicate UniqueIds(ts: seq<Tasking>) {
    forall i, j :: 0 <= i < j < |ts| ==> ts[i].id != ts[j].id
  }

  /** When Ids are unique, the tasking `HistoryRefresh` overwrites is the one that awaited its output. */
  lemma OverwritesAwaitingWhenIdsUnique(ts: seq<Tasking>, id: int, server: Server)
    requires id != 0
    requires UniqueIds(Merged(ts, server.listing))
    requires FirstAwaiting(Merged(ts, server.listing), id).Some?
    ensures FirstWithId(Merged(ts, server.listing), id) == FirstAwaiting(Merged(ts, server.listing), id)
  {
  }

  /**
   * With two taskings sharing an Id, `HistoryRefresh` looks for the one without
   * output but overwrites the first one, which had output.
   */
  lemma OverwriteCanMissWithSharedIds()
    ensures var done := Tasking(7, "a", Completed, 1, "done");
      var open := Tasking(7, "b", Tasked, 2, "");
      var server := Server(None, [], _ => Tasking(7, "b", Completed, 2, "out"));
      RefreshOne([done, open], 7, server) == [Tasking(7, "b", Completed, 2, "out"), open]
  {
    var done := Tasking(7, "a", Completed, 1, "done");
    var open := Tasking(7, "b", Tasked, 2, "");
    assert FirstAwaiting([done, open], 7) == Some(1) by {
      assert [done, open][1..] == [open];
    }
  }

  // ---- the History selection ----

  /** Ordered by completion time. */
  predicate ByCompletion(ts: seq<Tasking>) {
    forall i, j :: 0 <= i < j < |ts| ==> ts[i].completionTime <= ts[j].completionTime
  }

  /** Places `t` before the first tasking that completed at the same time or later. */
  function InsertByCompletion(t: Tasking, sorted: seq<Tasking>): (r: seq<Tasking>)
    ensures multiset(r) == multiset(sorted) + multiset{t}
    ensures |r| == |sorted| + 1
    ensures r[0] == t || (|sorted| > 0 && r[0] == sorted[0])
  {
    if |sorted| == 0 then [t]
    else if t.completionTime <= sorted[0].completionTime then [t] + sorted
    else
      assert sorted == [sorted[0]] + sorted[1..];
      [sorted[0]] + InsertByCompletion(t, sorted[1..])
  }

  lemma PrependKeepsOrder(t: Tasking, s: seq<Tasking>)
    requires ByCompletion(s)
    requires |s| > 0 ==> t.completionTime <= s[0].completionTime
    ensures ByCompletion([t] + s)
  {
    var r := [t] + s;
    forall i, j | 0 <= i < j < |r| ensures r[i].completionTime <= r[j].completionTime {
      assert r[j] == s[j - 1];
      if i > 0 {
        assert r[i] == s[i - 1];
      }
    }
  }

  /** Inserting into a list ordered by completion time keeps it ordered. */
  lemma {:induction false} InsertKeepsOrder(t: Tasking, sorted: seq<Tasking>)
    requires ByCompletion(sorted)
    ensures ByCompletion(InsertByCompletion(t, sorted))
  {
    if |sorted| == 0 || t.completionTime <= sorted[0].completionTime {
      PrependKeepsOrder(t, sorted);
    } else {
      var rest := InsertByCompletion(t, sorted[1..]);
      InsertKeepsOrder(t, sorted[1..]);
      PrependKeepsOrder(sorted[0], rest);
    }
  }

  /** `OrderBy(T => T.CompletionTime)`: a stable insertion sort by completion time. */
  function SortByCompletion(ts: seq<Tasking>): (r: seq<Tasking>)
    ensures ByCompletion(r)
    ensures multiset(r) == multiset(ts) && |r| == |ts|
  {
    if |ts| == 0 then []
    else
      assert ts == [ts[0]] + ts[1..];
      var rest := SortByCompletion(ts[1..]);
      InsertKeepsOrder(ts[0], rest);
      InsertByCompletion(ts[0], rest)
  }

  /** `TakeLast(k)`: the last k elements, all of them when k is larger, none when k is not positive. */
  function TakeLast(s: seq<Tasking>, k: int): (r: seq<Tasking>)
    ensures |r| == if k <= 0 then 0 else if k < |s| then k else |s|
    ensures r == s[|s| - |r|..]
  {
    if k <= 0 then [] else if k >= |s| then s else s[|s| - k..]
  }

  lemma SuffixIsPart(s: seq<Tasking>, cut: nat)
    requires cut <= |s|
    ensures multiset(s[cut..]) <= multiset(s)
  {
    assert s == s[..cut] + s[cut..];
  }

  lemma SuffixInOrder(s: seq<Tasking>, cut: nat)
    requires cut <= |s| && ByCompletion(s)
    ensures ByCompletion(s[cut..])
  {
    var u := s[cut..];
    forall i, j | 0 <= i < j < |u| ensures u[i].completionTime <= u[j].completionTime {
      assert u[i] == s[cut + i] && u[j] == s[cut + j];
    }
  }

  /** The last k taskings by completion time are local taskings. */
  lemma LastShownAreLocal(ts: seq<Tasking>, k: int)
    ensures multiset(TakeLast(SortByCompletion(ts), k)) <= multiset(ts)
  {
    var sorted := SortByCompletion(ts);
    SuffixIsPart(sorted, |sorted| - |TakeLast(sorted, k)|);
  }

  /** The last k taskings by completion time are shown in completion order. */
  lemma LastShownInOrder(ts: seq<Tasking>, k: int)
    ensures ByCompletion(TakeLast(SortByCompletion(ts), k))
  {
    var sorted := SortByCompletion(ts);
    SuffixInOrder(sorted, |sorted| - |TakeLast(sorted, k)|);
  }

  /**
   * `shown` is what `History <k>` should show of `ts`: k taskings (all of them when
   * there are fewer, none when k is not positive), the last ones in completion order,
   * all local, and none of those left out completed later than any shown.
   */
  predicate ShowsLatest(shown: seq<Tasking>, ts: seq<Tasking>, k: int) {
    var sorted := SortByCompletion(ts);
    && |shown| == (if k <= 0 then 0 else if k < |ts| then k else |ts|)
    && |shown| <= |sorted| && shown == sorted[|sorted| - |shown|..]
    && multiset(shown) <= multiset(ts) && ByCompletion(shown)
    && forall i, j :: 0 <= i < |sorted| - |shown| <= j < |sorted| ==> sorted[i].completionTime <= sorted[j].completionTime
  }

  /** The last k taskings by completion time are the latest k. */
  lemma LastShownAreLatest(ts: seq<Tasking>, k: int)
    ensures ShowsLatest(TakeLast(SortByCompletion(ts), k), ts, k)
  {
    LastShownAreLocal(ts, k);
    LastShownInOrder(ts, k);
  }

  /** The first tasking whose name equals `name`, ignoring case. */
  function FirstByName(ts: seq<Tasking>, name: string): (r: Option<Tasking>)
    ensures r.Some? <==> exists i :: 0 <= i < |ts| && EqualsIgnoreCase(ts[i].name, name)
    ensures r.Some? ==> r.value in ts && EqualsIgnoreCase(r.value.name, name)
    ensures r.Some? ==> exists i :: 0 <= i < |ts| && ts[i] == r.value && NoneNamedBefore(ts, name, i)
  {
    if |ts| == 0 then None
    else if EqualsIgnoreCase(ts[0].name, name) then
      assert NoneNamedBefore(ts, name, 0);
      Some(ts[0])
    else
      var r := FirstByName(ts[1..], name);
      assert forall i :: 1 <= i < |ts| ==> ts[i] == ts[1..][i - 1];
      if r.Some? then
        var i :| 0 <= i < |ts| - 1 && ts[1..][i] == r.value && NoneNamedBefore(ts[1..], name, i);
        assert ts[i + 1] == r.value && NoneNamedBefore(ts, name, i + 1);
        r
      else r
  }

  /** No tasking before position `i` has this name, ignoring case. */
  predicate NoneNamedBefore(ts: seq<Tasking>, name: string, i: nat)
    requires i <= |ts|
  {
    forall j :: 0 <= j < i ==> !EqualsIgnoreCase(ts[j].name, name)
  }

  /**
   * Looking a name up in the taskings ordered by completion time finds one exactly
   * when some tasking has that name, and then the earliest completed so named.
   */
  lemma FirstByNameInOrder(ts: seq<Tasking>, name: string)
    ensures var sorted := SortByCompletion(ts);
      var r := FirstByName(sorted, name);
      && (r.Some? <==> exists x :: x in ts && EqualsIgnoreCase(x.name, name))
      && (r.Some? ==> (r.value in ts && EqualsIgnoreCase(r.value.name, name)
            && exists i :: 0 <= i < |sorted| && sorted[i] == r.value && NoneNamedBefore(sorted, name, i)))
  {
    var sorted := SortByCompletion(ts);
    var r := FirstByName(sorted, name);
    if exists x :: x in ts && EqualsIgnoreCase(x.name, name) {
      var x :| x in ts && EqualsIgnoreCase(x.name, name);
      assert x in multiset(sorted);
      var i :| 0 <= i < |sorted| && sorted[i] == x;
    }
    if r.Some? {
      assert r.value in multiset(ts);
    }
  }

  /** How `History <word>` reads its argument, given the taskings ordered by completion time. */
  datatype Selection = ByName(tasking: Tasking) | ByQuantity(quantity: int) | Unrecognised

  /** A tasking name takes precedence over reading the word as a number. */
  function Select(sorted: seq<Tasking>, word: string): (sel: Selection)
    ensures sel.ByName? <==> exists i :: 0 <= i < |sorted| && EqualsIgnoreCase(sorted[i].name, word)
    ensures sel.ByName? ==> sel.tasking in sorted && EqualsIgnoreCase(sel.tasking.name, word)
    ensures sel.ByQuantity? ==> ParseInt(word) == Some(sel.quantity)
    ensures sel.Unrecognised? <==> FirstByName(sorted, word).None? && ParseInt(word).None?
  {
    match FirstByName(sorted, word)
    case Some(t) => ByName(t)
    case None =>
      match ParseInt(word)
      case Some(q) => ByQuantity(q)
      case None => Unrecognised
  }

  /** The local list after `HistoryRefresh` of each sampled tasking's Id, in order. */
  function RefreshEach(ts: seq<Tasking>, sample: seq<Tasking>, server: Server): seq<Tasking> {
    if |sample| == 0 then ts
    else RefreshOne(RefreshEach(ts, sample[..|sample| - 1], server), sample[|sample| - 1].id, server)
  }

  // ---- the Show listing ----

  /** The names of the taskings, in order. */
  function Names(ts: seq<Tasking>): (r: seq<string>)
    ensures |r| == |ts| && forall i :: 0 <= i < |ts| ==> r[i] == ts[i].name
  {
    if |ts| == 0 then [] else [ts[0].name] + Names(ts[1..])
  }

  /** `Where(T => T.Status == Completed)`: the completed taskings, in order. */
  function CompletedOnly(ts: seq<Tasking>): (r: seq<Tasking>)
    ensures multiset(r) <= multiset(ts)
    ensures forall t :: t in r ==> t.status == Completed
    ensures forall t :: t in ts && t.status == Completed ==> t in r
  {
    if |ts| == 0 then []
    else
      var rest := CompletedOnly(ts[1..]);
      assert ts == [ts[0]] + ts[1..];
      if ts[0].status == Completed then [ts[0]] + rest else rest
  }

  /** The filter keeps every completed tasking as often as the list holds it, and nothing else. */
  lemma {:induction false} CompletedOnlyCounts(ts: seq<Tasking>)
    ensures forall t :: multiset(CompletedOnly(ts))[t] == if t.status == Completed then multiset(ts)[t] else 0
  {
    if |ts| > 0 {
      assert ts == [ts[0]] + ts[1..];
      CompletedOnlyCounts(ts[1..]);
    }
  }

  /** The filter keeps relative order: filtering a concatenation concatenates the filtered parts. */
  lemma {:induction false} CompletedOnlyAppend(a: seq<Tasking>, b: seq<Tasking>)
    ensures CompletedOnly(a + b) == CompletedOnly(a) + CompletedOnly(b)
  {
    if |a| > 0 {
      var head := if a[0].status == Completed then [a[0]] else [];
      assert (a + b)[0] == a[0] && (a + b)[1..] == a[1..] + b;
      assert CompletedOnly(a + b) == head + CompletedOnly(a[1..] + b);
      assert CompletedOnly(a) == head + CompletedOnly(a[1..]);
      CompletedOnlyAppend(a[1..], b);
    } else {
      assert a + b == b;
    }
  }
}
