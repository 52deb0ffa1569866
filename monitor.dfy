/**
 * The cycle of chanimg (`thread_download`, `thread_monitor`) and the start
 * of a run (`__main__`): the interval check, the startup fetch, the folder,
 * then one cycle or a sequence of monitor cycles.
 */
module Monitor {
  import opened Optional
  import opened Thread
  import opened Urls
  import opened Settings
  import opened FolderNaming
  import opened Downloads
  import opened Status

  /** The answer to the `i`-th fetch of a thread: none once the answers run out. */
  function Response(rs: seq<Option<Snapshot>>, i: nat): Option<Snapshot>
  {
    if i < |rs| then rs[i] else None
  }

  /** The answers left after `n` fetches. */
  function Drop(rs: seq<Option<Snapshot>>, n: nat): seq<Option<Snapshot>>
  {
    if n == 0 || rs == [] then rs else Drop(rs[1..], n - 1)
  }

  /** After `n` fetches, the `i`-th answer still to come is the `(n + i)`-th of the script. */
  lemma {:induction false} DropThenRespond(rs: seq<Option<Snapshot>>, n: nat, i: nat)
    ensures Response(Drop(rs, n), i) == Response(rs, n + i)
  {
    if n > 0 && rs != [] {
      DropThenRespond(rs[1..], n - 1, i);
    }
  }

  /** `n` copies of a URL: the requests of `n` fetches. */
  function Repeat(url: string, n: nat): (r: seq<string>)
    ensures |r| == n && forall i :: 0 <= i < n ==> r[i] == url
  {
    if n == 0 then [] else Repeat(url, n - 1) + [url]
  }

  /**
   * The JSON endpoint, as seen from chanimg: each fetch (`load_json`) takes
   * the next scripted answer, `None` standing for an HTTP or connection
   * error, and every request is logged.
   */
  class ThreadSource {
    var responses: seq<Option<Snapshot>>
    var requests: seq<string>

    constructor (answers: seq<Option<Snapshot>>)
      ensures responses == answers && requests == []
    {
      responses := answers;
      requests := [];
    }

    method Fetch(url: string) returns (r: Option<Snapshot>)
      modifies this
      ensures r == Response(old(responses), 0)
      ensures responses == Drop(old(responses), 1)
      ensures requests == old(requests) + [url]
    {
      r := Response(responses, 0);
      responses := Drop(responses, 1);
      requests := requests + [url];
    }
  }

  lemma {:induction false} DropOnceMore(rs: seq<Option<Snapshot>>, n: nat)
    ensures Drop(Drop(rs, n), 1) == Drop(rs, n + 1)
  {
    if n > 0 && rs != [] {
      DropOnceMore(rs[1..], n - 1);
    }
  }

  lemma RepeatOnceMore(pre: seq<string>, url: string, n: nat)
    ensures pre + Repeat(url, n) + [url] == pre + Repeat(url, n + 1)
  {
  }

  /** Where a cycle saves: the board (part of every image URL), the folder, and whether files keep their uploaded names. */
  datatype Target = Target(board: string, folder: string, original: bool)

  /** The folder's files, the retrieval log and the count of every cycle run so far. */
  datatype Folder = Folder(files: set<string>, log: seq<Retrieval>, counts: seq<nat>)

  /** The pairs whose saved names are not yet in the folder: what a cycle on `s` retrieves. */
  function NewPairs(f: Folder, s: Snapshot, original: bool): seq<ImageRef>
    requires WellFormed(s)
  {
    NotYetSaved(RefsInSlots(s, SlotCount(s)), f.files, original)
  }

  /** One cycle on a readable snapshot: `list_maker`, then `image_downloader`. */
  function Cycle(f: Folder, s: Snapshot, t: Target): Folder
    requires WellFormed(s)
  {
    var dl := NewPairs(f, s, t.original);
    Folder(f.files + SavedNames(dl, t.original), f.log + Retrievals(dl, t.board, t.folder, t.original), f.counts + [|dl|])
  }

  /** Every snapshot of `inputs` can be read. */
  predicate AllWellFormed(inputs: seq<Snapshot>)
  {
    forall i :: 0 <= i < |inputs| ==> WellFormed(inputs[i])
  }

  /** The folder after a cycle on each of `inputs`, in order. */
  function Cycles(f: Folder, inputs: seq<Snapshot>, t: Target): (g: Folder)
    requires AllWellFormed(inputs)
    ensures |g.counts| == |f.counts| + |inputs|
  {
    if inputs == [] then f
    else Cycle(Cycles(f, inputs[..|inputs| - 1], t), inputs[|inputs| - 1], t)
  }

  /** The status line of every finished cycle, in order. */
  function Statuses(counts: seq<nat>, cfg: Config): (r: seq<string>)
  {
    seq(|counts|, i requires 0 <= i < |counts| => StatusMessage(counts[i], cfg))
  }

  /** A finished cycle appends its own status line. */
  lemma StatusesSnoc(counts: seq<nat>, n: nat, cfg: Config)
    ensures Statuses(counts + [n], cfg) == Statuses(counts, cfg) + [StatusMessage(n, cfg)]
  {
  }

  /** What a sequence of cycles reports: the counts, their status lines, and whether it stopped early. */
  datatype Report = Report(counts: seq<nat>, statuses: seq<string>, stopped: bool)

  /**
   * Where a run stands after some cycles: the snapshots they read, in
   * order, how many fetches they made, and whether a cycle met a snapshot
   * it cannot read (the run ends there).
   */
  datatype Progress = Progress(inputs: seq<Snapshot>, fetches: nat, stopped: bool)

  /** The snapshot cycle `k` inputs: the startup one for the first cycle, a fresh fetch after. */
  function CycleInput(js: Option<Snapshot>, rs: seq<Option<Snapshot>>, k: nat): Option<Snapshot>
  {
    if k == 0 then js else Response(rs, k - 1)
  }

  /** The input of cycle `k` cannot be read: it is missing, or its first post lacks `replies`. */
  predicate Unreadable(s: Option<Snapshot>)
  {
    s.None? || !WellFormed(s.value)
  }

  /**
   * The progress of `n` cycles of `thread_monitor` started on the startup
   * snapshot `js`, with the later answers `rs` to come: every cycle but the
   * first fetches once before it runs, and an unreadable snapshot makes
   * `list_maker` fail and stops the run. Nothing happens after a stop.
   */
  function Monitored(js: Option<Snapshot>, rs: seq<Option<Snapshot>>, n: nat): Progress
  {
    if n == 0 then Progress([], 0, false)
    else
      var p := Monitored(js, rs, n - 1);
      if p.stopped then p
      else
        var fetches := if n - 1 == 0 then p.fetches else p.fetches + 1;
        var snap := CycleInput(js, rs, n - 1);
        if Unreadable(snap) then Progress(p.inputs, fetches, true)
        else Progress(p.inputs + [snap.value], fetches, false)
  }

  /** The folder after those `n` cycles, starting from `f`: each cycle that reads a snapshot is one `Cycle`. */
  function MonitoredFolder(js: Option<Snapshot>, rs: seq<Option<Snapshot>>, f: Folder, t: Target, n: nat): Folder
  {
    if n == 0 then f
    else
      var g := MonitoredFolder(js, rs, f, t, n - 1);
      var snap := CycleInput(js, rs, n - 1);
      if Monitored(js, rs, n - 1).stopped || Unreadable(snap) then g
      else Cycle(g, snap.value, t)
  }

  /* ------------------------------------------- properties of the cycles */

  /**
   * The first cycle fetches nothing and every later cycle fetches exactly
   * once: after `n >= 1` cycles the fetches are one fewer than the cycles
   * started, the one that stopped the run included; a run that did not
   * stop read a snapshot in every cycle.
   */
  lemma {:induction false} MonitoredFetchesOncePerLaterCycle(js: Option<Snapshot>, rs: seq<Option<Snapshot>>, n: nat)
    ensures var p := Monitored(js, rs, n);
            && |p.inputs| <= n
            && (!p.stopped ==> |p.inputs| == n)
            && (if n == 0 then p.fetches == 0 && !p.stopped
                else p.fetches + 1 == |p.inputs| + (if p.stopped then 1 else 0))
  {
    if n > 0 {
      MonitoredFetchesOncePerLaterCycle(js, rs, n - 1);
    }
  }

  /**
   * The snapshots of `p` are the inputs of cycles `0, 1, ...` in order, each
   * readable, and a stopped run stopped at an unreadable input.
   */
  predicate InputsAsRead(js: Option<Snapshot>, rs: seq<Option<Snapshot>>, p: Progress)
  {
    && (forall k :: 0 <= k < |p.inputs| ==> CycleInput(js, rs, k) == Some(p.inputs[k]) && WellFormed(p.inputs[k]))
    && (p.stopped ==> Unreadable(CycleInput(js, rs, |p.inputs|)))
  }

  /**
   * Cycle `k` inputs the startup snapshot when `k == 0` and the `k`-th fetch's
   * answer otherwise, and only readable snapshots are input; the run stops
   * exactly at a cycle whose input is missing or unreadable.
   */
  lemma MonitoredReadsEachInput(js: Option<Snapshot>, rs: seq<Option<Snapshot>>, n: nat)
    ensures InputsAsRead(js, rs, Monitored(js, rs, n))
  {
    var i := 0;
    while i < n
      invariant i <= n
      invariant InputsAsRead(js, rs, Monitored(js, rs, i))
    {
      MonitoredReadsOneMore(js, rs, i);
      i := i + 1;
    }
  }

  lemma MonitoredReadsOneMore(js: Option<Snapshot>, rs: seq<Option<Snapshot>>, m: nat)
    requires InputsAsRead(js, rs, Monitored(js, rs, m))
    ensures InputsAsRead(js, rs, Monitored(js, rs, m + 1))
  {
    var p, p' := Monitored(js, rs, m), Monitored(js, rs, m + 1);
    if !p.stopped {
      MonitoredFetchesOncePerLaterCycle(js, rs, m);
      forall k | 0 <= k < |p'.inputs| ensures CycleInput(js, rs, k) == Some(p'.inputs[k]) && WellFormed(p'.inputs[k]) {
        if k < |p.inputs| {
          assert p'.inputs[k] == p.inputs[k];
        }
      }
    }
  }

  /** Once a cycle stops the run, later cycles change nothing: no fetch, no input, no retrieval. */
  lemma MonitoredStaysStopped(js: Option<Snapshot>, rs: seq<Option<Snapshot>>, f: Folder, t: Target, n: nat, m: nat)
    requires n <= m && Monitored(js, rs, n).stopped
    ensures Monitored(js, rs, m) == Monitored(js, rs, n)
    ensures MonitoredFolder(js, rs, f, t, m) == MonitoredFolder(js, rs, f, t, n)
  {
    var i := n;
    while i < m
      invariant n <= i <= m
      invariant Monitored(js, rs, i) == Monitored(js, rs, n)
      invariant MonitoredFolder(js, rs, f, t, i) == MonitoredFolder(js, rs, f, t, n)
    {
      i := i + 1;
    }
  }

  /** A single cycle inputs only the startup snapshot. */
  lemma SingleCycleIgnoresLaterAnswers(js: Option<Snapshot>, rs: seq<Option<Snapshot>>, rs': seq<Option<Snapshot>>, f: Folder, t: Target)
    ensures Monitored(js, rs, 1) == Monitored(js, rs', 1)
    ensures MonitoredFolder(js, rs, f, t, 1) == MonitoredFolder(js, rs', f, t, 1)
  {
  }

  /** A cycle on one more snapshot is one more `Cycle`. */
  lemma CyclesSnoc(f: Folder, inputs: seq<Snapshot>, s: Snapshot, t: Target)
    requires AllWellFormed(inputs)
    requires WellFormed(s)
    ensures Cycles(f, inputs + [s], t) == Cycle(Cycles(f, inputs, t), s, t)
  {
    assert (inputs + [s])[..|inputs|] == inputs;
  }

  /**
   * The folder after the cycles depends only on the snapshots they read:
   * it is the folder the cycles on those snapshots leave, one per cycle
   * that was not stopped.
   */
  lemma MonitoredFolderIsCycles(js: Option<Snapshot>, rs: seq<Option<Snapshot>>, f: Folder, t: Target, n: nat)
    ensures AllWellFormed(Monitored(js, rs, n).inputs)
    ensures MonitoredFolder(js, rs, f, t, n) == Cycles(f, Monitored(js, rs, n).inputs, t)
  {
    var i := 0;
    while i < n
      invariant i <= n
      invariant AllWellFormed(Monitored(js, rs, i).inputs)
      invariant MonitoredFolder(js, rs, f, t, i) == Cycles(f, Monitored(js, rs, i).inputs, t)
    {
      MonitoredFolderStep(js, rs, f, t, i);
      i := i + 1;
    }
  }

  /** Only readable snapshots are input. */
  lemma MonitoredInputsWellFormed(js: Option<Snapshot>, rs: seq<Option<Snapshot>>, n: nat)
    ensures AllWellFormed(Monitored(js, rs, n).inputs)
  {
    MonitoredReadsEachInput(js, rs, n);
  }

  /** One more cycle keeps the folder equal to the cycles on the snapshots read. */
  lemma MonitoredFolderStep(js: Option<Snapshot>, rs: seq<Option<Snapshot>>, f: Folder, t: Target, m: nat)
    requires AllWellFormed(Monitored(js, rs, m).inputs)
    requires MonitoredFolder(js, rs, f, t, m) == Cycles(f, Monitored(js, rs, m).inputs, t)
    ensures AllWellFormed(Monitored(js, rs, m + 1).inputs)
    ensures MonitoredFolder(js, rs, f, t, m + 1) == Cycles(f, Monitored(js, rs, m + 1).inputs, t)
  {
    MonitoredInputsWellFormed(js, rs, m + 1);
    var p, g := Monitored(js, rs, m), MonitoredFolder(js, rs, f, t, m);
    var snap := CycleInput(js, rs, m);
    if p.stopped || Unreadable(snap) {
      assert Monitored(js, rs, m + 1).inputs == p.inputs;
      assert MonitoredFolder(js, rs, f, t, m + 1) == g;
    } else {
      assert Monitored(js, rs, m + 1).inputs == p.inputs + [snap.value];
      assert MonitoredFolder(js, rs, f, t, m + 1) == Cycle(g, snap.value, t);
      CyclesSnoc(f, p.inputs, snap.value, t);
    }
  }

  /**
   * Cycles only add: after more cycles the files are a superset, and the
   * log and the counts extend the earlier ones.
   */
  lemma {:induction false} CyclesOnlyAdd(f: Folder, inputs: seq<Snapshot>, k: nat, t: Target)
    requires AllWellFormed(inputs)
    requires k <= |inputs|
    ensures var g, h := Cycles(f, inputs[..k], t), Cycles(f, inputs, t);
            && g.files <= h.files
            && |g.log| <= |h.log| && h.log[..|g.log|] == g.log
            && h.counts[..|g.counts|] == g.counts
    decreases |inputs|
  {
    if k < |inputs| {
      var init := inputs[..|inputs| - 1];
      CyclesOnlyAdd(f, init, k, t);
      assert init[..k] == inputs[..k];
      var g, h' := Cycles(f, inputs[..k], t), Cycles(f, init, t);
      var h := Cycles(f, inputs, t);
      assert h == Cycle(h', inputs[|inputs| - 1], t);
      CycleOnlyAdds(h', inputs[|inputs| - 1], t);
      PrefixOfPrefix(g.log, h'.log, h.log);
      PrefixOfPrefix(g.counts, h'.counts, h.counts);
    } else {
      assert inputs[..k] == inputs;
    }
  }

  /** One cycle only adds files, log entries and a count. */
  lemma CycleOnlyAdds(f: Folder, s: Snapshot, t: Target)
    requires WellFormed(s)
    ensures var g := Cycle(f, s, t);
            && f.files <= g.files
            && |f.log| <= |g.log| && g.log[..|f.log|] == f.log
            && |f.counts| <= |g.counts| && g.counts[..|f.counts|] == f.counts
  {
  }

  lemma PrefixOfPrefix<T>(a: seq<T>, b: seq<T>, c: seq<T>)
    requires |a| <= |b| && b[..|a|] == a
    requires |b| <= |c| && c[..|b|] == b
    ensures c[..|a|] == a
  {
    assert c[..|a|] == c[..|b|][..|a|];
  }

  function Sum(counts: seq<nat>): nat
  {
    if counts == [] then 0 else Sum(counts[..|counts| - 1]) + counts[|counts| - 1]
  }

  /** Every retrieval is accounted for: each cycle's count is the number of entries it added to the log. */
  lemma {:induction false} CyclesCountsAddUp(f: Folder, inputs: seq<Snapshot>, t: Target)
    requires AllWellFormed(inputs)
    ensures var g := Cycles(f, inputs, t);
            |g.log| - |f.log| == Sum(g.counts) - Sum(f.counts)
  {
    if inputs != [] {
      var init := inputs[..|inputs| - 1];
      CyclesCountsAddUp(f, init, t);
      var g, g' := Cycles(f, inputs, t), Cycles(f, init, t);
      assert g.counts[..|g.counts| - 1] == g'.counts;
    }
  }

  /**
   * A cycle that inputs the same snapshot as the cycle before it retrieves
   * nothing: its duplicate check finds every file the previous cycle wrote.
   */
  lemma RepeatedSnapshotRetrievesNothing(f: Folder, s: Snapshot, t: Target)
    requires WellFormed(s)
    ensures var g := Cycle(f, s, t);
            var h := Cycle(g, s, t);
            && h.counts == f.counts + [|g.log| - |f.log|, 0]
            && h.files == g.files && h.log == g.log
  {
    var g := Cycle(f, s, t);
    NothingLeftAfterSaving(RefsInSlots(s, SlotCount(s)), f.files, g.files, t.original);
  }

  /**
   * A cycle writes only names the folder did not have before it, and every
   * name it writes is in the folder after it.
   */
  lemma CycleWritesOnlyNewNames(f: Folder, s: Snapshot, t: Target)
    requires WellFormed(s)
    ensures var g := Cycle(f, s, t);
            forall j :: |f.log| <= j < |g.log| ==>
              NamedOutside(g.log[j].path, t.folder, f.files) && NamedIn(g.log[j].path, t.folder, g.files)
  {
    var g, dl := Cycle(f, s, t), NewPairs(f, s, t.original);
    var r := Retrievals(dl, t.board, t.folder, t.original);
    assert g.log == f.log + r;
    RetrievalsInOrder(dl, t.board, t.folder, t.original);
    NotYetSavedKeepsExactlyNew(RefsInSlots(s, SlotCount(s)), f.files, t.original);
    SavedNamesMembers(dl, t.original);
    forall j | |f.log| <= j < |g.log|
      ensures NamedOutside(g.log[j].path, t.folder, f.files) && NamedIn(g.log[j].path, t.folder, g.files)
    {
      var name := SavedName(dl[j - |f.log|], t.original);
      assert g.log[j] == r[j - |f.log|];
      assert dl[j - |f.log|] in dl;
      TargetPathNames(t.folder, name, f.files);
      TargetPathNames(t.folder, name, g.files);
    }
  }

  /** Every file the cycles write is in the folder after them. */
  lemma {:induction false} CyclesWriteSavedNames(f: Folder, inputs: seq<Snapshot>, t: Target)
    requires AllWellFormed(inputs)
    ensures forall i :: |f.log| <= i < |Cycles(f, inputs, t).log| ==>
              NamedIn(Cycles(f, inputs, t).log[i].path, t.folder, Cycles(f, inputs, t).files)
  {
    if inputs != [] {
      var init, last := inputs[..|inputs| - 1], inputs[|inputs| - 1];
      CyclesWriteSavedNames(f, init, t);
      var h', h := Cycles(f, init, t), Cycles(f, inputs, t);
      assert h == Cycle(h', last, t);
      CycleOnlyAdds(h', last, t);
      CycleWritesOnlyNewNames(h', last, t);
      forall i | |f.log| <= i < |h.log| ensures NamedIn(h.log[i].path, t.folder, h.files) {
        if i < |h'.log| {
          assert h.log[i] == h'.log[i];
          NamedInGrows(h.log[i].path, t.folder, h'.files, h.files);
        }
      }
    }
  }

  /** The cycles after the first `k` write only names the folder did not have after those `k`. */
  lemma {:induction false} LaterCyclesWriteNewNames(f: Folder, inputs: seq<Snapshot>, k: nat, t: Target)
    requires AllWellFormed(inputs)
    requires k <= |inputs|
    ensures var g, h := Cycles(f, inputs[..k], t), Cycles(f, inputs, t);
            forall j :: |g.log| <= j < |h.log| ==> NamedOutside(h.log[j].path, t.folder, g.files)
    decreases |inputs|
  {
    if k < |inputs| {
      var init, last := inputs[..|inputs| - 1], inputs[|inputs| - 1];
      LaterCyclesWriteNewNames(f, init, k, t);
      assert init[..k] == inputs[..k];
      var g, h', h := Cycles(f, inputs[..k], t), Cycles(f, init, t), Cycles(f, inputs, t);
      assert h == Cycle(h', last, t);
      CyclesOnlyAdd(f, init, k, t);
      CycleOnlyAdds(h', last, t);
      CycleWritesOnlyNewNames(h', last, t);
      forall j | |g.log| <= j < |h.log| ensures NamedOutside(h.log[j].path, t.folder, g.files) {
        if j < |h'.log| {
          assert h.log[j] == h'.log[j];
        }
      }
    } else {
      assert inputs[..k] == inputs;
    }
  }

  /**
   * The duplicate check keeps a run from writing a file twice across cycles:
   * no file written in the first `k` cycles is written again by a later one,
   * whatever the later snapshots hold.
   */
  lemma CyclesNeverRewrite(f: Folder, inputs: seq<Snapshot>, k: nat, t: Target)
    requires AllWellFormed(inputs)
    requires k <= |inputs|
    ensures var g, h := Cycles(f, inputs[..k], t), Cycles(f, inputs, t);
            forall i, j :: |f.log| <= i < |g.log| <= j < |h.log| ==> h.log[i].path != h.log[j].path
  {
    var g, h := Cycles(f, inputs[..k], t), Cycles(f, inputs, t);
    CyclesOnlyAdd(f, inputs, k, t);
    CyclesWriteSavedNames(f, inputs[..k], t);
    LaterCyclesWriteNewNames(f, inputs, k, t);
    forall i, j | |f.log| <= i < |g.log| <= j < |h.log| ensures h.log[i].path != h.log[j].path {
      assert h.log[i] == g.log[i];
    }
  }

  /* ------------------------------------------------------- the methods */

  /**
   * The `do_not_load_json` flag of `thread_monitor`: `FirstCycle` while it is
   * set (the startup snapshot is reused), `RefetchCycle` once it is cleared
   * (every cycle fetches a fresh snapshot).
   */
  datatype CyclePhase = FirstCycle | RefetchCycle

  /**
   * The snapshot cycle `k` of `thread_monitor` inputs: the one at hand in
   * the first cycle, a fresh fetch of `url` in every later one, the
   * `fetches`-th of the run.
   */
  method NextInput(src: ThreadSource, url: string, phase: CyclePhase, snap: Option<Snapshot>,
                   ghost js: Option<Snapshot>, ghost rs0: seq<Option<Snapshot>>, ghost req0: seq<string>,
                   ghost k: nat, ghost fetches: nat)
    returns (s: Option<Snapshot>)
    requires phase == FirstCycle <==> k == 0
    requires phase == FirstCycle ==> snap == js
    requires k > 0 ==> fetches == k - 1
    requires src.requests == req0 + Repeat(url, fetches)
    requires src.responses == Drop(rs0, fetches)
    modifies src
    ensures s == CycleInput(js, rs0, k)
    ensures var after := if k == 0 then fetches else fetches + 1;
            src.requests == req0 + Repeat(url, after) && src.responses == Drop(rs0, after)
  {
    s := snap;
    if phase == RefetchCycle {
      s := src.Fetch(url);
      RepeatOnceMore(req0, url, fetches);
      DropOnceMore(rs0, fetches);
      DropThenRespond(rs0, fetches, 0);
    }
  }

  /** A run's folder state as a value. */
  function FolderOf(out: OutputDir, folder: string): Folder
    reads out
  {
    Folder(out.FilesIn(folder), out.retrievals, [])
  }

  /**
   * One check of the thread ("Checking thread for images to download..."):
   * `list_maker`, then `image_downloader`, on a folder whose state is `f`
   * (the other folders being those of `others`). A readable snapshot moves
   * the folder on by one `Cycle`; `None` when the snapshot cannot be read,
   * in which case nothing is retrieved.
   */
  method CheckThread(out: OutputDir, folder: string, snap: Option<Snapshot>, board: string, cfg: Config,
                     ghost others: map<string, set<string>>, ghost f: Folder)
    returns (dlNum: Option<nat>)
    requires out.folders == others[folder := f.files] && out.retrievals == f.log
    modifies out
    ensures dlNum.None? <==> snap.None? || !WellFormed(snap.value)
    ensures dlNum.None? ==> out.folders == old(out.folders) && out.retrievals == old(out.retrievals)
    ensures dlNum.Some? ==>
              var g := Cycle(f, snap.value, Target(board, folder, cfg.original));
              && g.counts == f.counts + [dlNum.value]
              && out.folders == others[folder := g.files]
              && out.retrievals == g.log
  {
    if snap.None? || !WellFormed(snap.value) {
      dlNum := None;
    } else {
      var pairs := ListMaker(snap.value);
      var n := ImageDownloader(out, folder, pairs, board, cfg);
      MapUpdateTwice(others, folder, f.files, Cycle(f, snap.value, Target(board, folder, cfg.original)).files);
      dlNum := Some(n);
    }
  }

  /**
   * One pass of the loop of `thread_monitor`, in cycle `k` of a run that has
   * not stopped: the input (a fresh fetch after the first cycle), then the
   * check of the thread. `None` when the input cannot be read.
   */
  method MonitorOnce(out: OutputDir, src: ThreadSource, folder: string, board: string, url: string, cfg: Config,
                     phase: CyclePhase, snap: Option<Snapshot>,
                     ghost js: Option<Snapshot>, ghost rs0: seq<Option<Snapshot>>, ghost req0: seq<string>,
                     ghost folders0: map<string, set<string>>, ghost f0: Folder, ghost k: nat)
    returns (next: Option<Snapshot>, dlNum: Option<nat>)
    requires !Monitored(js, rs0, k).stopped
    requires phase == FirstCycle <==> k == 0
    requires phase == FirstCycle ==> snap == js
    requires var p, g := Monitored(js, rs0, k), MonitoredFolder(js, rs0, f0, Target(board, folder, cfg.original), k);
             && out.folders == folders0[folder := g.files] && out.retrievals == g.log
             && src.requests == req0 + Repeat(url, p.fetches) && src.responses == Drop(rs0, p.fetches)
    modifies out, src
    ensures next == CycleInput(js, rs0, k)
    ensures var p, g := Monitored(js, rs0, k + 1), MonitoredFolder(js, rs0, f0, Target(board, folder, cfg.original), k + 1);
            && out.folders == folders0[folder := g.files] && out.retrievals == g.log
            && src.requests == req0 + Repeat(url, p.fetches) && src.responses == Drop(rs0, p.fetches)
            && (dlNum.None? <==> p.stopped)
            && (dlNum.Some? ==> g.counts == MonitoredFolder(js, rs0, f0, Target(board, folder, cfg.original), k).counts + [dlNum.value])
  {
    ghost var p, g := Monitored(js, rs0, k), MonitoredFolder(js, rs0, f0, Target(board, folder, cfg.original), k);
    MonitoredFetchesOncePerLaterCycle(js, rs0, k);
    next := NextInput(src, url, phase, snap, js, rs0, req0, k, p.fetches);
    dlNum := CheckThread(out, folder, next, board, cfg, folders0, g);
  }

  /**
   * `thread_monitor` for `cycles` cycles (the user interrupts during the
   * wait after the last one): the first cycle inputs the startup snapshot
   * `js`, every later one fetches `url` first; each finished cycle
   * produces its status line.
   */
  method ThreadMonitor(out: OutputDir, src: ThreadSource, folder: string, js: Option<Snapshot>,
                       board: string, url: string, cfg: Config, cycles: nat)
    returns (report: Report)
    requires folder in out.folders && cycles >= 1
    modifies out, src
    ensures var p := Monitored(js, old(src.responses), cycles);
            var g := MonitoredFolder(js, old(src.responses), old(FolderOf(out, folder)), Target(board, folder, cfg.original), cycles);
            && out.folders == old(out.folders)[folder := g.files]
            && out.retrievals == g.log
            && report == Report(g.counts, Statuses(g.counts, cfg), p.stopped)
            && src.requests == old(src.requests) + Repeat(url, p.fetches)
            && src.responses == Drop(old(src.responses), p.fetches)
  {
    ghost var folders0, f0 := out.folders, FolderOf(out, folder);
    ghost var rs0, req0 := src.responses, src.requests;
    ghost var t := Target(board, folder, cfg.original);
    ghost var p, g := Monitored(js, rs0, 0), MonitoredFolder(js, rs0, f0, t, 0);
    var phase := FirstCycle;
    var snap := js;
    var counts: seq<nat> := [];
    var statuses: seq<string> := [];
    var stopped := false;
    var k: nat := 0;
    MapUpdateSame(folders0, folder);
    while k < cycles && !stopped
      invariant k <= cycles
      invariant p == Monitored(js, rs0, k) && g == MonitoredFolder(js, rs0, f0, t, k)
      invariant out.folders == folders0[folder := g.files]
      invariant out.retrievals == g.log
      invariant counts == g.counts
      invariant statuses == Statuses(counts, cfg)
      invariant stopped == p.stopped
      invariant src.requests == req0 + Repeat(url, p.fetches)
      invariant src.responses == Drop(rs0, p.fetches)
      invariant phase == FirstCycle <==> k == 0
      invariant phase == FirstCycle ==> snap == js
    {
      var r;
      snap, r := MonitorOnce(out, src, folder, board, url, cfg, phase, snap, js, rs0, req0, folders0, f0, k);
      match r {
        case None =>
          stopped := true;
        case Some(n) =>
          StatusesSnoc(counts, n, cfg);
          counts := counts + [n];
          statuses := statuses + [StatusMessage(n, cfg)];
      }
      p, g := Monitored(js, rs0, k + 1), MonitoredFolder(js, rs0, f0, t, k + 1);
      phase := RefetchCycle;
      k := k + 1;
    }
    if stopped {
      MonitoredStaysStopped(js, rs0, f0, t, k, cycles);
    } else {
      assert k == cycles;
    }
    report := Report(counts, statuses, stopped);
  }

  /** `thread_download`: exactly one cycle, on the startup snapshot, then the status line. */
  method ThreadDownload(out: OutputDir, folder: string, js: Option<Snapshot>, board: string, cfg: Config)
    returns (report: Report)
    requires folder in out.folders
    modifies out
    ensures var p, g := Monitored(js, [], 1), MonitoredFolder(js, [], old(FolderOf(out, folder)), Target(board, folder, cfg.original), 1);
            && out.folders == old(out.folders)[folder := g.files]
            && out.retrievals == g.log
            && report == Report(g.counts, Statuses(g.counts, cfg), p.stopped)
  {
    MapUpdateSame(out.folders, folder);
    var r := CheckThread(out, folder, js, board, cfg, out.folders, FolderOf(out, folder));
    match r {
      case None =>
        report := Report([], [], true);
      case Some(n) =>
        report := Report([n], [StatusMessage(n, cfg)], false);
    }
  }

  /** How a run ends: the interval is rejected, `make_folder` fails, or cycles ran on a folder. */
  datatype Outcome = UpdateRejected | FolderFailed | Ran(folder: string, report: Report)

  /** The first post `make_folder` inputs, when the startup snapshot has one. */
  function FirstPost(js: Option<Snapshot>): Option<Post>
  {
    if js.Some? && |js.value| > 0 then Some(js.value[0]) else None
  }

  /**
   * A run of chanimg on `threadUrl` (`__main__`): an interval below 10 ends
   * it before anything is fetched; otherwise the JSON endpoint is fetched
   * once, the folder is named and made, and then one cycle runs, or
   * `cycles` monitor cycles in monitor mode.
   */
  method Run(cfg: Config, threadUrl: string, out: OutputDir, src: ThreadSource, cycles: nat)
    returns (outcome: Outcome)
    requires cycles >= 1
    modifies out, src
    ensures outcome == UpdateRejected <==> !UpdateAccepted(cfg)
    ensures outcome == UpdateRejected ==>
              src.requests == old(src.requests) && src.responses == old(src.responses)
              && out.folders == old(out.folders) && out.retrievals == old(out.retrievals)
    ensures UpdateAccepted(cfg) ==>
              (outcome == FolderFailed <==> cfg.foldername.None? && FirstPost(Response(old(src.responses), 0)).None?)
    ensures outcome == FolderFailed ==>
              src.requests == old(src.requests) + [LinkParse(threadUrl)]
              && src.responses == Drop(old(src.responses), 1)
              && out.folders == old(out.folders) && out.retrievals == old(out.retrievals)
    ensures outcome.Ran? ==>
              var js := Response(old(src.responses), 0);
              var board := BoardParse(threadUrl);
              var rest := Drop(old(src.responses), 1);
              var t := Target(board, outcome.folder, cfg.original);
              var n := if cfg.monitor then cycles else 1;
              var p, g := Monitored(js, rest, n), MonitoredFolder(js, rest, old(FolderOf(out, outcome.folder)), t, n);
              && (cfg.foldername.Some? || FirstPost(js).Some?)
              && outcome.folder == FolderName(cfg, board, FirstPost(js))
              && out.folders == old(out.folders)[outcome.folder := g.files]
              && out.retrievals == g.log
              && outcome.report == Report(g.counts, Statuses(g.counts, cfg), p.stopped)
              && src.requests == old(src.requests) + [LinkParse(threadUrl)] + Repeat(LinkParse(threadUrl), p.fetches)
              && src.responses == Drop(rest, p.fetches)
  {
    if cfg.update < 10 {
      return UpdateRejected;
    }
    var url := LinkParse(threadUrl);
    var board := BoardParse(threadUrl);
    var js := src.Fetch(url);
    var op := FirstPost(js);
    if cfg.foldername.None? && op.None? {
      return FolderFailed;
    }
    var name := FolderName(cfg, board, op);
    var report := RunCycles(out, src, name, js, board, url, cfg, cycles);
    outcome := Ran(name, report);
  }

  /**
   * The part of a run after the folder is named: `make_folder` creates it
   * when missing, then `thread_monitor` runs `cycles` cycles, or
   * `thread_download` one.
   */
  method RunCycles(out: OutputDir, src: ThreadSource, name: string, js: Option<Snapshot>,
                   board: string, url: string, cfg: Config, cycles: nat)
    returns (report: Report)
    requires cycles >= 1
    modifies out, src
    ensures var t := Target(board, name, cfg.original);
            var n := if cfg.monitor then cycles else 1;
            var p, g := Monitored(js, old(src.responses), n), MonitoredFolder(js, old(src.responses), old(FolderOf(out, name)), t, n);
            && out.folders == old(out.folders)[name := g.files]
            && out.retrievals == g.log
            && report == Report(g.counts, Statuses(g.counts, cfg), p.stopped)
            && src.requests == old(src.requests) + Repeat(url, p.fetches)
            && src.responses == Drop(old(src.responses), p.fetches)
  {
    ghost var f0 := FolderOf(out, name);
    ghost var folders0 := out.folders;
    out.MakeFolder(name);
    assert FolderOf(out, name) == f0;
    ghost var mid := out.folders;
    ghost var t := Target(board, name, cfg.original);
    ghost var g := MonitoredFolder(js, src.responses, f0, t, if cfg.monitor then cycles else 1);
    if cfg.monitor {
      report := ThreadMonitor(out, src, name, js, board, url, cfg, cycles);
    } else {
      report := ThreadDownload(out, name, js, board, cfg);
      SingleCycleIgnoresLaterAnswers(js, [], old(src.responses), f0, t);
    }
    assert out.folders == mid[name := g.files];
    if name !in folders0 {
      MapUpdateTwice(folders0, name, {}, g.files);
    }
  }
}
