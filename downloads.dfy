/**
 * The `Output/` directory, the duplicate filter (`check_for_duplicates`)
 * and the download loop (`image_downloader`).
 */
module Downloads {
  import opened Thread
  import opened Urls
  import opened Settings

  /** One `urlretrieve(url, path)` call: where from, and which file it writes. */
  datatype Retrieval = Retrieval(url: string, path: string)

  /** The name a pair is saved under: `pair[0]` with `--original`, otherwise `pair[1]`. */
  function SavedName(ref: ImageRef, original: bool): string
  {
    if original then ref.original else ref.storage
  }

  /** The path a file of `folder` is written to. */
  function TargetPath(folder: string, name: string): string
  {
    "Output/" + folder + "/" + name
  }

  /** `path` is a file of `Output/<folder>/` whose name is in `names`. */
  predicate NamedIn(path: string, folder: string, names: set<string>)
  {
    var dir := "Output/" + folder + "/";
    |dir| <= |path| && path[..|dir|] == dir && path[|dir|..] in names
  }

  /** `path` is a file of `Output/<folder>/` whose name is not in `names`. */
  predicate NamedOutside(path: string, folder: string, names: set<string>)
  {
    var dir := "Output/" + folder + "/";
    |dir| <= |path| && path[..|dir|] == dir && path[|dir|..] !in names
  }

  lemma NamedInGrows(path: string, folder: string, names: set<string>, more: set<string>)
    requires NamedIn(path, folder, names) && names <= more
    ensures NamedIn(path, folder, more)
  {
  }

  /** The path of a file names the file: it is among `names` exactly when its name is. */
  lemma TargetPathNames(folder: string, name: string, names: set<string>)
    ensures NamedIn(TargetPath(folder, name), folder, names) <==> name in names
    ensures NamedOutside(TargetPath(folder, name), folder, names) <==> name !in names
  {
    var dir, path := "Output/" + folder + "/", TargetPath(folder, name);
    assert path == dir + name;
    assert path[..|dir|] == dir && path[|dir|..] == name;
  }

  /** The names a list of pairs is saved under. */
  function SavedNames(refs: seq<ImageRef>, original: bool): set<string>
  {
    if refs == [] then {}
    else SavedNames(refs[..|refs| - 1], original) + {SavedName(refs[|refs| - 1], original)}
  }

  /** A name is among the saved names exactly when some pair is saved under it. */
  lemma {:induction false} SavedNamesMembers(refs: seq<ImageRef>, original: bool)
    ensures forall x :: x in refs ==> SavedName(x, original) in SavedNames(refs, original)
    ensures forall n :: n in SavedNames(refs, original) ==> exists x :: x in refs && SavedName(x, original) == n
  {
    if refs != [] {
      var init := refs[..|refs| - 1];
      SavedNamesMembers(init, original);
      forall x | x in refs ensures SavedName(x, original) in SavedNames(refs, original) {
        if x != refs[|refs| - 1] {
          assert x in init;
        }
      }
      forall n | n in SavedNames(refs, original) ensures exists x :: x in refs && SavedName(x, original) == n {
        if n in SavedNames(init, original) {
          var x :| x in init && SavedName(x, original) == n;
          assert x in refs;
        } else {
          assert SavedName(refs[|refs| - 1], original) == n;
        }
      }
    }
  }

  /**
   * The duplicate filter on values: the pairs whose saved name is not among
   * the `existing` file names, in their original order.
   */
  function NotYetSaved(refs: seq<ImageRef>, existing: set<string>, original: bool): seq<ImageRef>
  {
    if refs == [] then []
    else
      var last := refs[|refs| - 1];
      NotYetSaved(refs[..|refs| - 1], existing, original) +
      (if SavedName(last, original) in existing then [] else [last])
  }

  /** A pair is kept exactly when it is in the list and its saved name is not among the files. */
  lemma {:induction false} NotYetSavedKeepsExactlyNew(refs: seq<ImageRef>, existing: set<string>, original: bool)
    ensures forall x :: x in NotYetSaved(refs, existing, original) <==> x in refs && SavedName(x, original) !in existing
  {
    if refs != [] {
      var init := refs[..|refs| - 1];
      NotYetSavedKeepsExactlyNew(init, existing, original);
      forall x ensures x in NotYetSaved(refs, existing, original) <==> x in refs && SavedName(x, original) !in existing {
        assert x in refs <==> x in init || x == refs[|refs| - 1];
      }
    }
  }

  /**
   * The filter keeps every copy of a pair whose saved name is new and no
   * copy of the others.
   */
  lemma {:induction false} NotYetSavedMultiset(refs: seq<ImageRef>, existing: set<string>, original: bool, x: ImageRef)
    ensures multiset(NotYetSaved(refs, existing, original))[x] ==
            if SavedName(x, original) in existing then 0 else multiset(refs)[x]
  {
    if refs != [] {
      var init, last := refs[..|refs| - 1], refs[|refs| - 1];
      SplitLast(refs);
      NotYetSavedMultiset(init, existing, original, x);
      var kept := NotYetSaved(init, existing, original);
      var tail := if SavedName(last, original) in existing then [] else [last];
      MultisetSnoc(init, [last], x);
      MultisetSnoc(kept, tail, x);
      assert NotYetSaved(refs, existing, original) == kept + tail;
    }
  }

  lemma SplitLast(refs: seq<ImageRef>)
    requires refs != []
    ensures refs == refs[..|refs| - 1] + [refs[|refs| - 1]]
  {
  }

  lemma MultisetSnoc(a: seq<ImageRef>, b: seq<ImageRef>, x: ImageRef)
    ensures multiset(a + b)[x] == multiset(a)[x] + multiset(b)[x]
  {
  }

  /** `a` is `b` with some elements left out, the rest in the same order. */
  predicate IsSubsequence(a: seq<ImageRef>, b: seq<ImageRef>)
    decreases |b|
  {
    if |a| == 0 then true
    else if |b| == 0 then false
    else (a[|a| - 1] == b[|b| - 1] && IsSubsequence(a[..|a| - 1], b[..|b| - 1]))
         || IsSubsequence(a, b[..|b| - 1])
  }

  /** The filter only drops pairs: what it keeps keeps its relative order. */
  lemma {:induction false} NotYetSavedIsSubsequence(refs: seq<ImageRef>, existing: set<string>, original: bool)
    ensures IsSubsequence(NotYetSaved(refs, existing, original), refs)
  {
    if refs != [] {
      var init := refs[..|refs| - 1];
      NotYetSavedIsSubsequence(init, existing, original);
      var r, r' := NotYetSaved(refs, existing, original), NotYetSaved(init, existing, original);
      if r != r' {
        assert r[..|r| - 1] == r';
      }
    }
  }

  /** Filtering an already filtered list against the same files changes nothing. */
  lemma {:induction false} NotYetSavedIdempotent(refs: seq<ImageRef>, existing: set<string>, original: bool)
    ensures NotYetSaved(NotYetSaved(refs, existing, original), existing, original)
            == NotYetSaved(refs, existing, original)
  {
    if refs != [] {
      var init := refs[..|refs| - 1];
      NotYetSavedIdempotent(init, existing, original);
      var r, r' := NotYetSaved(refs, existing, original), NotYetSaved(init, existing, original);
      if r != r' {
        assert r[..|r| - 1] == r';
      }
    }
  }

  /**
   * Once the kept pairs are saved, filtering the same list again, against
   * those files and any others, keeps nothing.
   */
  lemma {:induction false} NothingLeftAfterSaving(refs: seq<ImageRef>, existing: set<string>, later: set<string>, original: bool)
    requires existing + SavedNames(NotYetSaved(refs, existing, original), original) <= later
    ensures NotYetSaved(refs, later, original) == []
  {
    if refs != [] {
      var init, last := refs[..|refs| - 1], refs[|refs| - 1];
      var kept, kept' := NotYetSaved(refs, existing, original), NotYetSaved(init, existing, original);
      if kept != kept' {
        assert kept[..|kept| - 1] == kept';
      }
      NothingLeftAfterSaving(init, existing, later, original);
    }
  }

  /**
   * The `urlretrieve` calls for a filtered list, in order: the URL always
   * names the storage file, the path the file's saved name.
   */
  function Retrievals(dl: seq<ImageRef>, board: string, folder: string, original: bool): (r: seq<Retrieval>)
    ensures |r| == |dl|
  {
    if dl == [] then []
    else
      var last := dl[|dl| - 1];
      Retrievals(dl[..|dl| - 1], board, folder, original) +
      [Retrieval(ImageUrl(board, last.storage), TargetPath(folder, SavedName(last, original)))]
  }

  /**
   * The `k`-th retrieval fetches the `k`-th pair's storage name from the CDN
   * and writes its saved name into the folder.
   */
  lemma {:induction false} RetrievalsInOrder(dl: seq<ImageRef>, board: string, folder: string, original: bool)
    ensures forall k :: 0 <= k < |dl| ==>
              Retrievals(dl, board, folder, original)[k] ==
              Retrieval(ImageUrl(board, dl[k].storage), TargetPath(folder, SavedName(dl[k], original)))
  {
    if dl != [] {
      var init := dl[..|dl| - 1];
      RetrievalsInOrder(init, board, folder, original);
      forall k | 0 <= k < |dl| - 1
        ensures Retrievals(dl, board, folder, original)[k] ==
                Retrieval(ImageUrl(board, dl[k].storage), TargetPath(folder, SavedName(dl[k], original)))
      {
        assert dl[k] == init[k];
      }
    }
  }

  /**
   * The naming mode decides only where a file is written: in both modes the
   * k-th retrieval fetches the k-th pair's storage name from the CDN.
   */
  lemma UrlIgnoresNamingMode(dl: seq<ImageRef>, board: string, folder: string)
    ensures forall k :: 0 <= k < |dl| ==>
              Retrievals(dl, board, folder, true)[k].url == Retrievals(dl, board, folder, false)[k].url
              == ImageUrl(board, dl[k].storage)
  {
    RetrievalsInOrder(dl, board, folder, true);
    RetrievalsInOrder(dl, board, folder, false);
  }

  /**
   * The `Output/` directory: the file names in each of its folders, and the
   * log of every `urlretrieve` made into it.
   */
  class OutputDir {
    var folders: map<string, set<string>>
    var retrievals: seq<Retrieval>

    constructor (existing: map<string, set<string>>)
      ensures folders == existing && retrievals == []
    {
      folders := existing;
      retrievals := [];
    }

    /** The files `os.path.exists` finds in `Output/<folder>/`: none when the folder is missing. */
    function FilesIn(folder: string): set<string>
      reads this
    {
      if folder in folders then folders[folder] else {}
    }

    /** `os.makedirs` when `Output/<name>` does not exist yet; no effect otherwise. */
    method MakeFolder(name: string)
      modifies this
      ensures name in folders
      ensures folders == if name in old(folders) then old(folders) else old(folders)[name := {}]
      ensures retrievals == old(retrievals)
    {
      if name !in folders {
        folders := folders[name := {}];
      }
    }

    /** `urlretrieve(url, 'Output/' + folder + '/' + name)` into an existing folder. */
    method Retrieve(url: string, folder: string, name: string)
      requires folder in folders
      modifies this
      ensures folders == old(folders)[folder := old(folders)[folder] + {name}]
      ensures retrievals == old(retrievals) + [Retrieval(url, TargetPath(folder, name))]
    {
      folders := folders[folder := folders[folder] + {name}];
      retrievals := retrievals + [Retrieval(url, TargetPath(folder, name))];
    }
  }

  /**
   * `check_for_duplicates`: keeps, in order, each pair whose saved name does
   * not exist in the folder.
   */
  method CheckForDuplicates(out: OutputDir, folder: string, pairs: seq<ImageRef>, cfg: Config)
    returns (dl: seq<ImageRef>)
    ensures dl == NotYetSaved(pairs, out.FilesIn(folder), cfg.original)
  {
    dl := [];
    var i := 0;
    while i < |pairs|
      invariant i <= |pairs|
      invariant dl == NotYetSaved(pairs[..i], out.FilesIn(folder), cfg.original)
    {
      var pair := pairs[i];
      var nameOption := SavedName(pair, cfg.original);
      assert pairs[..i + 1][..i] == pairs[..i];
      if nameOption !in out.FilesIn(folder) {
        dl := dl + [pair];
      }
      i := i + 1;
    }
    assert pairs[..|pairs|] == pairs;
  }

  /** What one more retrieval adds to the saved names and to the log. */
  lemma DownloadStep(dl: seq<ImageRef>, i: nat, board: string, folder: string, original: bool)
    requires i < |dl|
    ensures SavedNames(dl[..i + 1], original) == SavedNames(dl[..i], original) + {SavedName(dl[i], original)}
    ensures Retrievals(dl[..i + 1], board, folder, original) ==
            Retrievals(dl[..i], board, folder, original) +
            [Retrieval(ImageUrl(board, dl[i].storage), TargetPath(folder, SavedName(dl[i], original)))]
  {
    assert dl[..i + 1] == dl[..i] + [dl[i]];
    assert dl[..i + 1][..i] == dl[..i];
  }

  lemma MapUpdateSame(m: map<string, set<string>>, k: string)
    requires k in m
    ensures m[k := m[k]] == m
  {
  }

  lemma MapUpdateTwice(m: map<string, set<string>>, k: string, a: set<string>, b: set<string>)
    ensures m[k := a][k := b] == m[k := b]
  {
  }

  /**
   * The loop of `image_downloader`: retrieves each pair of `dl`, in order,
   * into the folder under its saved name.
   */
  method RetrieveAll(out: OutputDir, folder: string, dl: seq<ImageRef>, board: string, original: bool)
    requires folder in out.folders
    modifies out
    ensures out.folders == old(out.folders)[folder := old(out.folders[folder]) + SavedNames(dl, original)]
    ensures out.retrievals == old(out.retrievals) + Retrievals(dl, board, folder, original)
  {
    ghost var folders0, files0, log0 := out.folders, out.folders[folder], out.retrievals;
    var i := 0;
    assert out.folders == folders0[folder := files0 + SavedNames(dl[..0], original)] by {
      assert files0 + SavedNames(dl[..0], original) == files0;
      MapUpdateSame(folders0, folder);
    }
    while i < |dl|
      invariant i <= |dl|
      invariant out.folders == folders0[folder := files0 + SavedNames(dl[..i], original)]
      invariant out.retrievals == log0 + Retrievals(dl[..i], board, folder, original)
    {
      var pair := dl[i];
      var name := SavedName(pair, original);
      ghost var saved := files0 + SavedNames(dl[..i], original);
      ghost var done := Retrievals(dl[..i], board, folder, original);
      assert out.folders[folder] == saved;
      out.Retrieve(ImageUrl(board, pair.storage), folder, name);
      DownloadStep(dl, i, board, folder, original);
      assert out.retrievals == log0 + (done + [Retrieval(ImageUrl(board, pair.storage), TargetPath(folder, name))]);
      assert out.folders == folders0[folder := saved][folder := saved + {name}];
      MapUpdateTwice(folders0, folder, saved, saved + {name});
      assert saved + {name} == files0 + SavedNames(dl[..i + 1], original);
      i := i + 1;
    }
    assert dl[..|dl|] == dl;
  }

  /**
   * `image_downloader`: filters the pairs, then retrieves each remaining one
   * from the CDN into the folder, in order, and returns how many it retrieved.
   */
  method ImageDownloader(out: OutputDir, folder: string, pairs: seq<ImageRef>, board: string, cfg: Config)
    returns (dlNum: nat)
    requires folder in out.folders
    modifies out
    ensures var dl := NotYetSaved(pairs, old(out.folders[folder]), cfg.original);
            && dlNum == |dl|
            && out.folders == old(out.folders)[folder := old(out.folders[folder]) + SavedNames(dl, cfg.original)]
            && out.retrievals == old(out.retrievals) + Retrievals(dl, board, folder, cfg.original)
  {
    var dl := CheckForDuplicates(out, folder, pairs, cfg);
    RetrieveAll(out, folder, dl, board, cfg.original);
    dlNum := |dl|;
  }

  /**
   * Running `image_downloader` again on the same pairs, against the folder its
   * first run left, retrieves nothing.
   */
  method DownloadTwice(out: OutputDir, folder: string, pairs: seq<ImageRef>, board: string, cfg: Config)
    returns (first: nat, second: nat)
    requires folder in out.folders
    modifies out
    ensures first == |NotYetSaved(pairs, old(out.folders[folder]), cfg.original)|
    ensures second == 0
    ensures out.folders == old(out.folders)[folder := old(out.folders[folder]) + SavedNames(NotYetSaved(pairs, old(out.folders[folder]), cfg.original), cfg.original)]
    ensures out.retrievals == old(out.retrievals) + Retrievals(NotYetSaved(pairs, old(out.folders[folder]), cfg.original), board, folder, cfg.original)
  {
    first := ImageDownloader(out, folder, pairs, board, cfg);
    ghost var log, mid := out.retrievals, out.folders;
    NothingLeftAfterSaving(pairs, old(out.folders[folder]), out.folders[folder], cfg.original);
    second := ImageDownloader(out, folder, pairs, board, cfg);
    assert out.retrievals == log;
    assert mid[folder] + SavedNames(NotYetSaved(pairs, mid[folder], cfg.original), cfg.original) == mid[folder];
    MapUpdateSame(mid, folder);
    assert out.folders == mid;
  }
}
