# chanimg, modelled in Dafny

chanimg is a command-line 4chan image downloader. It takes a thread URL and
turns it into the JSON API endpoint (`link_parse`). It cuts the board code
out of the URL (`board_parse`) and fetches the thread once. Next it names
and creates a folder under `Output/` (`make_folder`). Then it runs one
download cycle (`thread_download`) or, in monitor mode, one cycle per update
interval (`thread_monitor`). A cycle extracts the image pairs of the thread
(`list_maker`) and drops those already in the folder
(`check_for_duplicates`). It retrieves the rest from the CDN
(`image_downloader`) and prints a status line (`dl_status`). Before
anything else, an update interval below 10 seconds ends the run.

The model is organised by component:

- `pystr.dfy` (`PyStr`): the Python string operations the tool uses, with
  Python's semantics. These are `str.find`, `str.replace`, slicing with
  negative and out-of-range bounds, and `str()` of an integer.
- `urls.dfy` (`Urls`): `link_parse`, `board_parse` and the CDN image address.
- `thread.dfy` (`Thread`): posts, snapshots and `list_maker`.
- `folder.dfy` (`FolderNaming`): the folder name chosen by `make_folder`.
- `downloads.dfy` (`Downloads`): the `Output/` directory as a class with a
  map from folder to file names and a log of `urlretrieve` calls.
  `check_for_duplicates` and `image_downloader` are methods over it.
- `status.dfy` (`Status`): the message `dl_status` prints.
- `settings.dfy` (`Settings`): the options, passed as a `Config` value
  instead of the global `args`.
- `monitor.dfy` (`Monitor`): the JSON endpoint as a class that answers
  fetches from a script, plus the cycles and the whole run. `__main__`
  is modelled as `Run`.

The methods are proved against value-level definitions. `NotYetSaved` is the
duplicate filter and `Retrievals` the retrievals of a list. `Cycle` is one
cycle on a snapshot. `Monitored` and `MonitoredFolder` give the progress and
the folder after `n` cycles of a run. The lemmas state what those
definitions promise.

A snapshot that cannot be read stops the run, in three cases. The fetch
may have failed, so `load_json` returned `None` and indexing it raises
`TypeError`. The `posts` list may be empty, so `posts[0]` raises
`IndexError`. Or the first post may lack `replies`, which raises
`KeyError`. For a snapshot a cycle reads, all three happen at chanimg.py:81,
in `list_maker`, and nothing catches them. For the startup snapshot without
`--foldername`, a failed fetch or an empty `posts` list fails earlier, in
`make_folder` at chanimg.py:57-59; `Run` reports that as `FolderFailed`.
A sturdier tool would count such a cycle as zero images and
keep monitoring. The model follows the code: `Report.stopped` records the
stop, and no later cycle runs.

## Model

| member | source | states |
|---|---|---|
| Urls.LinkParse | chanimg.py:25-30 | the endpoint always ends in `.json` |
| Urls.LinkParseThreadUrl | chanimg.py:25-30 | for `https://boards.4chan.org/<board>/thread/<id>`, the endpoint is `https://a.4cdn.org/<board>/thread/<id>.json`, when neither board nor id contain `boards` or `4chan` |
| Urls.LinkParseUnmarked | chanimg.py:25-30 | a URL with neither `boards` nor `4chan` in it only gains the `.json` suffix |
| Urls.BoardParse | chanimg.py:32-37 | the board slice, taken with Python's `find` and slice rules, is never longer than the URL |
| Urls.BoardParseThreadUrl | chanimg.py:32-37 | for a canonical thread URL whose board does not contain `thread`, the five-past-`.org` to one-before-`thread` slice is exactly the board code |
| PyStr.Find | chanimg.py:34-35 | `find` returns -1 or an index within the string |
| PyStr.FindIsFirstOccurrence | chanimg.py:34-35 | `find` returns -1 exactly when the pattern does not occur, and otherwise its first occurrence |
| PyStr.ReplaceAllAppend | chanimg.py:27-28 | `ReplaceAll`, Python's left-to-right `str.replace`: replacing in `x + y` is replacing in each part when no occurrence can straddle the join |
| PyStr.ReplaceAllAbsent | chanimg.py:27-28 | replacing a pattern that does not occur changes nothing |
| PyStr.ReplaceCharByNothing | chanimg.py:64-65 | `replace('/', '')` deletes exactly the `/` characters |
| PyStr.PySlice | chanimg.py:37 | a slice is never longer than the string, and within bounds it is the ordinary subsequence |
| PyStr.NatToStringRoundTrip | chanimg.py:57 | `NatToString` and `IntToString`, Python's `str()` of an integer: `str(n)` of a natural number reads back as `n` |
| PyStr.NatToStringDigits | chanimg.py:89 | `str(n)` of a natural number is all decimal digits |
| PyStr.IntToStringHasNoSlash | chanimg.py:57-65 | the thread number contributes no `/` to a folder name |
| FolderNaming.FolderName | chanimg.py:52-65 | the folder name contains no `/`, so it never nests, and it is no longer than the raw name |
| FolderNaming.FolderNameDeletesSlashes | chanimg.py:63-65 | the folder name is the raw name (`RawFolderName`: the override, or `board - no[ - sub]`) with its `/` characters deleted and nothing else changed |
| FolderNaming.FolderNameFromThread | chanimg.py:54-59 | without an override the name is `board - no - sub`, or `board - no` when the first post has no subject |
| FolderNaming.FolderNameOverride | chanimg.py:60-65 | with `--foldername` the name is the override with its `/` deleted, and the first post is not consulted |
| FolderNaming.FolderNameStripsSubject | chanimg.py:54-65 | without an override, only the subject's `/` characters are removed |
| FolderNaming.FolderNameExample | chanimg.py:54-65 | board `g`, thread 123 and subject `a/b` give the folder `g - 123 - ab` |
| Downloads.OutputDir.MakeFolder | chanimg.py:67-72 | the folder exists afterwards; an existing one keeps its files, a missing one is created empty, and nothing is retrieved |
| Downloads.OutputDir.Retrieve | chanimg.py:144 | `urlretrieve` adds the file name to its folder, leaves the other folders alone, and logs the call |
| Thread.RefsInSlots | chanimg.py:83-96 | no more pairs than slots visited, and no more than there are posts |
| Thread.RefsAreImageSlots | chanimg.py:83-96 | the j-th extracted pair is `RefOf` (`[filename + ext, str(tim) + ext]`) of the post in the j-th slot that holds a post with all three image keys |
| Thread.ImageSlotsAreTheImagePosts | chanimg.py:83-96 | the image slots are, in increasing order and each once, exactly the visited posts that carry `filename`, `tim` and `ext` |
| Thread.RefsInSlotsBeyondEnd | chanimg.py:83-96 | slots past the last post add nothing (the `IndexError` is swallowed) |
| Thread.ListMaker | chanimg.py:76-98 | the loop over `range(replies + 1)` returns the pairs of the image slots, in order, and at most one per slot |
| Downloads.CheckForDuplicates | chanimg.py:100-117 | the loop returns the duplicate filter of the pairs against the folder's current files |
| Downloads.NotYetSavedKeepsExactlyNew | chanimg.py:104-115 | a pair is kept if and only if it is in the list and its saved name (`SavedName`: the original name with `--original`, otherwise the storage name) is not in the folder |
| Downloads.NotYetSavedMultiset | chanimg.py:104-115 | every copy of a pair whose saved name is not in the folder is kept, and no copy of any other pair |
| Downloads.TargetPathNames | chanimg.py:144 | a path `Output/<folder>/<name>` is among a set of names of the folder exactly when `name` is |
| Downloads.NotYetSavedIsSubsequence | chanimg.py:100-117 | the filter only drops pairs and keeps the rest in order |
| Downloads.NotYetSavedIdempotent | chanimg.py:100-117 | filtering a filtered list again against the same files changes nothing |
| Downloads.SavedNamesMembers | chanimg.py:134-144 | the names written are exactly the saved names of the retrieved pairs |
| Downloads.Retrievals | chanimg.py:128-146 | one retrieval per pair to download |
| Downloads.RetrievalsInOrder | chanimg.py:128-146 | the k-th retrieval fetches the k-th pair's storage name from the CDN and writes `Output/<folder>/<saved name>` |
| Downloads.UrlIgnoresNamingMode | chanimg.py:134-144 | the naming mode decides only the path: with `--original` or without, the k-th retrieval fetches `ImageUrl`, `https://i.4cdn.org/<board>/<storage name>`, of the k-th pair |
| Downloads.NothingLeftAfterSaving | chanimg.py:100-147 | once the kept pairs are saved, filtering the same pairs again keeps nothing |
| Downloads.RetrieveAll | chanimg.py:128-146 | the download loop adds the saved names to the folder, changes no other folder, and logs the retrievals in order |
| Downloads.ImageDownloader | chanimg.py:119-147 | `dl_num` is the number of pairs not yet saved; exactly those are retrieved, in order, and their names added to the folder |
| Downloads.DownloadTwice | chanimg.py:119-147 | a second run on the same pairs against the folder the first left retrieves nothing; the folder ends with its old files plus the saved names of the pairs the first run retrieved, and the log holds only the first run's retrievals |
| Status.StatusMessage | chanimg.py:149-168 | the message starts with the count phrase, and in monitor mode ends with the waiting phrase naming the interval |
| Status.StatusChoosesByCount | chanimg.py:151-165 | `CountPhrase` picks `No images to download.` if and only if zero, `Downloaded 1 image.` if and only if one, `Downloaded N images.` if and only if two or more |
| Status.StatusAnnouncesWaitIffMonitor | chanimg.py:151-165 | the message ends in ` seconds to update.` if and only if the run monitors |
| Status.StatusMessageInjective | chanimg.py:149-165 | distinct counts print distinct messages |
| Monitor.ThreadSource.Fetch | chanimg.py:39-50 | a fetch returns the next scripted answer (`None` for an HTTP or connection error), consumes it, and logs the request |
| Monitor.Cycles | chanimg.py:198-210 | each cycle on a readable snapshot records exactly one count |
| Monitor.StatusesSnoc | chanimg.py:206-208 | each finished cycle appends its own status line |
| Monitor.MonitoredFetchesOncePerLaterCycle | chanimg.py:196-201 | the first cycle fetches nothing and every later cycle fetches once; a run that did not stop read a snapshot in every cycle |
| Monitor.MonitoredReadsEachInput | chanimg.py:196-205 | cycle 0 inputs the startup snapshot and cycle k the k-th fetch; only readable snapshots are input, and a stop happens exactly at an unreadable one |
| Monitor.MonitoredStaysStopped | chanimg.py:205 | after the stop caused by `list_maker` failing, nothing further is fetched, input or retrieved |
| Monitor.MonitoredFolderIsCycles | chanimg.py:198-206 | the folder after the cycles is the folder of running a cycle on each snapshot read, in order |
| Monitor.SingleCycleIgnoresLaterAnswers | chanimg.py:182-190 | a single cycle depends on the startup snapshot only |
| Monitor.CyclesOnlyAdd | chanimg.py:198-206 | later cycles only add: files grow, and the log and counts extend the earlier ones |
| Monitor.CycleOnlyAdds | chanimg.py:205-206 | one cycle only adds files, log entries and a count |
| Monitor.CyclesCountsAddUp | chanimg.py:129-147 | over any cycles, the reported counts add up to the number of retrievals made |
| Monitor.RepeatedSnapshotRetrievesNothing | chanimg.py:198-206 | a cycle on the same snapshot as the cycle before it reports 0 and changes nothing |
| Monitor.CycleWritesOnlyNewNames | chanimg.py:205-206 | every file a cycle writes has a name the folder lacked before the cycle and has after it |
| Monitor.CyclesWriteSavedNames | chanimg.py:198-206 | every file the cycles write is in the folder after them |
| Monitor.LaterCyclesWriteNewNames | chanimg.py:198-206 | the cycles after the first `k` write only names the folder lacked after those `k` |
| Monitor.CyclesNeverRewrite | chanimg.py:198-206 | no file written in one cycle is written again in a later cycle, whatever the later snapshots hold |
| Monitor.NextInput | chanimg.py:196-201 | the first cycle reuses the startup snapshot without fetching; every later one fetches the endpoint once |
| Monitor.CheckThread | chanimg.py:203-206 | `list_maker` then `image_downloader`: an unreadable snapshot retrieves nothing and yields no count; a readable one moves the folder on by one cycle, whose count is returned |
| Monitor.MonitorOnce | chanimg.py:198-206 | one pass of the monitor loop inputs the snapshot of cycle k and moves the folder, the fetch log and the progress from cycle k to cycle k + 1 |
| Monitor.ThreadMonitor | chanimg.py:192-210 | `cycles` monitor cycles: the folder, the retrieval log, the counts and status lines, the fetches and whether the run stopped are those of `Monitored` and `MonitoredFolder` |
| Monitor.ThreadDownload | chanimg.py:182-190 | one cycle on the startup snapshot, with its count and status line |
| Monitor.RunCycles | chanimg.py:224-229 | the folder is made if missing, then one cycle, or `cycles` monitor cycles, run in it |
| Monitor.Run | chanimg.py:212-229 | an interval below 10 ends the run before any fetch or write; otherwise the endpoint is fetched once, a missing first post without an override fails the folder step, and otherwise the cycles run in the folder `make_folder` names |

## Left out

- Argument parsing (`get_args`): the options arrive as a `Config` value; the default interval of 60 is not modelled.
- Network I/O and JSON decoding: `load_json` is a `ThreadSource` that answers from a script, `None` standing for an HTTP or URL error. The error messages it prints are not modelled.
- `urlretrieve`: modelled as an entry in the retrieval log and a name added to the folder. A failing download, which raises and ends the run, is not modelled.
- `sleep`, `timer` and `KeyboardInterrupt`: the monitor loop runs a given number of `cycles`, standing for the user interrupting during the wait after the last one.
- Printing: the `Checking thread...`, `Downloading N images...` and verbose progress lines, the blank line after a status, and the interval error message. The status line itself is modelled as a string.
- `exit()`: the methods return instead.
- Downloads.OutputDir.MakeFolder: the `OSError` path of `os.makedirs` (the message is printed, the run goes on and fails at the first download) is not modelled.
- Downloads.OutputDir: file paths are flat. A saved name that contains `/`, or a name equal to a subfolder, is not given file-system meaning.
- Thread.Post: `no` is always present and `sub`, `filename` and `ext` are strings. A post missing `no`, or keys of other JSON types, are not modelled.
- Urls.BoardParse: its general contract gives only a length bound. The exact result is proved only for the canonical `https://boards.4chan.org/<board>/thread/<id>` URL, in Urls.BoardParseThreadUrl.
- Urls.LinkParseThreadUrl: stated only for the canonical thread URL shape. For other shapes, the general properties of `ReplaceAll` apply.
