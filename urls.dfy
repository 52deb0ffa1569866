/**
 * URL handling of chanimg: the thread URL is rewritten into the JSON API
 * endpoint (`link_parse`), the board code is cut out of it (`board_parse`),
 * and each image is addressed on the CDN by board and storage name.
 */
module Urls {
  import opened PyStr

  /** The only thread URL shape the tool is written for. */
  function ThreadUrl(board: string, id: string): (url: string)
  {
    "https://boards.4chan.org/" + board + "/thread/" + id
  }

  /** `link_parse`: `boards` becomes `a`, then `4chan` becomes `4cdn`, then `.json` is appended. */
  function LinkParse(url: string): (r: string)
    ensures HasSuffix(r, ".json")
  {
    ReplaceAll(ReplaceAll(url, "boards", "a"), "4chan", "4cdn") + ".json"
  }

  /**
   * `board_parse`: the slice from five characters past the first `.org` to
   * one character before the first `thread`, with Python's `find` (-1 when
   * absent) and Python's slice semantics for whatever bounds that gives.
   */
  function BoardParse(url: string): (r: string)
    ensures |r| <= |url|
  {
    PySlice(url, Find(url, ".org") + 5, Find(url, "thread") - 1)
  }

  /** The CDN address an image is fetched from. */
  function ImageUrl(board: string, storageName: string): (url: string)
  {
    "https://i.4cdn.org/" + board + "/" + storageName
  }

  /** A URL without either marker is only given the `.json` suffix. */
  lemma LinkParseUnmarked(url: string)
    requires !Contains(url, "boards") && !Contains(url, "4chan")
    ensures LinkParse(url) == url + ".json"
  {
    ReplaceAllAbsent(url, "boards", "a");
    ReplaceAllAbsent(url, "4chan", "4cdn");
  }

  /**
   * Replacing a pattern without `/` in `pre + board + "/thread/" + id`,
   * where `pre` ends in `/`, touches only `pre`.
   */
  lemma ReplaceAroundBoard(pre: string, board: string, id: string, p: string, r: string, c: char)
    requires |pre| > 0 && pre[|pre| - 1] == '/' && '/' !in p
    requires c in p && c !in "/thread/"
    requires !Contains(board, p) && !Contains(id, p)
    ensures ReplaceAll(pre + board + "/thread/" + id, p, r) == ReplaceAll(pre, p, r) + board + "/thread/" + id
  {
    var mid := pre + board + "/thread/";
    assert mid[|mid| - 1] == '/';
    ReplaceAllAppend(mid, id, p, r);
    ReplaceAllAppend(pre + board, "/thread/", p, r);
    ReplaceAllAppend(pre, board, p, r);
    ReplaceAllAbsent(board, p, r);
    ReplaceAllAbsent(id, p, r);
    ReplaceInPieceWithout("/thread/", p, r, c);
  }

  /**
   * For a canonical thread URL, `link_parse` gives the API endpoint on
   * `a.4cdn.org` with the same board and thread id.
   */
  lemma LinkParseThreadUrl(board: string, id: string)
    requires !Contains(board, "boards") && !Contains(id, "boards")
    requires !Contains(board, "4chan") && !Contains(id, "4chan")
    ensures LinkParse(ThreadUrl(board, id)) == "https://a.4cdn.org/" + board + "/thread/" + id + ".json"
  {
    ThreadUrlOnHost(board, id);
    BoardsBecomesA(board, id);
    ChanBecomesCdn(board, id);
  }

  lemma ThreadUrlOnHost(board: string, id: string)
    ensures ThreadUrl(board, id) == ("https://" + "boards" + ".4chan.org/") + board + "/thread/" + id
  {
  }

  /** The first replacement of `link_parse` renames the host only. */
  lemma BoardsBecomesA(board: string, id: string)
    requires !Contains(board, "boards") && !Contains(id, "boards")
    ensures ReplaceAll(("https://" + "boards" + ".4chan.org/") + board + "/thread/" + id, "boards", "a")
            == ("https://a." + "4chan" + ".org/") + board + "/thread/" + id
  {
    var host := "https://" + "boards" + ".4chan.org/";
    LiteralFacts();
    ReplaceAroundBoard(host, board, id, "boards", "a", 'b');
    HostWithoutBoards();
  }

  /** The second replacement of `link_parse` renames the host only. */
  lemma ChanBecomesCdn(board: string, id: string)
    requires !Contains(board, "4chan") && !Contains(id, "4chan")
    ensures ReplaceAll(("https://a." + "4chan" + ".org/") + board + "/thread/" + id, "4chan", "4cdn")
            == "https://a.4cdn.org/" + board + "/thread/" + id
  {
    var host := "https://a." + "4chan" + ".org/";
    LiteralFacts();
    ReplaceAroundBoard(host, board, id, "4chan", "4cdn", '4');
    HostWithout4chan();
  }

  /** The character facts about the host and pattern literals the replacements rely on. */
  lemma LiteralFacts()
    ensures var h1, h2 := "https://" + "boards" + ".4chan.org/", "https://a." + "4chan" + ".org/";
            && |h1| > 0 && h1[|h1| - 1] == '/' && |h2| > 0 && h2[|h2| - 1] == '/'
            && '/' !in "boards" && 'b' in "boards" && 'b' !in "/thread/"
            && '/' !in "4chan" && '4' in "4chan" && '4' !in "/thread/"
  {
  }

  // The host literals below are written as concatenations: a function
  // applied to one literal string is unfolded by the verifier without bound.

  /** Replacing `p` in a piece that lacks one of its characters changes nothing. */
  lemma ReplaceInPieceWithout(s: string, p: string, r: string, c: char)
    requires c in p && c !in s
    ensures ReplaceAll(s, p, r) == s
  {
    AbsentCharRulesOut(s, p, c);
    ReplaceAllAbsent(s, p, r);
  }

  lemma WholePattern(p: string, r: string)
    requires |p| > 0
    ensures ReplaceAll(p, p, r) == r
  {
    assert p[..|p|] == p;
    assert ReplaceAll(p[|p|..], p, r) == "";
  }

  /** Replacing in `x + p`, where `x` lacks a character of `p`, replaces just the final `p`. */
  lemma ReplaceCleanThenPattern(x: string, p: string, r: string, c: char)
    requires c in p && c !in x && NoCrossing(x, p, p)
    ensures ReplaceAll(x + p, p, r) == x + r
  {
    ReplaceAllAppend(x, p, p, r);
    ReplaceInPieceWithout(x, p, r, c);
    WholePattern(p, r);
  }

  /** Replacing in `x + y`, where `y` lacks a character of `p`, leaves `y` as it is. */
  lemma ReplaceThenClean(x: string, y: string, p: string, r: string, c: char)
    requires c in p && c !in y && NoCrossing(x, y, p)
    ensures ReplaceAll(x + y, p, r) == ReplaceAll(x, p, r) + y
  {
    ReplaceAllAppend(x, y, p, r);
    ReplaceInPieceWithout(y, p, r, c);
  }

  lemma HostWithoutBoards()
    ensures ReplaceAll("https://" + "boards" + ".4chan.org/", "boards", "a") == "https://a" + ".4chan.org/"
  {
    ReplaceThenClean("https://" + "boards", ".4chan.org/", "boards", "a", 'b');
    ReplaceCleanThenPattern("https://", "boards", "a", 'b');
  }

  lemma HostWithout4chan()
    ensures ReplaceAll("https://a." + "4chan" + ".org/", "4chan", "4cdn") == "https://a.4cdn.org/"
  {
    ReplaceThenClean("https://a." + "4chan", ".org/", "4chan", "4cdn", '4');
    ReplaceCleanThenPattern("https://a.", "4chan", "4cdn", '4');
  }

  /** `Find` skips a leading piece that lacks a character of `p` and ends outside `p`. */
  lemma FindAfterClean(x: string, y: string, p: string, c: char)
    requires c in p && c !in x && NoCrossing(x, y, p)
    ensures Find(x + y, p) == (if Find(y, p) < 0 then -1 else |x| + Find(y, p))
  {
    AbsentCharRulesOut(x, p, c);
    FindAppend(x, y, p);
  }

  /** A string that starts with `p` finds it at index 0. */
  lemma FindAtStart(s: string, p: string)
    requires |p| <= |s| && s[..|p|] == p
    ensures Find(s, p) == 0
  {
  }

  /** The canonical thread URL, cut after the host name. */
  lemma ThreadUrlAfterSite(board: string, id: string)
    ensures ThreadUrl(board, id) == ("https://" + "boards." + "4chan") + (".org/" + board + "/thread/" + id)
  {
  }

  /** In a canonical thread URL the first `.org` is at index 20. */
  lemma FindOrgInThreadUrl(board: string, id: string)
    ensures Find(ThreadUrl(board, id), ".org") == 20
  {
    var site := "https://" + "boards." + "4chan";
    var rest := ".org/" + board + "/thread/" + id;
    ThreadUrlAfterSite(board, id);
    FindAfterClean(site, rest, ".org", 'g');
    FindAtStart(rest, ".org");
  }

  /** The canonical thread URL, cut after the host and again after the board. */
  lemma ThreadUrlAfterHost(board: string, id: string)
    ensures ThreadUrl(board, id) == ("https://" + "boards." + "4chan.org/") + (board + ("/" + ("thread/" + id)))
  {
  }

  /** After the board code, `thread` is found just past the slash. */
  lemma FindThreadAfterBoard(board: string, id: string)
    requires !Contains(board, "thread")
    ensures Find(board + ("/" + ("thread/" + id)), "thread") == |board| + 1
  {
    var tail := "thread/" + id;
    assert tail[..6] == "thread";
    SlashNotInThread();
    FindPastSeparator(board, '/', tail, "thread");
  }

  lemma SlashNotInThread()
    ensures '/' !in "thread"
  {
  }

  /** `p` right after a separator outside `p`, following a piece without `p`, is found there. */
  lemma FindPastSeparator(before: string, sep: char, tail: string, p: string)
    requires |p| > 0 && sep !in p && !Contains(before, p)
    requires |p| <= |tail| && tail[..|p|] == p
    ensures Find(before + ([sep] + tail), p) == |before| + 1
  {
    FindAppend(before, [sep] + tail, p);
    FindAfterChar(sep, tail, p);
    FindAtStart(tail, p);
  }

  /** `Find` steps over a leading character that is not in `p`. */
  lemma FindAfterChar(c: char, s: string, p: string)
    requires |p| > 0 && c !in p
    ensures Find([c] + s, p) == (if Find(s, p) < 0 then -1 else 1 + Find(s, p))
  {
    var u := [c] + s;
    assert u[1..] == s;
    if |p| <= |u| {
      assert u[..|p|][0] == c;
    }
  }

  /** In a canonical thread URL the first `thread` follows the board and a slash. */
  lemma FindThreadInThreadUrl(board: string, id: string)
    requires !Contains(board, "thread")
    ensures Find(ThreadUrl(board, id), "thread") == 26 + |board|
  {
    var host := "https://" + "boards." + "4chan.org/";
    ThreadUrlAfterHost(board, id);
    FindAfterClean(host, board + ("/" + ("thread/" + id)), "thread", 'e');
    FindThreadAfterBoard(board, id);
  }

  /** For a canonical thread URL, `board_parse` returns exactly the board code. */
  lemma BoardParseThreadUrl(board: string, id: string)
    requires !Contains(board, "thread")
    ensures BoardParse(ThreadUrl(board, id)) == board
  {
    FindOrgInThreadUrl(board, id);
    FindThreadInThreadUrl(board, id);
    var url := ThreadUrl(board, id);
    assert url[25..25 + |board|] == board;
  }
}
