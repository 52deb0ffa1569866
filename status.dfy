/** The status line `dl_status` prints after each cycle. */
module Status {
  import opened PyStr
  import opened Settings

  /** `No images`, `1 image` or `N images`: the choice made on `dl_num`. */
  function CountPhrase(dlNum: nat): string
  {
    if dlNum == 0 then "No images to download."
    else if dlNum == 1 then "Downloaded 1 image."
    else "Downloaded " + NatToString(dlNum) + " images."
  }

  /** The sentence monitor mode appends, naming the update interval. */
  function WaitingPhrase(update: int): string
  {
    " Waiting " + IntToString(update) + " seconds to update."
  }

  /** `dl_status`: the count phrase, followed by the waiting phrase in monitor mode. */
  function StatusMessage(dlNum: nat, cfg: Config): (m: string)
    ensures HasPrefix(m, CountPhrase(dlNum))
    ensures cfg.monitor ==> HasSuffix(m, WaitingPhrase(cfg.update))
  {
    CountPhrase(dlNum) + (if cfg.monitor then WaitingPhrase(cfg.update) else "")
  }

  /** The message ends by announcing the wait exactly in monitor mode. */
  lemma StatusAnnouncesWaitIffMonitor(dlNum: nat, cfg: Config)
    ensures HasSuffix(StatusMessage(dlNum, cfg), " seconds to update.") <==> cfg.monitor
  {
    if cfg.monitor {
      WaitingPhraseAnnounces(StatusMessage(dlNum, cfg), cfg.update);
    } else {
      CountPhraseDoesNotWait(dlNum);
    }
  }

  lemma WaitingPhraseAnnounces(m: string, update: int)
    requires HasSuffix(m, WaitingPhrase(update))
    ensures HasSuffix(m, " seconds to update.")
  {
    var tail, w := " seconds to update.", WaitingPhrase(update);
    assert w == " Waiting " + IntToString(update) + tail;
    assert m[|m| - |tail|..] == w[|w| - |tail|..];
  }

  /** A string whose `k`-th character from the end differs from `t`'s does not end in `t`. */
  lemma DiffersFromEnd(m: string, t: string, k: nat)
    requires 1 <= k <= |t| && k <= |m| && m[|m| - k] != t[|t| - k]
    ensures !HasSuffix(m, t)
  {
  }

  lemma CountPhraseDoesNotWait(dlNum: nat)
    ensures !HasSuffix(CountPhrase(dlNum), " seconds to update.")
  {
    var m, tail := CountPhrase(dlNum), " seconds to update.";
    if dlNum == 0 {
      assert m[|m| - 2] == 'd' && tail[|tail| - 2] == 'e';
      DiffersFromEnd(m, tail, 2);
    } else if dlNum == 1 {
      assert m[|m| - 3] == 'g' && tail[|tail| - 3] == 't';
      DiffersFromEnd(m, tail, 3);
    } else {
      assert |m| >= |tail|;
      assert m[|m| - 2] == 's' && tail[|tail| - 2] == 'e';
      DiffersFromEnd(m, tail, 2);
    }
  }

  /** Which of the three phrases is chosen: none, exactly one, or several. */
  lemma StatusChoosesByCount(dlNum: nat, cfg: Config)
    ensures HasPrefix(StatusMessage(dlNum, cfg), "No images to download.") <==> dlNum == 0
    ensures HasPrefix(StatusMessage(dlNum, cfg), "Downloaded 1 image.") <==> dlNum == 1
    ensures dlNum >= 2 <==> HasPrefix(StatusMessage(dlNum, cfg), "Downloaded " + NatToString(dlNum) + " images.")
  {
    var m := StatusMessage(dlNum, cfg);
    if dlNum == 0 {
      NoImagesIsNotDownloaded(m, "Downloaded 1 image.");
    } else if dlNum == 1 {
      DownloadedIsNotNoImages(m);
      OneIsNotSeveral(m);
    } else {
      DownloadedIsNotNoImages(m);
      NatToStringDigits(dlNum);
      SeveralIsNotOne(m, NatToString(dlNum));
    }
  }

  lemma NoImagesIsNotDownloaded(m: string, p: string)
    requires HasPrefix(m, "No images to download.") && |p| > 0 && p[0] == 'D'
    ensures !HasPrefix(m, p)
  {
    assert m[0] == 'N';
  }

  lemma DownloadedIsNotNoImages(m: string)
    requires |m| > 0 && m[0] == 'D'
    ensures !HasPrefix(m, "No images to download.")
  {
  }

  lemma SeveralIsNotOne(m: string, s: string)
    requires |s| > 0 && AllDigits(s) && HasPrefix(m, "Downloaded " + s + " images.")
    ensures !HasPrefix(m, "Downloaded 1 image.")
  {
    if |s| == 1 {
      assert m[18] == 's';
    } else {
      assert m[12] == s[1] && '0' <= s[1] <= '9';
    }
  }

  lemma OneIsNotSeveral(m: string)
    requires HasPrefix(m, "Downloaded 1 image.")
    ensures !HasPrefix(m, "Downloaded " + NatToString(1) + " images.")
  {
    var p := "Downloaded " + NatToString(1) + " images.";
    assert NatToString(1) == [DigitChar(1)];
    assert p[18] == 's' && m[18] == '.';
  }

  /** Distinct counts give distinct messages: the count can be read back from the message. */
  lemma {:induction false} StatusMessageInjective(n1: nat, n2: nat, cfg: Config)
    requires StatusMessage(n1, cfg) == StatusMessage(n2, cfg)
    ensures n1 == n2
  {
    StatusChoosesByCount(n1, cfg);
    StatusChoosesByCount(n2, cfg);
    if n1 >= 2 && n2 >= 2 {
      var s1, s2 := NatToString(n1), NatToString(n2);
      var w := if cfg.monitor then WaitingPhrase(cfg.update) else "";
      assert StatusMessage(n1, cfg) == "Downloaded " + s1 + " images." + w;
      assert StatusMessage(n2, cfg) == "Downloaded " + s2 + " images." + w;
      SameFrameSameMiddle("Downloaded ", s1, s2, " images.", w);
      NatToStringRoundTrip(n1);
      NatToStringRoundTrip(n2);
    }
  }

  /** Equal strings built from the same frame around two middles have equal middles. */
  lemma SameFrameSameMiddle(pre: string, a: string, b: string, mid: string, post: string)
    requires pre + a + mid + post == pre + b + mid + post
    ensures a == b
  {
    var m := pre + a + mid + post;
    assert |a| == |b|;
    assert a == m[|pre|..|pre| + |a|];
    assert b == (pre + b + mid + post)[|pre|..|pre| + |b|];
  }
}
