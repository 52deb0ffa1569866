/**
 * The thread snapshot returned by the JSON API and the image references
 * `list_maker` extracts from it.
 */
module Thread {
  import opened Optional
  import opened PyStr

  /**
   * One post of the thread JSON, reduced to the keys chanimg reads. A key
   * the post does not carry is `None`. Only the first post carries `replies`.
   */
  datatype Post = Post(
    no: int,
    sub: Option<string>,
    replies: Option<int>,
    filename: Option<string>,
    tim: Option<int>,
    ext: Option<string>)

  /** The `posts` array of one fetch, in thread order. */
  type Snapshot = seq<Post>

  /** An image pair: the uploader's file name and the server's storage name. */
  datatype ImageRef = ImageRef(original: string, storage: string)

  /** The post carries all three of `filename`, `tim` and `ext`. */
  predicate HasImage(p: Post)
  {
    p.filename.Some? && p.tim.Some? && p.ext.Some?
  }

  /** The pair `[str(filename) + ext, str(tim) + ext]` of a post with an image. */
  function RefOf(p: Post): ImageRef
    requires HasImage(p)
  {
    ImageRef(p.filename.value + p.ext.value, IntToString(p.tim.value) + p.ext.value)
  }

  /**
   * What `list_maker` needs in order not to fail: a first post that carries
   * `replies` (otherwise `js['posts'][0]['replies']` raises).
   */
  predicate WellFormed(js: Snapshot)
  {
    |js| > 0 && js[0].replies.Some?
  }

  /** How many slots `range(replies + 1)` visits; none when that is negative. */
  function SlotCount(js: Snapshot): nat
    requires WellFormed(js)
  {
    var count := js[0].replies.value + 1;
    if count < 0 then 0 else count
  }

  /**
   * The pairs extracted from slots `0 .. k-1`, in slot order: a slot past the
   * end of the posts, or a post lacking one of the image keys, adds nothing.
   */
  function RefsInSlots(js: Snapshot, k: nat): (r: seq<ImageRef>)
    ensures |r| <= k && |r| <= |js|
  {
    if k == 0 then []
    else RefsInSlots(js, k - 1) + (if k - 1 < |js| && HasImage(js[k - 1]) then [RefOf(js[k - 1])] else [])
  }

  /** The indices among slots `0 .. k-1` that hold a post with an image, in slot order. */
  function ImageSlots(js: Snapshot, k: nat): seq<nat>
  {
    if k == 0 then []
    else ImageSlots(js, k - 1) + (if k - 1 < |js| && HasImage(js[k - 1]) then [k - 1] else [])
  }

  /**
   * The image slots are every slot below `k` that holds a post with an
   * image, each once, in increasing order.
   */
  lemma {:induction false} ImageSlotsAreTheImagePosts(js: Snapshot, k: nat)
    ensures var idx := ImageSlots(js, k);
            && (forall a :: 0 <= a < |idx| ==> idx[a] < k)
            && (forall a, b :: 0 <= a < b < |idx| ==> idx[a] < idx[b])
            && (forall i :: i in idx <==> 0 <= i < k && i < |js| && HasImage(js[i]))
  {
    if k > 0 {
      ImageSlotsAreTheImagePosts(js, k - 1);
      var idx, idx' := ImageSlots(js, k), ImageSlots(js, k - 1);
      if k - 1 < |js| && HasImage(js[k - 1]) {
        assert idx == idx' + [k - 1];
        forall a, b | 0 <= a < b < |idx| ensures idx[a] < idx[b] {
          if b < |idx'| {
            assert idx[a] == idx'[a] && idx[b] == idx'[b];
          } else {
            assert idx[a] == idx'[a];
          }
        }
      } else {
        assert idx == idx';
      }
    }
  }

  /** `r[j]` is the pair of post `js[idx[j]]`, for every `j`. */
  predicate PairsOf(r: seq<ImageRef>, idx: seq<nat>, js: Snapshot)
  {
    |r| == |idx| &&
    forall j :: 0 <= j < |idx| ==> idx[j] < |js| && HasImage(js[idx[j]]) && r[j] == RefOf(js[idx[j]])
  }

  lemma PairsOfSnoc(r: seq<ImageRef>, idx: seq<nat>, js: Snapshot, i: nat)
    requires PairsOf(r, idx, js) && i < |js| && HasImage(js[i])
    ensures PairsOf(r + [RefOf(js[i])], idx + [i], js)
  {
    var r2, idx2 := r + [RefOf(js[i])], idx + [i];
    forall j | 0 <= j < |idx2|
      ensures idx2[j] < |js| && HasImage(js[idx2[j]]) && r2[j] == RefOf(js[idx2[j]])
    {
      if j < |idx| {
        assert idx2[j] == idx[j] && r2[j] == r[j];
      }
    }
  }

  /**
   * The extracted pairs are exactly one pair per image slot, in slot order:
   * the j-th pair is the pair of the j-th slot that holds an image.
   */
  lemma {:induction false} RefsAreImageSlots(js: Snapshot, k: nat)
    ensures PairsOf(RefsInSlots(js, k), ImageSlots(js, k), js)
  {
    if k > 0 {
      RefsAreImageSlots(js, k - 1);
      var idx, idx' := ImageSlots(js, k), ImageSlots(js, k - 1);
      var r, r' := RefsInSlots(js, k), RefsInSlots(js, k - 1);
      if k - 1 < |js| && HasImage(js[k - 1]) {
        assert idx == idx' + [k - 1] && r == r' + [RefOf(js[k - 1])];
        PairsOfSnoc(r', idx', js, k - 1);
      } else {
        assert idx == idx' && r == r';
      }
    }
  }

  /** Slots at or beyond the end of the posts contribute nothing. */
  lemma {:induction false} RefsInSlotsBeyondEnd(js: Snapshot, k: nat)
    requires k >= |js|
    ensures RefsInSlots(js, k) == RefsInSlots(js, |js|)
  {
    if k > |js| {
      RefsInSlotsBeyondEnd(js, k - 1);
    }
  }

  /**
   * `list_maker`: walks slots `0 .. replies` and appends the pair of every
   * post found there that has an image.
   */
  method ListMaker(js: Snapshot) returns (pairs: seq<ImageRef>)
    requires WellFormed(js)
    ensures pairs == RefsInSlots(js, SlotCount(js))
    ensures |pairs| <= SlotCount(js)
  {
    pairs := [];
    var count := js[0].replies.value + 1;
    var i: nat := 0;
    while i < count
      invariant i <= SlotCount(js)
      invariant pairs == RefsInSlots(js, i)
    {
      if i < |js| && HasImage(js[i]) {
        pairs := pairs + [RefOf(js[i])];
      }
      i := i + 1;
    }
    assert i == SlotCount(js);
  }
}
