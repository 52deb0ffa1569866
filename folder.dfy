/** The folder name `make_folder` chooses under `Output/`. */
module FolderNaming {
  import opened Optional
  import opened PyStr
  import opened Thread
  import opened Settings

  /**
   * The name before sanitising: the override when one is given, otherwise
   * `board - no - sub`, or `board - no` when the first post has no subject.
   * The first post is read only when there is no override; without one,
   * a missing first post makes `make_folder` fail.
   */
  function RawFolderName(cfg: Config, board: string, op: Option<Post>): string
    requires cfg.foldername.Some? || op.Some?
  {
    match cfg.foldername
    case Some(name) => name
    case None =>
      var post := op.value;
      if post.sub.Some? then board + " - " + IntToString(post.no) + " - " + post.sub.value
      else board + " - " + IntToString(post.no)
  }

  /** `make_folder`'s name: the raw name with every `/` removed. */
  function FolderName(cfg: Config, board: string, op: Option<Post>): (name: string)
    requires cfg.foldername.Some? || op.Some?
    ensures '/' !in name
    ensures |name| <= |RawFolderName(cfg, board, op)|
  {
    var raw := RawFolderName(cfg, board, op);
    if '/' in raw then
      ReplaceCharByNothing(raw, '/');
      ReplaceAll(raw, "/", "")
    else raw
  }

  /** The folder name is the raw name with exactly its `/` characters deleted. */
  lemma FolderNameDeletesSlashes(cfg: Config, board: string, op: Option<Post>)
    requires cfg.foldername.Some? || op.Some?
    ensures FolderName(cfg, board, op) == Without(RawFolderName(cfg, board, op), '/')
  {
    var raw := RawFolderName(cfg, board, op);
    ReplaceCharByNothing(raw, '/');
    if '/' !in raw {
      WithoutAbsent(raw, '/');
    }
  }

  /** Without an override the name is built from board, thread number and subject. */
  lemma FolderNameFromThread(cfg: Config, board: string, op: Post)
    requires cfg.foldername.None? && '/' !in board
    requires op.sub.Some? ==> '/' !in op.sub.value
    ensures op.sub.Some? ==>
              FolderName(cfg, board, Some(op)) == board + " - " + IntToString(op.no) + " - " + op.sub.value
    ensures op.sub.None? ==>
              FolderName(cfg, board, Some(op)) == board + " - " + IntToString(op.no)
  {
    IntToStringHasNoSlash(op.no);
  }

  /** With an override, the name is the override with its `/` characters deleted. */
  lemma FolderNameOverride(cfg: Config, board: string, op: Option<Post>)
    requires cfg.foldername.Some?
    ensures FolderName(cfg, board, op) == Without(cfg.foldername.value, '/')
  {
    FolderNameDeletesSlashes(cfg, board, op);
  }

  /** Without an override, only the subject can lose characters, and only its `/`s. */
  lemma FolderNameStripsSubject(cfg: Config, board: string, op: Post)
    requires cfg.foldername.None? && '/' !in board && op.sub.Some?
    ensures FolderName(cfg, board, Some(op)) == board + " - " + IntToString(op.no) + " - " + Without(op.sub.value, '/')
  {
    var head := board + " - " + IntToString(op.no) + " - ";
    IntToStringHasNoSlash(op.no);
    assert RawFolderName(cfg, board, Some(op)) == head + op.sub.value;
    FolderNameDeletesSlashes(cfg, board, Some(op));
    WithoutAppend(head, op.sub.value, '/');
    WithoutAbsent(head, '/');
  }

  lemma Str123()
    ensures IntToString(123) == "123"
  {
    assert NatToString(1) == "1";
    assert NatToString(12) == "12";
  }

  /** Board `g`, thread 123, subject `a/b`: the folder is `g - 123 - ab`. */
  lemma FolderNameExample(cfg: Config, op: Post)
    requires cfg.foldername.None? && op.no == 123 && op.sub == Some("a/b")
    ensures FolderName(cfg, "g", Some(op)) == "g - 123 - ab"
  {
    FolderNameStripsSubject(cfg, "g", op);
    Str123();
    SubjectExample();
    NameExample();
  }

  lemma SubjectExample()
    ensures Without("a/b", '/') == "ab"
  {
  }

  lemma NameExample()
    ensures "g" + " - " + "123" + " - " + "ab" == "g - 123 - ab"
  {
  }
}
