/** The program options, threaded explicitly instead of a global. */
module Settings {
  import opened Optional

  /**
   * `--monitor`, `--update` (seconds, default 60), `--original`,
   * `--foldername` (no override when `None`) and `--verbose`.
   */
  datatype Config = Config(
    monitor: bool,
    update: int,
    original: bool,
    foldername: Option<string>,
    verbose: bool)

  /** The interval check made before anything is fetched. */
  predicate UpdateAccepted(cfg: Config)
  {
    cfg.update >= 10
  }
}
