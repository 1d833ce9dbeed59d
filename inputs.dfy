/**
 * What one run of the generator reads: the parsed configuration file and
 * the host it runs on (file system, tag reader and integer parser), given
 * as functions.
 */
module Inputs {
  import opened Wrappers

  /** The key/value pairs of one configuration section. */
  type Section = map<string, string>

  /**
   * A parsed configuration: the section names in the order configparser
   * lists them (which includes its DEFAULT section) and each section's pairs.
   */
  datatype Config = Config(order: seq<string>, sections: map<string, Section>)

  /** Every listed section exists, every section is listed, none twice. */
  predicate WellFormed(cfg: Config)
  {
    && NoDups(cfg.order)
    && cfg.sections.Keys == set n | n in cfg.order
  }

  /** The section that holds the global settings; every other section is an artist. */
  const GENERAL: string := "General"

  // Keys of the section fields.
  const INCLUDE_KEY: string := "include"
  const EXCLUDE_KEY: string := "exclude"
  const RANDOM_KEY: string := "random"
  const OUTPUT_PATH_KEY: string := "outputPath"
  const DIRS_KEY: string := "dirs"

  /**
   * The host's answers: `os.path.isfile`, `os.path.isdir`,
   * `os.path.abspath`, `os.path.join`, `os.listdir`, the artist field of
   * a file's tags (None when TinyTag raises `TinyTagException` or the tag
   * has no artist) and Python's `int()` on a string (None when it raises).
   */
  datatype Host = Host(
    isFile: string -> bool,
    isDir: string -> bool,
    absPath: string -> string,
    join: (string, string) -> string,
    listDir: string -> seq<string>,
    artistTag: string -> Option<string>,
    parseInt: string -> Option<int>)
}
