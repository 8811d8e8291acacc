/**
 * The argument parser of minigrep: `Config::build` turns the process
 * argument vector into a configuration (query, file path, debug flag) or
 * fails with the message "not enough arguments".
 *
 * Rust `String`s are modelled as Dafny strings (`seq<char>`); for valid
 * UTF-8 text, equality of the byte sequences and equality of the character
 * sequences coincide.
 */
module Minigrep {

  /** The outcome of `Config::build`: a configuration, or a static error message. */
  datatype Result<T, E> = Ok(value: T) | Err(error: E)

  /** The parsed command line. */
  datatype Config = Config(query: string, file_path: string, debug: bool)

  /** The only error `Config::build` reports. */
  const NotEnoughArguments: string := "not enough arguments"

  /** The exact fourth argument that switches debug logs on. */
  const DebugKeyword: string := "debug"

  /**
   * Equality of two strings as Rust's `String == &str` decides it: the
   * lengths must agree, then the elements are compared front to back.
   */
  function TextEq(a: string, b: string): (r: bool)
    ensures r <==> a == b
  {
    if |a| != |b| then false
    else if |a| == 0 then true
    else a[0] == b[0] && TextEq(a[1..], b[1..])
  }

  /**
   * `Config::build`. Fewer than three arguments (program name, query, file
   * path) is the only failure; otherwise the query and file path are copied
   * from positions 1 and 2, and the debug flag is set exactly when a fourth
   * argument is present and equals "debug". Position 3 is read only behind
   * the length test, so the indexing is always in bounds.
   */
  function Build(args: seq<string>): (r: Result<Config, string>)
    ensures r.Err? <==> |args| < 3
    ensures r.Err? ==> r.error == NotEnoughArguments
    ensures r.Ok? ==> r.value.query == args[1] && r.value.file_path == args[2]
    ensures r.Ok? ==> (r.value.debug <==> |args| > 3 && args[3] == DebugKeyword)
  {
    if |args| < 3 then
      Err(NotEnoughArguments)
    else
      var query := args[1];
      var file_path := args[2];
      var debug := |args| > 3 && TextEq(args[3], DebugKeyword);
      Ok(Config(query, file_path, debug))
  }

  /**
   * The canonical argument vector for a configuration, as the usage note in
   * the entry point describes it: program name, query, file path and, when
   * debug logs are wanted, "debug" as the third positional argument.
   */
  function Args(program: string, c: Config): (r: seq<string>)
    ensures |r| == if c.debug then 4 else 3
    ensures r[0] == program
    ensures Build(r) == Ok(c)
  {
    [program, c.query, c.file_path] + (if c.debug then [DebugKeyword] else [])
  }

  /**
   * What parsing forgets: a vector of at least three arguments is the
   * canonical vector of its own parse exactly when it has no fourth argument,
   * or its only extra argument is "debug".
   */
  lemma BuildNormalForm(args: seq<string>)
    requires |args| >= 3
    ensures Build(args).Ok?
    ensures Args(args[0], Build(args).value) == args
        <==> (|args| == 3 || (|args| == 4 && args[3] == DebugKeyword))
  {
  }

  /** The program name at position 0 never influences the result. */
  lemma BuildIgnoresProgramName(args: seq<string>, program: string)
    requires |args| >= 1
    ensures Build([program] + args[1..]) == Build(args)
  {
  }

  /**
   * The part of an argument vector that `Config::build` looks at: a prefix
   * of at most four arguments that parses exactly as the whole vector does.
   */
  function ReadPrefix(args: seq<string>): (r: seq<string>)
    ensures |r| <= 4 && r <= args
    ensures Build(r) == Build(args)
  {
    if |args| <= 4 then args else args[..4]
  }

  /** Arguments after the fourth never influence the result. */
  lemma BuildIgnoresTrailing(args: seq<string>, extra: seq<string>)
    requires |args| >= 4
    ensures Build(args + extra) == Build(args)
  {
  }

  /** A fourth argument other than "debug" is accepted and leaves debug off. */
  lemma BuildOtherFourthArgument(args: seq<string>)
    requires |args| >= 4 && args[3] != DebugKeyword
    ensures Build(args) == Ok(Config(args[1], args[2], false))
  {
  }

  /** The query and the file path are not checked for emptiness. */
  lemma BuildAcceptsEmptyStrings(program: string)
    ensures Build([program, "", ""]) == Ok(Config("", "", false))
  {
  }

  /** Unit test `config_build`. */
  lemma BuildTest()
    ensures Build(["minigrep", "query", "file_path"]) == Ok(Config("query", "file_path", false))
  {
  }

  /** Unit test `config_build_with_debug`. */
  lemma BuildWithDebugTest()
    ensures Build(["minigrep", "query", "file_path", "debug"]) == Ok(Config("query", "file_path", true))
  {
  }

  /** Unit test `config_build_with_too_few_args`. */
  lemma BuildWithTooFewArgsTest()
    ensures Build(["minigrep", "query"]).Err?
  {
  }
}
