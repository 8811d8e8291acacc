# minigrep argument parsing, modelled in Dafny

minigrep is a small command-line utility whose library half parses the
process argument vector into a `Config { query, file_path, debug }`.
`Config::build` accepts the argument vector (program name first), fails with
`"not enough arguments"` when fewer than three arguments are present, and
otherwise copies the query and the file path from positions 1 and 2 and sets
the debug flag exactly when a fourth argument equals `"debug"`.

`minigrep.dfy` holds one module, `Minigrep`:

- `Config` and a `Result<T, E>` datatype stand for the Rust struct and the
  `Result<Config, &'static str>` return type;
- `Build` is `Config::build` as a pure function whose postconditions
  characterise success and failure exactly;
- `TextEq` spells out the string comparison `args[3] == "debug"` (length
  check, then element by element);
- `Args` builds the canonical argument vector for a configuration, the
  partner that `Build` inverts;
- `ReadPrefix` is the prefix of at most four arguments that parsing reads;
- lemmas state what does not influence the result (position 0, positions 4
  and beyond, a fourth argument other than `"debug"`) and restate the three
  unit tests.

The code does not check that the query or the file path is non-empty
(src/lib.rs:12-17); `BuildAcceptsEmptyStrings` records that empty strings are
accepted.

## Model

| member | source | states |
|---|---|---|
| Minigrep.Build | src/lib.rs:11-22 | fails exactly when fewer than 3 arguments are given, always with "not enough arguments"; on success query is args[1], file_path is args[2], and debug holds iff there are more than 3 arguments and args[3] is exactly "debug" (that args[3] is read only behind the length test is proved by Dafny's well-formedness check of the body, not stated by the contract) |
| Minigrep.TextEq | src/lib.rs:18 | the length-then-elements comparison is true iff the two strings are equal |
| Minigrep.Args | src/main.rs:8 | the vector starts with the program name, has 4 elements exactly when debug is on, and parsing the canonical vector (program, query, path, optional "debug") of any configuration gives back that configuration under Config::build (src/lib.rs:11-21), so every configuration is reachable |
| Minigrep.BuildNormalForm | src/lib.rs:11-21 | every vector of length at least 3 parses successfully, and it equals the canonical vector of its own parse exactly when it has 3 elements, or 4 with "debug" last: anything else beyond position 2 is discarded |
| Minigrep.BuildIgnoresProgramName | src/lib.rs:16-18 | replacing args[0] never changes the result |
| Minigrep.ReadPrefix | src/lib.rs:16-18 | a prefix of at most four arguments always parses exactly as the whole vector, so no argument past index 3 influences the result |
| Minigrep.BuildIgnoresTrailing | src/lib.rs:16-18 | appending arguments to a vector of 4 or more never changes the result |
| Minigrep.BuildOtherFourthArgument | src/lib.rs:18 | a fourth argument other than "debug" is not an error and yields debug false |
| Minigrep.BuildAcceptsEmptyStrings | src/lib.rs:12-17 | empty query and empty file path are accepted unchanged |
| Minigrep.BuildTest | src/lib.rs:39-50 | ["minigrep","query","file_path"] parses to query "query", path "file_path", debug false |
| Minigrep.BuildWithDebugTest | src/lib.rs:52-64 | the same with a fourth argument "debug" parses with debug true |
| Minigrep.BuildWithTooFewArgsTest | src/lib.rs:66-74 | ["minigrep","query"] is an error |

## Left out

- `run` (src/lib.rs:25-33): reads a file with `fs::read_to_string`, panics through `.expect` on failure and always returns `Ok(())`; it is file I/O with no logic to model. No line search exists in this code, so none is modelled.
- The `println!` diagnostics (src/lib.rs:19, src/lib.rs:29): output side effects only.
- src/main.rs: process plumbing (reading `env::args()`, printing, `process::exit(1)`); only its usage note informs `Args`.
- Strings are sequences of characters rather than UTF-8 byte buffers; equality is the same for valid text.
