# minigrep argument validation in Dafny

minigrep is a small command-line tool invoked as `minigrep <query> <file-path>`.
The logic in its `src/main.rs` is the argument validator `Config::build`. It
takes the whole command line, with the program name first. With fewer than
three elements it fails with the text `"Not enough arguments"`. Otherwise it
returns a `Config` holding the query (position 1) and the file name
(position 2).

This project models that validator:

- `result.dfy` (module `Results`): the `Result<T, E>` datatype with `Ok` and
  `Err`, matching Rust's.
- `config.dfy` (module `Minigrep`): the `Config` datatype, the error constant,
  `Build`, and the lemmas about it.

Rust's `args[1]` panics when out of bounds. `Build` has no precondition and
Dafny checks every sequence read in its body. So the fact that `Build`
verifies is the proof that the length guard keeps both reads in bounds.

## Model

| member | source | states |
|---|---|---|
| `Minigrep.Build` | src/main.rs:29-40 | fails exactly when fewer than three arguments are given, and then with exactly `"Not enough arguments"`; on success the query is `args[1]` and the file name `args[2]`; total, with no precondition |
| `Minigrep.CommandLine` | src/main.rs:29-40 | the command line `<program> <query> <file-path> extra…` built from a `Config` is read back by `Build` as that same `Config`, for any program name and any extra arguments |
| `Minigrep.BuildSucceedsIffInvocation` | src/main.rs:31-37 | `Build` returns `Ok(c)` if and only if the arguments are some program name, then `c.query`, then `c.filename`, then anything |
| `Minigrep.BuildFailsIffNoInvocation` | src/main.rs:31-33 | `Build` returns an error if and only if the arguments have that shape for no `Config` at all |
| `Minigrep.BuildAgreesIffSameQueryAndFilename` | src/main.rs:31-37 | two argument lists give the same result if and only if both are too short, or both are long enough and agree at positions 1 and 2 |
| `Minigrep.BuildIgnoresProgramName` | src/main.rs:34-35 | replacing the program name at position 0 never changes the result |
| `Minigrep.BuildIgnoresExtraArguments` | src/main.rs:34-37 | with at least three arguments, appending more or cutting the list to its first three never changes the result |
| `Minigrep.BuildChecksOnlyTheCount` | src/main.rs:31-37 | two argument lists of the same length either both succeed or both fail: the contents are never validated |
| `Minigrep.BuildAcceptsEmptyStrings` | src/main.rs:34-37 | an empty query and an empty file name are accepted and kept as they are |
| `Minigrep.BuildExamples` | src/main.rs:31-37 | a bare program name and a single argument are rejected with `"Not enough arguments"`; `minigrep to poem.txt` yields query `to` and file name `poem.txt` |

## Left out

- `main` (src/main.rs:6-22): reading the process arguments, printing, exiting
  with status 1 on a bad command line, and reading the file. All of it is I/O
  and process control.
- The file contents are only echoed to standard output (src/main.rs:21). No
  line splitting or matching exists in the code, so there is none to model.
- Ownership and lifetimes: `clone()` of the two strings and the borrowed `&str`
  error become plain values.
- The unused `use core::panic;` import (src/main.rs:1) has no behaviour.
