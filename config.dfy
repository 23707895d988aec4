/**
 * The argument validator of minigrep: `Config` and `Config::build` from
 * src/main.rs. `build` takes the whole command line (the program name
 * first) and either rejects it because it is too short or picks the query
 * and the file name out of positions 1 and 2.
 */
module Minigrep {

  import opened Results

  /** The one error text `build` can return. */
  const NotEnoughArguments: string := "Not enough arguments"

  /** The validated search request: the text to look for and the file to read. */
  datatype Config = Config(query: string, filename: string)

  /**
   * `Config::build`. Fails with `NotEnoughArguments` exactly when fewer than
   * three arguments are given; otherwise takes the query from position 1 and
   * the file name from position 2. Nothing about the contents of those two
   * strings is checked. Having no `requires`, the function is total: the
   * length guard is what keeps both position reads in bounds, so Rust's
   * bounds-checked indexing can never panic here.
   */
  function Build(args: seq<string>): (r: Result<Config, string>)
    ensures r.Err? <==> |args| < 3
    ensures r.Err? ==> r.error == NotEnoughArguments
    ensures r.Ok? ==> r.value.query == args[1] && r.value.filename == args[2]
  {
    if |args| < 3 then Err(NotEnoughArguments)
    else Ok(Config(args[1], args[2]))
  }

  /**
   * The shape of a command line that carries `c`: any program name, then
   * the query, then the file name, then any number of further arguments.
   */
  ghost predicate Invocation(args: seq<string>, c: Config) {
    exists program, rest :: args == [program, c.query, c.filename] + rest
  }

  /**
   * The command line a user types to search `c.filename` for `c.query`
   * (`<program> <query> <file-path>`, followed by `extra`). `Build` reads
   * back exactly the request it was made from.
   */
  function CommandLine(program: string, c: Config, extra: seq<string>): (args: seq<string>)
    ensures Build(args) == Ok(c)
  {
    [program, c.query, c.filename] + extra
  }

  /** `Build` succeeds with `c` exactly on the command lines shaped like `c`. */
  lemma BuildSucceedsIffInvocation(args: seq<string>, c: Config)
    ensures Build(args) == Ok(c) <==> Invocation(args, c)
  {
    if Build(args) == Ok(c) {
      assert args == [args[0], c.query, c.filename] + args[3..];
    }
  }

  /** `Build` fails exactly on the command lines that carry no request at all. */
  lemma BuildFailsIffNoInvocation(args: seq<string>)
    ensures Build(args).Err? <==> forall c :: !Invocation(args, c)
  {
    if |args| >= 3 {
      BuildSucceedsIffInvocation(args, Config(args[1], args[2]));
    }
  }

  /**
   * Two command lines give the same result exactly when both are too short,
   * or both are long enough and agree at positions 1 and 2.
   */
  lemma BuildAgreesIffSameQueryAndFilename(a: seq<string>, b: seq<string>)
    ensures Build(a) == Build(b) <==>
      (|a| < 3 && |b| < 3) || (|a| >= 3 && |b| >= 3 && a[1..3] == b[1..3])
  {
  }

  /** The program name at position 0 never influences the result. */
  lemma BuildIgnoresProgramName(args: seq<string>, program: string)
    requires |args| > 0
    ensures Build(args[0 := program]) == Build(args)
  {
  }

  /** Arguments after the file name never influence the result. */
  lemma BuildIgnoresExtraArguments(args: seq<string>, extra: seq<string>)
    requires |args| >= 3
    ensures Build(args + extra) == Build(args)
    ensures Build(args) == Build(args[..3])
  {
  }

  /** Whether `Build` succeeds depends on the number of arguments alone. */
  lemma BuildChecksOnlyTheCount(a: seq<string>, b: seq<string>)
    requires |a| == |b|
    ensures Build(a).Ok? <==> Build(b).Ok?
  {
  }

  /** An empty query and an empty file name pass validation unchanged. */
  lemma BuildAcceptsEmptyStrings(program: string)
    ensures Build([program, "", ""]) == Ok(Config("", ""))
  {
  }

  /** Concrete command lines: a bare program name, one argument, and a full one. */
  lemma BuildExamples()
    ensures Build(["minigrep"]) == Err("Not enough arguments")
    ensures Build(["minigrep", "only-one"]) == Err("Not enough arguments")
    ensures Build(["minigrep", "to", "poem.txt"]) == Ok(Config("to", "poem.txt"))
  {
  }
}
