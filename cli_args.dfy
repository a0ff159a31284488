/** src/cli_arg_parse.rs: the run mode and the script path taken from the command line. */
module CliArgs {
  import opened Wrappers

  datatype RunMode = Execute | Analysis

  datatype Config = Config(option: RunMode, filePath: string)

  /** `RunMode::from_str`. */
  function RunModeFromStr(s: string): (r: Result<RunMode, string>)
    ensures r == Ok(Execute) <==> s == "-exe"
    ensures r == Ok(Analysis) <==> s == "-ana"
    ensures r.Err? ==> r.error == "不正なオプション " + s
  {
    match s
    case "-exe" => Ok(Execute)
    case "-ana" => Ok(Analysis)
    case _ => Err("不正なオプション " + s)
  }

  /** `Config::new`; `args[0]` is the program name. */
  function NewConfig(args: seq<string>): Result<Config, string> {
    var (optionText, filePath) :=
      if |args| == 3 then (args[1], args[2])
      else if |args| == 2 then ("-exe", args[1])
      else if |args| == 1 then ("-exe", "main.grn")
      else ("", "");
    if |args| == 0 || |args| > 3 then Err("不正なコマンドライン引数の数")
    else
      var option :- RunModeFromStr(optionText);
      Ok(Config(option, filePath))
  }

  /** The argument-count cases: with three arguments the option and path are the second
      and third; with two the path is the second; with one the path is `main.grn`; with
      one or two the mode is always Execute; any other count is an error. */
  lemma NewConfigCases(args: seq<string>)
    ensures |args| == 3 ==>
      NewConfig(args) == (match RunModeFromStr(args[1])
                          case Ok(m) => Ok(Config(m, args[2]))
                          case Err(e) => Err(e))
    ensures |args| == 2 ==> NewConfig(args) == Ok(Config(Execute, args[1]))
    ensures |args| == 1 ==> NewConfig(args) == Ok(Config(Execute, "main.grn"))
    ensures |args| == 0 || |args| > 3 ==> NewConfig(args) == Err("不正なコマンドライン引数の数")
  {
  }
}
