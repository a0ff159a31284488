/** The error codes of src/error/error_code.rs and their printed names. */
module ErrorCodes {
  import opened Wrappers

  datatype ErrorCode =
    Cmd001 | Cmd002 | Io001 | Lex001 | Lex002 | Lex003
    | Lex004 | Lex005 | Parse001 | Parse002 | Parse003 | Parse004
    | Parse005 | Parse006 | Runtime001 | Runtime002 | Runtime003 | Runtime004
    | Runtime005 | Runtime006 | Runtime007 | Runtime008 | Runtime009 | Runtime010
    | Runtime011 | Runtime012 | Runtime013 | Runtime014 | Runtime015 | Runtime016
    | Runtime017 | Runtime018 | ALL

  function ErrorCodeToString(c: ErrorCode): string {
    match c
    case Cmd001 => "CMD001"
    case Cmd002 => "CMD002"
    case Io001 => "IO001"
    case Lex001 => "LEX001"
    case Lex002 => "LEX002"
    case Lex003 => "LEX003"
    case Lex004 => "LEX004"
    case Lex005 => "LEX005"
    case Parse001 => "PARSE001"
    case Parse002 => "PARSE002"
    case Parse003 => "PARSE003"
    case Parse004 => "PARSE004"
    case Parse005 => "PARSE005"
    case Parse006 => "PARSE006"
    case Runtime001 => "RUNTIME001"
    case Runtime002 => "RUNTIME002"
    case Runtime003 => "RUNTIME003"
    case Runtime004 => "RUNTIME004"
    case Runtime005 => "RUNTIME005"
    case Runtime006 => "RUNTIME006"
    case Runtime007 => "RUNTIME007"
    case Runtime008 => "RUNTIME008"
    case Runtime009 => "RUNTIME009"
    case Runtime010 => "RUNTIME010"
    case Runtime011 => "RUNTIME011"
    case Runtime012 => "RUNTIME012"
    case Runtime013 => "RUNTIME013"
    case Runtime014 => "RUNTIME014"
    case Runtime015 => "RUNTIME015"
    case Runtime016 => "RUNTIME016"
    case Runtime017 => "RUNTIME017"
    case Runtime018 => "RUNTIME018"
    case ALL => "ALL"
  }

  /** A reference inverse of `to_string`, used only to prove it injective. */
  function ErrorCodeFromString(s: string): Option<ErrorCode> {
    match s
    case "CMD001" => Some(Cmd001)
    case "CMD002" => Some(Cmd002)
    case "IO001" => Some(Io001)
    case "LEX001" => Some(Lex001)
    case "LEX002" => Some(Lex002)
    case "LEX003" => Some(Lex003)
    case "LEX004" => Some(Lex004)
    case "LEX005" => Some(Lex005)
    case "PARSE001" => Some(Parse001)
    case "PARSE002" => Some(Parse002)
    case "PARSE003" => Some(Parse003)
    case "PARSE004" => Some(Parse004)
    case "PARSE005" => Some(Parse005)
    case "PARSE006" => Some(Parse006)
    case "RUNTIME001" => Some(Runtime001)
    case "RUNTIME002" => Some(Runtime002)
    case "RUNTIME003" => Some(Runtime003)
    case "RUNTIME004" => Some(Runtime004)
    case "RUNTIME005" => Some(Runtime005)
    case "RUNTIME006" => Some(Runtime006)
    case "RUNTIME007" => Some(Runtime007)
    case "RUNTIME008" => Some(Runtime008)
    case "RUNTIME009" => Some(Runtime009)
    case "RUNTIME010" => Some(Runtime010)
    case "RUNTIME011" => Some(Runtime011)
    case "RUNTIME012" => Some(Runtime012)
    case "RUNTIME013" => Some(Runtime013)
    case "RUNTIME014" => Some(Runtime014)
    case "RUNTIME015" => Some(Runtime015)
    case "RUNTIME016" => Some(Runtime016)
    case "RUNTIME017" => Some(Runtime017)
    case "RUNTIME018" => Some(Runtime018)
    case "ALL" => Some(ALL)
    case _ => None
  }

  lemma ErrorCodeFromStringOfToString(c: ErrorCode)
    ensures ErrorCodeFromString(ErrorCodeToString(c)) == Some(c)
  {
  }

  /** Distinct codes print distinct names. */
  lemma ErrorCodeToStringInjective(a: ErrorCode, b: ErrorCode)
    ensures ErrorCodeToString(a) == ErrorCodeToString(b) ==> a == b
  {
    ErrorCodeFromStringOfToString(a);
    ErrorCodeFromStringOfToString(b);
  }

  /** The runtime code with number `n`, 1 <= n <= 18. */
  function RuntimeCode(n: nat): ErrorCode
    requires 1 <= n <= 18
  {
    if n == 1 then Runtime001
    else if n == 2 then Runtime002
    else if n == 3 then Runtime003
    else if n == 4 then Runtime004
    else if n == 5 then Runtime005
    else if n == 6 then Runtime006
    else if n == 7 then Runtime007
    else if n == 8 then Runtime008
    else if n == 9 then Runtime009
    else if n == 10 then Runtime010
    else if n == 11 then Runtime011
    else if n == 12 then Runtime012
    else if n == 13 then Runtime013
    else if n == 14 then Runtime014
    else if n == 15 then Runtime015
    else if n == 16 then Runtime016
    else if n == 17 then Runtime017
    else Runtime018
  }

  function ThreeDigits(n: nat): string
    requires n < 1000
  {
    [('0' as int + n / 100) as char, ('0' as int + n / 10 % 10) as char,
     ('0' as int + n % 10) as char]
  }

  /** `Runtime00k` prints as `RUNTIME` followed by its three-digit number, and `ALL` as
      `ALL`. */
  lemma RuntimeCodeToString(n: nat)
    requires 1 <= n <= 18
    ensures ErrorCodeToString(RuntimeCode(n)) == "RUNTIME" + ThreeDigits(n)
    ensures ErrorCodeToString(ALL) == "ALL"
  {
  }
}
