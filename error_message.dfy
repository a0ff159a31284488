/** src/error/error_message.rs: message templates keyed by the printed error code, with
    `{key}` placeholders. The template store, loaded from JSON in the source, is a map. */
module ErrorMessages {
  import opened Wrappers
  import opened ErrorCodes
  import Text
  import Decimal

  function Placeholder(key: string): string {
    "{" + key + "}"
  }

  /** The parameters applied in list order, each to the text produced so far. */
  function Substitute(message: string, params: seq<(string, string)>): string
    decreases |params|
  {
    if |params| == 0 then message
    else Substitute(Text.Replace(message, Placeholder(params[0].0), params[0].1), params[1..])
  }

  function UnknownCode(code: string): string {
    "不正なエラーコード: " + code
  }

  /** `get_error_message`. */
  method GetErrorMessage(templates: map<string, string>, code: ErrorCode,
                         params: seq<(string, string)>) returns (r: Result<string, string>)
    ensures ErrorCodeToString(code) in templates ==>
      r == Ok(Substitute(templates[ErrorCodeToString(code)], params))
    ensures ErrorCodeToString(code) !in templates ==> r == Err(UnknownCode(ErrorCodeToString(code)))
  {
    var name := ErrorCodeToString(code);
    if name !in templates {
      return Err(UnknownCode(name));
    }
    var message := templates[name];
    var i := 0;
    while i < |params|
      invariant 0 <= i <= |params|
      invariant Substitute(message, params[i..]) == Substitute(templates[name], params)
    {
      assert params[i..][1..] == params[i + 1..];
      message := Text.Replace(message, Placeholder(params[i].0), params[i].1);
      i := i + 1;
    }
    return Ok(message);
  }

  /** The row and column placeholders are filled after the parameters. */
  function WithLocation(message: string, row: nat, col: nat): string {
    Text.Replace(Text.Replace(message, "{row}", Decimal.NatToString(row)),
                 "{col}", Decimal.NatToString(col))
  }

  /** `get_error_message_with_location`: a failure of the lookup propagates unchanged. */
  method GetErrorMessageWithLocation(templates: map<string, string>, code: ErrorCode,
                                     row: nat, col: nat, params: seq<(string, string)>)
    returns (r: Result<string, string>)
    ensures ErrorCodeToString(code) in templates ==>
      r == Ok(WithLocation(Substitute(templates[ErrorCodeToString(code)], params), row, col))
    ensures ErrorCodeToString(code) !in templates ==> r == Err(UnknownCode(ErrorCodeToString(code)))
  {
    var message :- GetErrorMessage(templates, code, params);
    message := Text.Replace(message, "{row}", Decimal.NatToString(row));
    message := Text.Replace(message, "{col}", Decimal.NatToString(col));
    return Ok(message);
  }

  /** With no parameters the template is returned unchanged. */
  lemma SubstituteNothing(message: string)
    ensures Substitute(message, []) == message
  {
  }

  /** One parameter replaces its placeholder's first occurrence, and scanning resumes after
      the inserted value, so a value that itself spells a placeholder is not re-expanded by
      the same parameter. */
  lemma {:induction false} SubstituteOne(before: string, key: string, after: string, value: string)
    requires forall i :: 0 <= i < |before| ==> !Text.OccursAt(before + Placeholder(key) + after, Placeholder(key), i)
    requires forall i :: 0 <= i <= |after| ==> !Text.OccursAt(after, Placeholder(key), i)
    ensures Substitute(before + Placeholder(key) + after, [(key, value)]) == before + value + after
  {
    Text.ReplaceFirst(before, Placeholder(key), after, value);
    Text.ReplaceAbsent(after, Placeholder(key), value);
    assert [(key, value)][1..] == [];
  }

  /** The location placeholders are filled after the parameters, so a parameter value
      that spells `{row}` ends up showing the row number. */
  lemma LocationFilledAfterParameters(row: nat, col: nat)
    ensures WithLocation(Substitute("{v}", [("v", "{row}")]), row, col) == Decimal.NatToString(row)
  {
    assert Placeholder("v") == "{v}";
    Text.ReplaceFirst("", "{v}", "", "{row}");
    assert Substitute("{v}", [("v", "{row}")]) == "{row}";
    var digits := Decimal.NatToString(row);
    Text.ReplaceFirst("", "{row}", "", digits);
    assert "" + "{row}" + "" == "{row}";
    assert Text.Replace("{row}", "{row}", digits) == digits;
    forall i | 0 <= i <= |digits|
      ensures !Text.OccursAt(digits, "{col}", i)
    {
      if i < |digits| {
        assert digits[i..][0] == digits[i] && Decimal.IsDigit(digits[i]);
      }
    }
    Text.ReplaceAbsent(digits, "{col}", Decimal.NatToString(col));
  }
}
