/** src/utils.rs: the older message lookup keyed by a code string. Loading the template
    file is input/output and is replaced by the `templates` parameter. */
module Utils {
  import opened Wrappers
  import opened ErrorMessages
  import Text
  import Decimal

  /** `get_error_message`. */
  method GetErrorMessage(templates: map<string, string>, code: string,
                         params: seq<(string, string)>) returns (r: Result<string, string>)
    ensures code in templates ==> r == Ok(Substitute(templates[code], params))
    ensures code !in templates ==> r == Err(UnknownCode(code))
  {
    if code !in templates {
      return Err(UnknownCode(code));
    }
    var message := templates[code];
    for i := 0 to |params|
      invariant Substitute(message, params[i..]) == Substitute(templates[code], params)
    {
      assert params[i..][1..] == params[i + 1..];
      message := Text.Replace(message, Placeholder(params[i].0), params[i].1);
    }
    return Ok(message);
  }

  /** `get_error_message_with_location`. */
  method GetErrorMessageWithLocation(templates: map<string, string>, code: string,
                                     row: nat, col: nat, params: seq<(string, string)>)
    returns (r: Result<string, string>)
    ensures code in templates ==>
      r == Ok(WithLocation(Substitute(templates[code], params), row, col))
    ensures code !in templates ==> r == Err(UnknownCode(code))
  {
    var message :- GetErrorMessage(templates, code, params);
    message := Text.Replace(message, "{row}", Decimal.NatToString(row));
    message := Text.Replace(message, "{col}", Decimal.NatToString(col));
    return Ok(message);
  }
}
