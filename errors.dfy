/** The three exception classes of the client (diffbot/error.py) and the
    Python built-in exceptions its code can raise while reading a decoded
    response. */
module Errors {
  import opened Json
  import opened Text

  /** Each record keeps the values it was built with, unchanged. */
  datatype DiffbotError =
    | TokenError(msg: Json)
    | ResponseError(code: Json, msg: Json)
    | JobStatusError(status: Json, msg: Json)

  /** Everything a call can raise. `KeyError` carries the missing key. */
  datatype Error =
    | Diffbot(raised: DiffbotError)
    | KeyError(key: Json)
    | IndexError
    | TypeError
    | AttributeError

  /** `__str__` of the three records. */
  function ToString(e: DiffbotError): (s: string)
    ensures |ClassName(e)| < |s| && s[..|ClassName(e)|] == ClassName(e)
    ensures |Show(e.msg)| <= |s| && s[|s| - |Show(e.msg)|..] == Show(e.msg)
  {
    match e
    case TokenError(m) => "DiffbotTokenError : " + Show(m)
    case ResponseError(c, m) => "DiffbotResponseError #" + Show(c) + " :  " + Show(m)
    case JobStatusError(s, m) => "DiffbotJobStatusError #" + Show(s) + " :  " + Show(m)
  }

  /** The name of the class the record stands for. */
  function ClassName(e: DiffbotError): string {
    match e
    case TokenError(_) => "DiffbotTokenError"
    case ResponseError(_, _) => "DiffbotResponseError"
    case JobStatusError(_, _) => "DiffbotJobStatusError"
  }

  /** Every rendering starts with the class name; the token error is
      followed by " : ", the two others by " #". */
  lemma RenderingStartsWithClassName(e: DiffbotError)
    ensures |ClassName(e)| + 2 <= |ToString(e)|
    ensures ToString(e)[..|ClassName(e)|] == ClassName(e)
    ensures ToString(e)[|ClassName(e)|..|ClassName(e)| + 2] == (if e.TokenError? then " :" else " #")
  {
  }

  /** Two records that render alike are of the same class. */
  lemma RenderingDeterminesClass(a: DiffbotError, b: DiffbotError)
    requires ToString(a) == ToString(b)
    ensures ClassName(a) == ClassName(b)
  {
    RenderingStartsWithClassName(a);
    RenderingStartsWithClassName(b);
    assert ToString(a)[7] == ClassName(a)[7];
    assert ToString(b)[7] == ClassName(b)[7];
  }

  /** `prefix + str(code) + " :  " + msg` determines the code and the
      message when the code is an int. */
  lemma CodeAndMessageRecoverable(prefix: string, c1: int, m1: string, c2: int, m2: string)
    requires prefix + IntToString(c1) + " :  " + m1 == prefix + IntToString(c2) + " :  " + m2
    ensures c1 == c2 && m1 == m2
  {
    var s1 := prefix + IntToString(c1) + " :  " + m1;
    var s2 := prefix + IntToString(c2) + " :  " + m2;
    var t1 := IntToString(c1) + " " + (":  " + m1);
    var t2 := IntToString(c2) + " " + (":  " + m2);
    assert s1[|prefix|..] == t1;
    assert s2[|prefix|..] == t2;
    SplitAtFirstSpace(IntToString(c1), ":  " + m1, IntToString(c2), ":  " + m2);
    IntToStringInjective(c1, c2);
    assert m1 == (":  " + m1)[3..];
    assert m2 == (":  " + m2)[3..];
  }

  /** The response-error rendering with an int code and a string message
      is one-to-one: the code and the message can be read back from it. */
  lemma ResponseErrorRenderingInjective(c1: int, m1: string, c2: int, m2: string)
    requires ToString(ResponseError(JInt(c1), JStr(m1))) == ToString(ResponseError(JInt(c2), JStr(m2)))
    ensures c1 == c2 && m1 == m2
  {
    CodeAndMessageRecoverable("DiffbotResponseError #", c1, m1, c2, m2);
  }

  /** The same for the job-status error: status and message can be read back. */
  lemma JobStatusErrorRenderingInjective(s1: int, m1: string, s2: int, m2: string)
    requires ToString(JobStatusError(JInt(s1), JStr(m1))) == ToString(JobStatusError(JInt(s2), JStr(m2)))
    ensures s1 == s2 && m1 == m2
  {
    CodeAndMessageRecoverable("DiffbotJobStatusError #", s1, m1, s2, m2);
  }

  /** A rate-limit envelope renders with two spaces after the colon. */
  lemma ResponseErrorExample()
    ensures ToString(ResponseError(JInt(429), JStr("rate limited"))) == "DiffbotResponseError #429 :  rate limited"
  {
    assert NatToString(4) == "4";
    assert NatToString(42) == "42";
    assert NatToString(429) == "429";
  }
}
