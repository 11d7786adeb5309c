/** The slice of Python that the order path relies on: dynamically typed
    values, the exceptions it raises or catches, and ASCII case mapping
    for `str.lower()` / `str.upper()`. */
module Python {

  datatype Option<T> = None | Some(value: T)

  datatype Result<T, E> = Ok(value: T) | Err(error: E)

  /** A value a caller can hand to the bot: Python's `None`, a `str`, or a
      number. Numbers are opaque tokens: the order path never computes with
      them or compares them, it only passes them on or asks `is None`. */
  datatype PyValue = PyNone | PyStr(s: string) | PyNum(n: int)

  /** The exceptions that can reach the bot's `try` block. */
  datatype PyError =
    | ValueError(message: string)
    | AttributeError(message: string)
    | NameError(message: string)
    | BinanceApiException(code: int, message: string)
    | OtherError(message: string)

  /** Python's name for the type of a value, as it appears in error messages. */
  function TypeName(v: PyValue): string
  {
    match v
    case PyNone => "NoneType"
    case PyStr(_) => "str"
    case PyNum(_) => "float"
  }

  /** The message of the AttributeError raised by `v.lower()` when `v` has no such method. */
  function NoLowerMessage(v: PyValue): string
  {
    "'" + TypeName(v) + "' object has no attribute 'lower'"
  }

  function LowerChar(c: char): char
  {
    if 'A' <= c <= 'Z' then (c as int + 32) as char else c
  }

  function UpperChar(c: char): char
  {
    if 'a' <= c <= 'z' then (c as int - 32) as char else c
  }

  /** `s.lower()`: every character mapped on its own, the length unchanged. */
  function Lower(s: string): (r: string)
    ensures |r| == |s|
    ensures forall i :: 0 <= i < |s| ==> r[i] == LowerChar(s[i])
  {
    if s == [] then [] else [LowerChar(s[0])] + Lower(s[1..])
  }

  /** `s.upper()`: every character mapped on its own, the length unchanged. */
  function Upper(s: string): (r: string)
    ensures |r| == |s|
    ensures forall i :: 0 <= i < |s| ==> r[i] == UpperChar(s[i])
  {
    if s == [] then [] else [UpperChar(s[0])] + Upper(s[1..])
  }

  /** Lower-casing twice is lower-casing once. */
  lemma LowerIdempotent(s: string)
    ensures Lower(Lower(s)) == Lower(s)
  {
  }

  /** Exactly the eight spellings of "buy" in any mix of cases lower-case to "buy". */
  lemma LowerIsBuy(s: string)
    ensures Lower(s) == "buy" <==>
              |s| == 3 && (s[0] == 'b' || s[0] == 'B') && (s[1] == 'u' || s[1] == 'U') && (s[2] == 'y' || s[2] == 'Y')
  {
  }
}
