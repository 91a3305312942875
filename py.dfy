/** The few pieces of Python's built-in behaviour the Homebridge client relies on:
    its exception kinds, ASCII case mapping, `str.rstrip` of one character and
    `str.join`. */
module Py {

  datatype Option<T> = None | Some(value: T)

  /** The exceptions that leave the client's code, raised by the client itself or
      by the built-ins it calls. */
  datatype Fault =
    | TypeError                          // subscripting or iterating a value that does not allow it
    | KeyError(key: string)              // `record[key]` on a dict without that key
    | AttributeError                     // `.get` / `.lower` on a value that has no such method
    | HomebridgeApiError(message: string)  // the client's own error class
    | HttpError(status: int)             // `raise_for_status` on a 4xx or 5xx reply

  datatype Result<T> = Ok(value: T) | Err(fault: Fault)

  /** A Python call that returns nothing or raises. */
  datatype Outcome = Pass | Fail(fault: Fault)

  function LowerChar(c: char): char {
    if 'A' <= c <= 'Z' then (c as int + 32) as char else c
  }

  function UpperChar(c: char): char {
    if 'a' <= c <= 'z' then (c as int - 32) as char else c
  }

  /** `str.lower()` restricted to ASCII letters. */
  function Lower(s: string): string {
    seq(|s|, i requires 0 <= i < |s| => LowerChar(s[i]))
  }

  /** `str.upper()` restricted to ASCII letters. */
  function Upper(s: string): string {
    seq(|s|, i requires 0 <= i < |s| => UpperChar(s[i]))
  }

  /** `s.rstrip(c)`: removes every trailing occurrence of `c`, and nothing else. */
  function RStrip(s: string, c: char): (r: string)
    ensures r <= s
    ensures |r| == 0 || r[|r| - 1] != c
    ensures forall i :: |r| <= i < |s| ==> s[i] == c
    decreases |s|
  {
    if |s| > 0 && s[|s| - 1] == c then RStrip(s[..|s| - 1], c) else s
  }

  /** `sep.join(parts)`. */
  function Join(sep: string, parts: seq<string>): string
    decreases |parts|
  {
    if |parts| == 0 then ""
    else if |parts| == 1 then parts[0]
    else parts[0] + sep + Join(sep, parts[1..])
  }
}
