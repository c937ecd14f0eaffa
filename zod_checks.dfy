/** The few zod string checks the forms' schemas use, each reporting a failed
    check as an issue on one field path with the schema's own message. */
module ZodChecks {

  /** One validation failure: the field it is reported on and its message. */
  datatype Issue = Issue(path: string, message: string)

  /** `z.string().min(n, message)`: fails when the value has fewer than `n`
      characters. */
  function MinLength(path: string, s: string, n: nat, message: string): (r: seq<Issue>)
    ensures |s| >= n ==> r == []
    ensures |s| < n ==> r == [Issue(path, message)]
  {
    if |s| >= n then [] else [Issue(path, message)]
  }

  /** A character the pattern `\d` matches (ASCII digits only in JavaScript). */
  predicate IsDigit(c: char)
  {
    '0' <= c <= '9'
  }

  /** `regex(/^\d+$/, message)`: one or more digits and nothing else. */
  function OnlyDigits(path: string, s: string, message: string): (r: seq<Issue>)
    ensures r == [] <==> (|s| > 0 && forall i :: 0 <= i < |s| ==> IsDigit(s[i]))
    ensures r != [] ==> r == [Issue(path, message)]
  {
    if |s| > 0 && forall i :: 0 <= i < |s| ==> IsDigit(s[i]) then []
    else [Issue(path, message)]
  }

  /** The field paths of a list of issues, in order. */
  function Paths(issues: seq<Issue>): (r: seq<string>)
    ensures |r| == |issues|
    ensures forall i :: 0 <= i < |issues| ==> r[i] == issues[i].path
  {
    if issues == [] then [] else [issues[0].path] + Paths(issues[1..])
  }
}
