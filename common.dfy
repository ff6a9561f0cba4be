/** Shared vocabulary: optional values, JavaScript truthiness and ASCII lower-casing. */
module Common {

  datatype Option<+T> = None | Some(value: T)

  /** A possibly-undefined string is truthy in JavaScript exactly when it is present and non-empty. */
  predicate Truthy(s: Option<string>)
  {
    s.Some? && s.value != ""
  }

  /** `s || ""`: the string itself when truthy, otherwise the empty string. */
  function OrEmpty(s: Option<string>): (r: string)
    ensures Truthy(s) ==> r == s.value
    ensures !Truthy(s) ==> r == ""
  {
    if s.Some? then s.value else ""
  }

  /** `s || fallback` on a possibly-undefined string. */
  function OrElse(s: Option<string>, fallback: string): (r: string)
    ensures Truthy(s) ==> r == s.value
    ensures !Truthy(s) ==> r == fallback
  {
    if Truthy(s) then s.value else fallback
  }

  /** Lower-casing of one character; only the ASCII letters A-Z are mapped. */
  function LowerChar(c: char): char
  {
    if 'A' <= c <= 'Z' then (c as int + 32) as char else c
  }

  predicate IsLower(s: string)
  {
    forall i :: 0 <= i < |s| ==> LowerChar(s[i]) == s[i]
  }

  /** `String.prototype.toLowerCase`, restricted to ASCII. */
  function ToLower(s: string): (r: string)
    ensures |r| == |s|
    ensures forall i :: 0 <= i < |s| ==> r[i] == LowerChar(s[i])
    ensures IsLower(r)
  {
    if s == [] then [] else [LowerChar(s[0])] + ToLower(s[1..])
  }

  /** Lower-casing twice is lower-casing once. */
  lemma ToLowerIdempotent(s: string)
    ensures ToLower(ToLower(s)) == ToLower(s)
  {
  }

  /** A string without ASCII capitals is its own lower-case form. */
  lemma LowerOfLowerIsIdentity(s: string)
    requires IsLower(s)
    ensures ToLower(s) == s
  {
  }

  /** A value thrown by an awaited call: an `Error` instance, or anything else. */
  datatype Thrown = ErrorInstance(message: string) | OtherValue

  /** `err instanceof Error ? err.message : fallback`. */
  function MessageOf(err: Thrown, fallback: string): (m: string)
    ensures err.ErrorInstance? ==> m == err.message
    ensures err.OtherValue? ==> m == fallback
  {
    match err
    case ErrorInstance(message) => message
    case OtherValue => fallback
  }

  /** The colour family of a status or type badge; the concrete CSS class strings are not modelled. */
  datatype BadgeColor = Green | Red | Yellow | Gray | Blue | Purple | Orange
}
