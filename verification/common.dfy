/** Small helper modules shared by the whole model: an option type, ASCII text
    helpers with the JavaScript meaning of the operations the dashboard uses,
    HTTP status helpers and the badge styles both dashboard pages draw. */

module Wrappers {
  datatype Option<+T> = None | Some(value: T)
}

module Text {
  import opened Wrappers

  /** `String.prototype.toLowerCase` restricted to ASCII letters. */
  function LowerChar(c: char): char
  {
    if 'A' <= c <= 'Z' then (c as int + 32) as char else c
  }

  /** `String.prototype.toUpperCase` restricted to ASCII letters. */
  function UpperChar(c: char): char
  {
    if 'a' <= c <= 'z' then (c as int - 32) as char else c
  }

  function Lower(s: string): (r: string)
    ensures |r| == |s|
    ensures forall i :: 0 <= i < |s| ==> r[i] == LowerChar(s[i])
  {
    if s == [] then [] else [LowerChar(s[0])] + Lower(s[1..])
  }

  /** A lower-case string has no ASCII upper-case letter, so lowering twice is lowering once. */
  lemma LowerIdempotent(s: string)
    ensures Lower(Lower(s)) == Lower(s)
  {
    assert forall i :: 0 <= i < |s| ==> LowerChar(LowerChar(s[i])) == LowerChar(s[i]);
  }

  /** JavaScript truthiness of an optional string field: present and non-empty. */
  predicate Truthy(v: Option<string>)
  {
    v.Some? && v.value != ""
  }

  /** `s.startsWith(prefix)`. */
  predicate StartsWith(s: string, prefix: string)
  {
    |prefix| <= |s| && s[..|prefix|] == prefix
  }

  /** Every element occurs at most once. */
  predicate Distinct<T(==)>(s: seq<T>)
  {
    forall i, j :: 0 <= i < j < |s| ==> s[i] != s[j]
  }
}

module Http {
  /** `Response.ok`: the status is in the 2xx range. */
  predicate IsOk(status: int)
  {
    200 <= status <= 299
  }

  const Unauthorized := 401
}

/** The badge styles (variant and Tailwind classes) and icons shared by the two dashboard pages. */
module Badges {
  datatype Variant = Default | Secondary | Destructive | Outline

  datatype Badge = Badge(variant: Variant, className: string)

  datatype Icon = Clock | Package | CheckCircle | XCircle | AlertCircle

  const Yellow := Badge(Outline, "bg-yellow-100 text-yellow-800 hover:bg-yellow-100")
  const Blue := Badge(Destructive, "bg-blue-100 text-blue-800 hover:bg-blue-100")
  const Cyan := Badge(Secondary, "bg-cyan-100 text-green-800 hover:bg-cyan-100")
  const Green := Badge(Outline, "bg-green-100 text-green-800 hover:bg-green-100")
  const Red := Badge(Destructive, "bg-red-100 text-red-800 hover:bg-red-100")
  const Gray := Badge(Outline, "bg-gray-100 text-gray-800 hover:bg-gray-100")
}
