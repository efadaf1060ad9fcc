/** The session check (pages/api/check-auth.ts): the Authorization header must
    start with the exact, case-sensitive `Bearer ` and the token is the second
    space-separated field. */
module CheckAuth {
  import opened Wrappers
  import opened Text

  const Prefix := "Bearer "

  /** `s.split(sep)`: the fields between separators, empty ones included. */
  function Split(s: string, sep: char): (fields: seq<string>)
    ensures |fields| >= 1
    ensures sep in s ==> |fields| >= 2
    ensures forall i :: 0 <= i < |fields| ==> sep !in fields[i]
  {
    if s == [] then [""]
    else
      var rest := Split(s[1..], sep);
      if s[0] == sep then [""] + rest
      else
        assert s == [s[0]] + s[1..];
        [[s[0]] + rest[0]] + rest[1..]
  }

  /** `fields.join(sep)`. */
  function Join(fields: seq<string>, sep: char): string
    requires |fields| >= 1
  {
    if |fields| == 1 then fields[0] else fields[0] + [sep] + Join(fields[1..], sep)
  }

  /** Splitting loses nothing: joining the fields back gives the header. */
  lemma {:induction false} JoinSplit(s: string, sep: char)
    ensures Join(Split(s, sep), sep) == s
  {
    if s != [] {
      var rest := Split(s[1..], sep);
      JoinSplit(s[1..], sep);
      if s[0] == sep {
        assert Split(s, sep)[1..] == rest;
        assert s == [sep] + s[1..];
      } else {
        var fields := Split(s, sep);
        if |rest| == 1 {
          assert s == [s[0]] + rest[0];
        } else {
          assert fields[1..] == rest[1..];
          assert Join(rest, sep) == rest[0] + [sep] + Join(rest[1..], sep);
          assert s == [s[0]] + s[1..];
        }
      }
    }
  }

  /** The characters before the first `sep`, or all of `s` when there is none. */
  function UpTo(s: string, sep: char): (r: string)
    ensures sep !in r
    ensures StartsWith(s, r)
    ensures |r| < |s| ==> s[|r|] == sep
  {
    if s == [] || s[0] == sep then []
    else
      var r := [s[0]] + UpTo(s[1..], sep);
      assert s[..|r|] == [s[0]] + s[1..][..|r| - 1];
      r
  }

  /** A separator at `k` with none before it ends the first field, and the
      rest of the string is split on its own. */
  lemma {:induction false} SplitAt(s: string, sep: char, k: nat)
    requires k < |s| && s[k] == sep && sep !in s[..k]
    ensures Split(s, sep) == [s[..k]] + Split(s[k + 1..], sep)
  {
    if k > 0 {
      assert s[1..][..k - 1] == s[1..k];
      assert sep !in s[1..][..k - 1];
      SplitAt(s[1..], sep, k - 1);
      assert s[1..][k..] == s[k + 1..];
      assert s[..k] == [s[0]] + s[1..][..k - 1];
    }
  }

  /** The first field of a split is the text up to the first separator. */
  lemma {:induction false} SplitHead(s: string, sep: char)
    ensures Split(s, sep)[0] == UpTo(s, sep)
  {
    if s != [] && s[0] != sep {
      SplitHead(s[1..], sep);
    }
  }

  /** `authHeader.split(' ')[1]` for a header that starts with `Bearer `. */
  function Token(header: string): string
    requires StartsWith(header, Prefix)
  {
    assert ' ' in header by { assert header[6] == ' '; }
    Split(header, ' ')[1]
  }

  /** The token is the text between the first and the second space: what
      follows `Bearer ` up to the next space, or to the end. */
  lemma TokenIsSecondField(rest: string)
    ensures StartsWith(Prefix + rest, Prefix)
    ensures Token(Prefix + rest) == UpTo(rest, ' ')
  {
    var h := Prefix + rest;
    assert h[..7] == Prefix;
    assert h[..6] == "Bearer";
    assert h[7..] == rest;
    SplitAt(h, ' ', 6);
    SplitHead(rest, ' ');
  }

  /** Two spaces after `Bearer` give the empty token. */
  lemma DoubleSpaceGivesEmptyToken(rest: string)
    ensures StartsWith(Prefix + " " + rest, Prefix)
    ensures Token(Prefix + " " + rest) == ""
  {
    assert Prefix + " " + rest == Prefix + (" " + rest);
    TokenIsSecondField(" " + rest);
  }

  /** A verifier that refuses the empty token, as `jwt.verify` does, answers
      401 to a header with two spaces after `Bearer`. */
  lemma EmptyTokenRefused(rest: string, accepts: string -> bool)
    requires !accepts("")
    ensures StatusOf(Handle(Some(Prefix + " " + rest), accepts)) == 401
  {
    DoubleSpaceGivesEmptyToken(rest);
  }

  datatype Reply =
    | Authenticated(token: string)  // 200 { authenticated: true, user }
    | NotAuthenticated              // 401 { authenticated: false }

  function StatusOf(reply: Reply): int
  {
    if reply.Authenticated? then 200 else 401
  }

  /** The handler; `accepts` stands for `jwt.verify` with the server secret. */
  function Handle(header: Option<string>, accepts: string -> bool): (reply: Reply)
    ensures reply.Authenticated? <==>
      header.Some? && StartsWith(header.value, Prefix) && accepts(Token(header.value))
    ensures reply.Authenticated? ==> reply.token == Token(header.value)
  {
    if header.None? || !StartsWith(header.value, Prefix) then NotAuthenticated
    else
      var token := Token(header.value);
      if accepts(token) then Authenticated(token) else NotAuthenticated
  }

  /** An absent header or one that does not start with the exact prefix is
      refused before any token is looked at; `bearer` in lower case is refused. */
  lemma PrefixRequired(header: Option<string>, accepts: string -> bool, rest: string)
    ensures header.None? ==> StatusOf(Handle(header, accepts)) == 401
    ensures header.Some? && !StartsWith(header.value, Prefix) ==> StatusOf(Handle(header, accepts)) == 401
    ensures StatusOf(Handle(Some("bearer " + rest), accepts)) == 401
  {
    assert ("bearer " + rest)[0] == 'b';
  }

  /** A well-prefixed header is accepted exactly when the verifier accepts the
      text between `Bearer ` and the next space. */
  lemma BearerAcceptedIffVerified(rest: string, accepts: string -> bool)
    ensures StatusOf(Handle(Some(Prefix + rest), accepts)) == 200 <==> accepts(UpTo(rest, ' '))
  {
    TokenIsSecondField(rest);
  }
}
