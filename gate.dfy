/** The identity gate in front of the handlers: the bearer token is the second
    space-separated part of the `Authorization` header, and the identity provider's
    answer for that token is an input (the provider itself is not modelled). */
module Gate {
  import opened Wrappers

  /** What the identity provider returns for a token: an error, or a user with an id
      and the `role` entry of its metadata. */
  datatype Identity = Rejected | User(id: string, role: Option<string>)

  /** The gate's verdict, in the order the handlers test it. */
  datatype Verdict = NoToken | InvalidToken | Authenticated(userId: string, isAdmin: bool)

  /** The longest prefix of `s` without a space. */
  function BeforeSpace(s: string): (r: string)
    ensures |r| <= |s| && r == s[..|r|]
    ensures ' ' !in r
    ensures |r| < |s| ==> s[|r|] == ' '
  {
    if s == [] || s[0] == ' ' then [] else [s[0]] + BeforeSpace(s[1..])
  }

  /** `header?.split(' ')[1]`: the text between the first and the second space, or
      `undefined` when the header is absent or has no space. */
  function SecondPart(header: Option<string>): (r: Option<string>)
    ensures r.Some? <==> header.Some? && ' ' in header.value
    ensures r.Some? ==> ' ' !in r.value
    ensures r.Some? ==>
              var h, n := header.value, |r.value|;
              exists i :: 0 <= i && i + 1 + n <= |h| && h[i] == ' ' && ' ' !in h[..i] &&
                          r.value == h[i + 1..i + 1 + n] &&
                          (i + 1 + n == |h| || h[i + 1 + n] == ' ')
  {
    match header
    case None => None
    case Some(h) =>
      var first := BeforeSpace(h);
      if |first| == |h| then
        assert h == first;
        None
      else
        var second := BeforeSpace(h[|first| + 1..]);
        assert h[|first| + 1..][..|second|] == h[|first| + 1..|first| + 1 + |second|];
        Some(second)
  }

  /** The token the handlers accept as present: `if (!accessToken)` rejects both
      `undefined` and the empty string. */
  function BearerToken(header: Option<string>): (t: Option<string>)
    ensures t.Some? ==> t.value != "" && SecondPart(header) == t
    ensures t.None? ==> SecondPart(header).None? || SecondPart(header) == Some("")
  {
    var p := SecondPart(header);
    if p.Some? && p.value != "" then p else None
  }

  /** A well-formed header `Bearer <t>` yields exactly `t`. */
  lemma {:induction false} BearerRoundTrip(t: string)
    requires t != "" && ' ' !in t
    ensures BearerToken(Some("Bearer " + t)) == Some(t)
  {
    var h := "Bearer " + t;
    assert h[..6] == "Bearer";
    BeforeSpaceStops(h, 6);
    assert h[7..] == t;
    BeforeSpaceAll(t);
  }

  lemma {:induction false} BeforeSpaceStops(s: string, n: nat)
    requires n < |s| && s[n] == ' ' && ' ' !in s[..n]
    ensures BeforeSpace(s) == s[..n]
  {
    if n > 0 {
      assert s[1..][..n - 1] == s[..n][1..];
      BeforeSpaceStops(s[1..], n - 1);
      assert [s[0]] + s[1..][..n - 1] == s[..n];
    }
  }

  lemma {:induction false} BeforeSpaceAll(s: string)
    requires ' ' !in s
    ensures BeforeSpace(s) == s
  {
    if s != [] {
      BeforeSpaceAll(s[1..]);
      assert [s[0]] + s[1..] == s;
    }
  }

  /** A header without a space carries no token; nor does an absent header. */
  lemma NoSpaceNoToken(h: string)
    requires ' ' !in h
    ensures BearerToken(Some(h)) == None && BearerToken(None) == None
  {
    BeforeSpaceAll(h);
  }

  /** The gate: no token, then an identity error or an empty user id, then the role
      check (`user_metadata.role === 'admin'`). */
  function Verify(header: Option<string>, identity: Identity): (v: Verdict)
    ensures v.NoToken? <==> BearerToken(header).None?
    ensures v.InvalidToken? <==> BearerToken(header).Some? && (identity.Rejected? || identity.id == "")
    ensures v.Authenticated? ==>
              identity.User? && v.userId == identity.id && v.userId != "" &&
              (v.isAdmin <==> identity.role == Some("admin"))
  {
    if BearerToken(header).None? then NoToken
    else if identity.Rejected? || identity.id == "" then InvalidToken
    else Authenticated(identity.id, identity.role == Some("admin"))
  }
}
