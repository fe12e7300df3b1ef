/**
 * The `verifyToken` middleware that guards every ledger route: it takes the
 * second space-separated word of the `Authorization` header as the token and
 * hands it to the token verifier, which is a parameter here.
 */
module Auth {
  import opened Js

  /**
   * `authHeader && authHeader.split(' ')[1]`, with the falsy results (no header,
   * an empty header, no second word, an empty second word) as None.
   */
  function BearerToken(header: Option<string>): (r: Option<string>)
    ensures r.Some? ==> r.value != "" && ' ' !in r.value
    ensures header.None? ==> r.None?
  {
    match header
    case None => None
    case Some(h) =>
      var words := Split(h, ' ');
      if |words| < 2 || words[1] == "" then None else Some(words[1])
  }

  /**
   * The token is the second word of the header: for ANY way of writing the
   * header as space-free words joined by single spaces, the token is the second
   * of them when it is there and not empty, and there is none otherwise. The
   * first word (the scheme) is never looked at.
   */
  lemma TokenIsSecondWord(h: string, words: seq<string>)
    requires |words| >= 1
    requires forall i :: 0 <= i < |words| ==> ' ' !in words[i]
    requires Join(words, ' ') == h
    ensures BearerToken(Some(h)) == if |words| >= 2 && words[1] != "" then Some(words[1]) else None
  {
    SplitJoin(words, ' ');
  }

  /** `Bearer <token>` yields the token, whatever the scheme word is. */
  lemma SchemeThenToken(scheme: string, token: string)
    requires ' ' !in scheme && ' ' !in token && token != ""
    ensures BearerToken(Some(scheme + " " + token)) == Some(token)
  {
    var words := [scheme, token];
    assert Join(words, ' ') == scheme + " " + token;
    TokenIsSecondWord(scheme + " " + token, words);
  }

  /** Two spaces after the scheme leave an empty second word, so the request is refused. */
  lemma DoubleSpaceHasNoToken(scheme: string, rest: string)
    requires ' ' !in scheme
    ensures BearerToken(Some(scheme + "  " + rest)) == None
  {
    assert scheme + "  " + rest == scheme + [' '] + ([' '] + rest);
    SplitPrefix(scheme, [' '] + rest, ' ');
    assert [' '] + rest == [] + [' '] + rest;
    SplitPrefix([], rest, ' ');
  }

  /** What the middleware decides before any handler runs. */
  datatype AuthResult =
    | NoToken               // 401 'Access denied'
    | BadToken              // 401 'Invalid token'
    | Verified(userId: UserId)

  /**
   * `verifyToken`: no token is refused outright; otherwise the token verifier
   * (signature and expiry checking, outside this model) decides.
   */
  function Authenticate(header: Option<string>, verify: string -> Option<UserId>): (r: AuthResult)
    ensures r.NoToken? <==> BearerToken(header).None?
    ensures r.Verified? ==> BearerToken(header).Some? && verify(BearerToken(header).value) == Some(r.userId)
    ensures r.BadToken? ==> BearerToken(header).Some? && verify(BearerToken(header).value).None?
  {
    match BearerToken(header)
    case None => NoToken
    case Some(token) =>
      match verify(token)
      case None => BadToken
      case Some(uid) => Verified(uid)
  }
}
