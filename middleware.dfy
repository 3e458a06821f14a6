/**
 * The bearer-token check of `AuthMiddleware` (src/api/middleware.go): a pure
 * decision on the Authorization header, and the handler that applies it to
 * the request context.
 */
module Middleware {
  import opened Wrappers
  import opened Token

  const AuthorizationTypeBearer: string := "bearer"
  const AuthorizationPayloadKey: string := "authorization_payload"
  const StatusUnauthorized: int := 401

  /** Go's `unicode.IsSpace`, the separator of `strings.Fields`. */
  predicate IsSpace(c: char) {
    var n := c as int;
    n == 0x09 || n == 0x0A || n == 0x0B || n == 0x0C || n == 0x0D || n == 0x20
    || n == 0x85 || n == 0xA0 || n == 0x1680 || (0x2000 <= n <= 0x200A)
    || n == 0x2028 || n == 0x2029 || n == 0x202F || n == 0x205F || n == 0x3000
  }

  predicate NoSpace(s: string) {
    forall i :: 0 <= i < |s| ==> !IsSpace(s[i])
  }

  /** The length of the run of non-space characters at the start of `s`. */
  function WordLength(s: string): (n: nat)
    ensures n <= |s|
    ensures NoSpace(s[..n])
    ensures n < |s| ==> IsSpace(s[n])
  {
    if s == [] || IsSpace(s[0]) then 0
    else
      var n := 1 + WordLength(s[1..]);
      assert s[..n] == [s[0]] + s[1..][..n - 1];
      n
  }

  /** `strings.Fields`: the maximal runs of non-space characters, in order. */
  function Fields(s: string): (fields: seq<string>)
    ensures forall i :: 0 <= i < |fields| ==> |fields[i]| > 0 && NoSpace(fields[i])
    decreases |s|
  {
    if s == [] then []
    else if IsSpace(s[0]) then Fields(s[1..])
    else
      var n := WordLength(s);
      [s[..n]] + Fields(s[n..])
  }

  /** A word followed by nothing or by a space is the first field. */
  lemma {:induction false} FieldsOfWord(word: string, rest: string)
    requires |word| > 0 && NoSpace(word)
    requires rest == [] || IsSpace(rest[0])
    ensures Fields(word + rest) == [word] + Fields(rest)
  {
    var s := word + rest;
    WordLengthOfWord(word, rest);
    assert s[..|word|] == word;
    assert s[|word|..] == rest;
  }

  lemma {:induction false} WordLengthOfWord(word: string, rest: string)
    requires NoSpace(word)
    requires rest == [] || IsSpace(rest[0])
    ensures WordLength(word + rest) == |word|
    decreases |word|
  {
    if word != [] {
      assert (word + rest)[1..] == word[1..] + rest;
      WordLengthOfWord(word[1..], rest);
    } else {
      assert word + rest == rest;
    }
  }

  /** Leading white space never produces a field. */
  lemma {:induction false} FieldsSkipsSpace(space: string, s: string)
    requires forall i :: 0 <= i < |space| ==> IsSpace(space[i])
    ensures Fields(space + s) == Fields(s)
    decreases |space|
  {
    if space != [] {
      assert (space + s)[1..] == space[1..] + s;
      FieldsSkipsSpace(space[1..], s);
    } else {
      assert space + s == s;
    }
  }

  /** `unicode.ToLower` on the ASCII letters; other characters are kept. */
  function LowerChar(c: char): char {
    if 'A' <= c <= 'Z' then (c as int + 32) as char else c
  }

  /** `strings.ToLower`: every character lower-cased in place. */
  function ToLower(s: string): (r: string)
    ensures |r| == |s|
    ensures forall i :: 0 <= i < |s| ==> r[i] == LowerChar(s[i])
  {
    if s == [] then []
    else
      var r := [LowerChar(s[0])] + ToLower(s[1..]);
      assert forall i :: 1 <= i < |s| ==> r[i] == ToLower(s[1..])[i - 1] && s[i] == s[1..][i - 1];
      r
  }

  datatype HeaderError =
    | HeaderNotProvided                            // "authorization header is not provided"
    | InvalidHeaderFormat                          // "Invalid authorization header format"
    | UnsupportedAuthorizationType(kind: string)   // "Unsupported authorization type %s"

  /** The checks of middleware.go:21-42, in their order; success yields the token to verify. */
  function ParseAuthorizationHeader(header: string): (r: Result<string, HeaderError>)
    ensures |header| == 0 ==> r == Failure(HeaderNotProvided)
    ensures |header| > 0 && |Fields(header)| < 2 ==> r == Failure(InvalidHeaderFormat)
    ensures r.Success? <==> |Fields(header)| >= 2 && ToLower(Fields(header)[0]) == AuthorizationTypeBearer
    ensures r.Success? ==> r.value == Fields(header)[1] && |r.value| > 0 && NoSpace(r.value)
  {
    if |header| == 0 then Failure(HeaderNotProvided)
    else
      var fields := Fields(header);
      if |fields| < 2 then Failure(InvalidHeaderFormat)
      else
        var authorizationType := ToLower(fields[0]);
        if authorizationType != AuthorizationTypeBearer then Failure(UnsupportedAuthorizationType(authorizationType))
        else Success(fields[1])
  }

  /**
   * Header round trip: a scheme that lower-cases to "bearer", white space, a
   * token, and anything after a further space yield exactly that token.
   */
  lemma BearerHeaderYieldsToken(scheme: string, space: string, token: string, tail: string)
    requires |scheme| > 0 && NoSpace(scheme) && ToLower(scheme) == AuthorizationTypeBearer
    requires |space| > 0 && forall i :: 0 <= i < |space| ==> IsSpace(space[i])
    requires |token| > 0 && NoSpace(token)
    requires tail == [] || IsSpace(tail[0])
    ensures ParseAuthorizationHeader(scheme + space + token + tail) == Success(token)
  {
    TwoFields(scheme, space, token, tail);
    SchemeDecides(scheme + space + token + tail, scheme, token, Fields(tail));
  }

  /**
   * Once a header has two fields or more, the first alone decides: "bearer"
   * in any case yields the second, anything else is an unsupported type.
   */
  lemma SchemeDecides(header: string, first: string, second: string, rest: seq<string>)
    requires |header| > 0 && Fields(header) == [first, second] + rest
    ensures ParseAuthorizationHeader(header)
      == if ToLower(first) == AuthorizationTypeBearer then Success(second)
         else Failure(UnsupportedAuthorizationType(ToLower(first)))
  {
    var fields := [first, second] + rest;
    assert fields[0] == first && fields[1] == second;
  }

  lemma {:induction false} TwoFields(first: string, space: string, second: string, tail: string)
    requires |first| > 0 && NoSpace(first)
    requires |space| > 0 && forall i :: 0 <= i < |space| ==> IsSpace(space[i])
    requires |second| > 0 && NoSpace(second)
    requires tail == [] || IsSpace(tail[0])
    ensures Fields(first + space + second + tail) == [first, second] + Fields(tail)
  {
    assert first + space + second + tail == first + (space + (second + tail));
    FieldsOfWord(first, space + (second + tail));
    FieldsSkipsSpace(space, second + tail);
    FieldsOfWord(second, tail);
  }

  /** Any scheme other than a case variant of "bearer" is refused, and the token is not looked at. */
  lemma OtherSchemeRejected(scheme: string, space: string, token: string)
    requires |scheme| > 0 && NoSpace(scheme) && ToLower(scheme) != AuthorizationTypeBearer
    requires |space| > 0 && forall i :: 0 <= i < |space| ==> IsSpace(space[i])
    requires |token| > 0 && NoSpace(token)
    ensures ParseAuthorizationHeader(scheme + space + token) == Failure(UnsupportedAuthorizationType(ToLower(scheme)))
  {
    var header := scheme + space + token;
    assert header + [] == header;
    TwoFields(scheme, space, token, []);
    SchemeDecides(header, scheme, token, Fields([]));
  }

  /** A lone word (the token without a scheme, say) has one field and is refused as malformed. */
  lemma SingleFieldRejected(word: string)
    requires |word| > 0 && NoSpace(word)
    ensures ParseAuthorizationHeader(word) == Failure(InvalidHeaderFormat)
  {
    FieldsOfWord(word, []);
    assert word + [] == word;
  }

  /** The scheme is matched without regard to case, and only "bearer" matches. */
  lemma SchemeSpellings()
    ensures ToLower("Bearer") == AuthorizationTypeBearer
    ensures ToLower("BEARER") == AuthorizationTypeBearer
    ensures ToLower("Basic") != AuthorizationTypeBearer
  {
    assert |ToLower("Basic")| == 5;
  }

  /** What the middleware does to the request: abort with a status, store the payload, call the next handler. */
  datatype AuthError = HeaderFailure(headerError: HeaderError) | TokenFailure(tokenError: TokenError)

  class Context {
    var header: string                      // ctx.GetHeader("Authorization")
    var aborted: Option<(int, AuthError)>   // AbortWithStatusJSON(status, errorResponse(err))
    var keys: map<string, Payload>          // ctx.Set
    var nextCalled: bool                    // ctx.Next()

    constructor (header: string)
      ensures this.header == header && aborted.None? && keys == map[] && !nextCalled
    {
      this.header := header;
      aborted := None;
      keys := map[];
      nextCalled := false;
    }
  }

  /** `token.Maker` reduced to `VerifyToken`; `verified` records every token handed to it. */
  class TokenMaker {
    const verify: string -> Result<Payload, TokenError>
    ghost var verified: seq<string>

    constructor (verify: string -> Result<Payload, TokenError>)
      ensures this.verify == verify && verified == []
    {
      this.verify := verify;
      verified := [];
    }

    method VerifyToken(token: string) returns (r: Result<Payload, TokenError>)
      modifies this`verified
      ensures verified == old(verified) + [token]
      ensures r == verify(token)
    {
      r := verify(token);
      verified := verified + [token];
    }
  }

  /** The handler returned by `AuthMiddleware(tokenMaker)`, run on one request. */
  method AuthMiddleware(tokenMaker: TokenMaker, ctx: Context)
    requires ctx.aborted.None? && !ctx.nextCalled
    modifies ctx`aborted, ctx`keys, ctx`nextCalled, tokenMaker`verified
    ensures match ParseAuthorizationHeader(ctx.header)
      // a malformed header aborts with 401 before any token is verified
      case Failure(e) =>
        && ctx.aborted == Some((StatusUnauthorized, HeaderFailure(e)))
        && tokenMaker.verified == old(tokenMaker.verified)
        && ctx.keys == old(ctx.keys) && !ctx.nextCalled
      case Success(token) =>
        // exactly the second field is verified, once
        && tokenMaker.verified == old(tokenMaker.verified) + [token]
        && match tokenMaker.verify(token)
          case Failure(e) =>
            ctx.aborted == Some((StatusUnauthorized, TokenFailure(e))) && ctx.keys == old(ctx.keys) && !ctx.nextCalled
          case Success(payload) =>
            ctx.aborted.None? && ctx.keys == old(ctx.keys)[AuthorizationPayloadKey := payload] && ctx.nextCalled
  {
    var authorizationHeader := ctx.header;
    if |authorizationHeader| == 0 {
      ctx.aborted := Some((StatusUnauthorized, HeaderFailure(HeaderNotProvided)));
      return;
    }

    var fields := Fields(authorizationHeader);
    if |fields| < 2 {
      ctx.aborted := Some((StatusUnauthorized, HeaderFailure(InvalidHeaderFormat)));
      return;
    }

    var authorizationType := ToLower(fields[0]);
    if authorizationType != AuthorizationTypeBearer {
      ctx.aborted := Some((StatusUnauthorized, HeaderFailure(UnsupportedAuthorizationType(authorizationType))));
      return;
    }

    var accessToken := fields[1];
    var payload := tokenMaker.VerifyToken(accessToken);
    if payload.Failure? {
      ctx.aborted := Some((StatusUnauthorized, TokenFailure(payload.error)));
      return;
    }

    ctx.keys := ctx.keys[AuthorizationPayloadKey := payload.value];
    ctx.nextCalled := true;
  }
}
