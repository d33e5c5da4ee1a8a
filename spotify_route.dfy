/**
 * The Spotify proxy route (`src/app/api/spotify/route.ts`): a GET handler
 * that takes a Spotify page address from its `url` parameter, obtains an
 * access token with the refresh-token grant, turns the last two path
 * segments of the address into a Web API address and relays the answer.
 *
 * The environment variables and the two remote calls are inputs: the token
 * endpoint's answer and the Web API's answer are `Await` values, where
 * `Rejected` stands for a call (or reading its JSON) that throws.
 */
module SpotifyRoute {
  import opened Wrappers
  import Text
  import Base64
  import Utf8

  const TokenEndpoint := "https://accounts.spotify.com/api/token"
  const ApiBase := "https://api.spotify.com/v1/"
  const FormContentType := "application/x-www-form-urlencoded"

  /** The three environment variables the token request needs. */
  datatype Env = Env(refreshToken: Option<string>, clientId: Option<string>, clientSecret: Option<string>)

  /** The token endpoint's answer: its `ok` flag and the fields of its JSON body. */
  datatype TokenReply = TokenReply(ok: bool, accessToken: Option<string>, errorDescription: Option<string>)

  /**
   * The Web API's answer: `ok`, the status, the body as relayed, and what
   * reading `error.message` from the body gives (`Rejected` when the body
   * has no `error` object and the read throws).
   */
  datatype UpstreamReply = UpstreamReply(ok: bool, status: int, payload: string, errorMessage: Await<string>)

  /** An outgoing HTTP request, as far as the model follows it. */
  datatype Request = Request(verb: string, address: string, authorization: string, contentType: Option<string>, form: seq<(string, string)>)

  datatype Body = ErrorBody(error: string) | Relayed(payload: string)

  datatype Response = Response(status: int, body: Body)

  /** A handled request: the response and the outgoing requests made on the way, in order. */
  datatype Handled = Handled(response: Response, requests: seq<Request>)

  // ---------------------------------------------------------------------
  // The token request

  /** The Basic credentials header of section 2 of RFC 7617: base 64 of the UTF-8 of "id:secret". */
  function BasicAuthorization(clientId: string, clientSecret: string): string
  {
    "Basic " + Base64.Encode(Utf8.Encode(clientId + ":" + clientSecret))
  }

  predicate HasCredentials(env: Env)
  {
    Truthy(env.refreshToken) && Truthy(env.clientId) && Truthy(env.clientSecret)
  }

  /** The POST to the token endpoint: Basic credentials and a form with the refresh-token grant. */
  function TokenRequest(env: Env): Request
    requires HasCredentials(env)
  {
    Request("POST", TokenEndpoint, BasicAuthorization(env.clientId.value, env.clientSecret.value),
      Some(FormContentType), [("grant_type", "refresh_token"), ("refresh_token", env.refreshToken.value)])
  }

  /**
   * `getAccessToken`: the token (possibly absent from the reply) or the
   * message of the error it throws, with the requests it made.
   */
  function GetAccessToken(env: Env, reply: Await<TokenReply>): (Await<Option<string>>, seq<Request>)
  {
    if !HasCredentials(env) then (Rejected("Missing Spotify environment variables"), [])
    else
      var request := TokenRequest(env);
      match reply
      case Rejected(m) => (Rejected(m), [request])
      case Resolved(r) =>
        if !r.ok then (Rejected(OrElse(r.errorDescription, "Failed to fetch access token")), [request])
        else (Resolved(r.accessToken), [request])
  }

  // ---------------------------------------------------------------------
  // The address

  /** The two last `/`-segments of a page address: the content kind (absent for a one-segment text) and the id, cut at its first '?'. */
  function ParseSpotifyUrl(url: string): (Option<string>, string)
  {
    var parts := Text.Split(url, '/');
    var kind := if |parts| >= 2 then Some(parts[|parts| - 2]) else None;
    (kind, Text.Split(parts[|parts| - 1], '?')[0])
  }

  /** The content kinds the route serves. */
  predicate IsContentKind(kind: string)
  {
    kind == "track" || kind == "album" || kind == "playlist"
  }

  /** The check before the Web API call: a served kind and a non-empty id. */
  predicate IsValidTarget(kind: Option<string>, id: string)
  {
    kind.Some? && IsContentKind(kind.value) && id != ""
  }

  /** The Web API address for a kind and an id. */
  function UpstreamAddress(kind: string, id: string): string
  {
    ApiBase + kind + "s/" + id
  }

  /** How a value prints in a template literal, `undefined` when absent. */
  function Interpolated(s: Option<string>): string
  {
    if s.Some? then s.value else "undefined"
  }

  // ---------------------------------------------------------------------
  // The handler

  /** `GET`: the response to a request with the given `url` parameter. */
  function Get(url: Option<string>, env: Env, token: Await<TokenReply>, upstream: Await<UpstreamReply>): Handled
  {
    if !Truthy(url) then Handled(Response(400, ErrorBody("URL is required")), [])
    else
      var (accessToken, tokenRequests) := GetAccessToken(env, token);
      match accessToken
      case Rejected(m) => Handled(Response(500, ErrorBody(OrElse(Some(m), "An internal server error occurred"))), tokenRequests)
      case Resolved(t) =>
        var (kind, id) := ParseSpotifyUrl(url.value);
        if !IsValidTarget(kind, id) then Handled(Response(400, ErrorBody("Invalid Spotify URL")), tokenRequests)
        else
          var requests := tokenRequests + [Request("GET", UpstreamAddress(kind.value, id), "Bearer " + Interpolated(t), None, [])];
          match upstream
          case Rejected(m) => Handled(Response(500, ErrorBody(OrElse(Some(m), "An internal server error occurred"))), requests)
          case Resolved(r) =>
            if r.ok then Handled(Response(200, Relayed(r.payload)), requests)
            else match r.errorMessage
              case Resolved(m) => Handled(Response(r.status, ErrorBody("Failed to fetch from Spotify: " + m)), requests)
              case Rejected(m) => Handled(Response(500, ErrorBody(OrElse(Some(m), "An internal server error occurred"))), requests)
  }

  // ---------------------------------------------------------------------
  // Properties

  /** A request without a (non-empty) `url` is refused with 400 before any outgoing request. */
  lemma MissingUrlIsBadRequest(url: Option<string>, env: Env, token: Await<TokenReply>, upstream: Await<UpstreamReply>)
    requires !Truthy(url)
    ensures Get(url, env, token, upstream) == Handled(Response(400, ErrorBody("URL is required")), [])
  {
  }

  /**
   * The token comes before the address is looked at: without credentials
   * every address, well-formed or not, gets 500 and no request is made; a
   * failed token request gets 500 and nothing else is requested.
   */
  lemma TokenFailureIsServerError(url: Option<string>, env: Env, token: Await<TokenReply>, upstream: Await<UpstreamReply>)
    requires Truthy(url)
    requires !HasCredentials(env) || token.Rejected? || !token.value.ok
    ensures Get(url, env, token, upstream).response.status == 500
    ensures !HasCredentials(env) ==> Get(url, env, token, upstream) == Handled(Response(500, ErrorBody("Missing Spotify environment variables")), [])
    ensures HasCredentials(env) ==> Get(url, env, token, upstream).requests == [TokenRequest(env)]
  {
  }

  /** Once a token is obtained, an address without a served kind and an id gets 400 and only the token was requested. */
  lemma InvalidTargetIsBadRequest(url: string, env: Env, token: TokenReply, upstream: Await<UpstreamReply>)
    requires url != "" && HasCredentials(env) && token.ok
    requires !IsValidTarget(ParseSpotifyUrl(url).0, ParseSpotifyUrl(url).1)
    ensures Get(Some(url), env, Resolved(token), upstream) == Handled(Response(400, ErrorBody("Invalid Spotify URL")), [TokenRequest(env)])
  {
  }

  /**
   * For a valid address the Web API is asked at `ApiBase + kind + "s/" + id`
   * with the bearer token; a success is relayed with 200 and a failure keeps
   * the upstream status, its message prefixed.
   */
  lemma ValidTargetIsForwarded(url: string, env: Env, token: TokenReply, reply: UpstreamReply)
    requires url != "" && HasCredentials(env) && token.ok
    requires IsValidTarget(ParseSpotifyUrl(url).0, ParseSpotifyUrl(url).1)
    ensures var (kind, id) := ParseSpotifyUrl(url);
      Get(Some(url), env, Resolved(token), Resolved(reply)).requests ==
        [TokenRequest(env), Request("GET", ApiBase + kind.value + "s/" + id, "Bearer " + Interpolated(token.accessToken), None, [])]
    ensures reply.ok ==> Get(Some(url), env, Resolved(token), Resolved(reply)).response == Response(200, Relayed(reply.payload))
    ensures !reply.ok && reply.errorMessage.Resolved? ==>
      Get(Some(url), env, Resolved(token), Resolved(reply)).response ==
        Response(reply.status, ErrorBody("Failed to fetch from Spotify: " + reply.errorMessage.value))
  {
  }

  /** The pieces of an address ending in two separator-free segments. */
  lemma LastTwoSegments(prefix: string, kind: string, rest: string)
    requires '/' !in kind && '/' !in rest
    ensures Text.Split(prefix + "/" + kind + "/" + rest, '/') == Text.Split(prefix, '/') + [kind] + [rest]
  {
    assert prefix + "/" + kind + "/" + rest == (prefix + "/" + kind) + "/" + rest;
    Text.SplitConcat(prefix + "/" + kind, rest, '/');
    Text.SplitConcat(prefix, kind, '/');
    Text.SplitNoSeparator(kind, '/');
    Text.SplitNoSeparator(rest, '/');
  }

  /** The text before the first '?' of an id followed by an optional query. */
  lemma IdBeforeQuery(id: string, query: string)
    requires '?' !in id && (query == "" || query[0] == '?')
    ensures Text.Split(id + query, '?')[0] == id
  {
    if query == "" {
      assert id + query == id;
      Text.SplitNoSeparator(id, '?');
    } else {
      assert id + query == id + ['?'] + query[1..];
      Text.SplitConcat(id, query[1..], '?');
      Text.SplitNoSeparator(id, '?');
    }
  }

  /**
   * Any address whose last two segments are a kind and an id, with an
   * optional query after the id, is read back as that kind and id; this
   * covers both `https://open.spotify.com/<kind>/<id>` and the embed form.
   */
  lemma ParseKindAndId(prefix: string, kind: string, id: string, query: string)
    requires '/' !in kind && '/' !in id && '?' !in id && '/' !in query
    requires query == "" || query[0] == '?'
    ensures ParseSpotifyUrl(prefix + "/" + kind + "/" + id + query) == (Some(kind), id)
  {
    var idq := id + query;
    assert prefix + "/" + kind + "/" + id + query == prefix + "/" + kind + "/" + idq;
    LastTwoSegments(prefix, kind, idq);
    IdBeforeQuery(id, query);
    var parts := Text.Split(prefix, '/') + [kind] + [idq];
    assert parts[|parts| - 2] == kind && parts[|parts| - 1] == idq;
  }

  /** An address ending in '/' has an empty id, so the route refuses it. */
  lemma {:induction false} TrailingSlashHasNoId(url: string)
    ensures ParseSpotifyUrl(url + "/").1 == ""
  {
    Text.SplitConcat(url, "", '/');
    assert url + "/" == url + ['/'] + "";
  }

  /**
   * The Basic credentials decode to the UTF-8 bytes of the client id, one
   * ':' byte and the UTF-8 bytes of the secret; an id without ':' has no
   * ':' byte, so the first ':' byte separates the two (section 2 of RFC 7617).
   */
  lemma BasicCredentialsDecode(clientId: string, clientSecret: string)
    requires ':' !in clientId
    ensures Text.StartsWith(BasicAuthorization(clientId, clientSecret), "Basic ")
    ensures Base64.Decode(BasicAuthorization(clientId, clientSecret)[6..]) ==
      Some(Utf8.Encode(clientId) + [':' as int] + Utf8.Encode(clientSecret))
    ensures ':' as int !in Utf8.Encode(clientId)
  {
    var credentials := Utf8.Encode(clientId + ":" + clientSecret);
    var header := BasicAuthorization(clientId, clientSecret);
    assert header[..6] == "Basic ";
    assert header[6..] == Base64.Encode(credentials);
    Base64.DecodeEncode(credentials);
    Utf8.EncodeAppend(clientId + ":", clientSecret);
    Utf8.EncodeAppend(clientId, ":");
    assert Utf8.Encode(":") == [':' as int];
    Utf8.EncodeAvoidsAscii(clientId, ':');
  }
}
