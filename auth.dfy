/**
 * The challenge-response login `getToken`: fetch a challenge from the
 * server's `/auth` endpoint, sign it, and post the public key, the challenge
 * and the signature back to the same endpoint, whose answer is the token.
 * Each step runs only when the one before it succeeded, and the first
 * failure is the overall rejection.
 */
module Auth {
  import opened Values
  import opened Templater
  import opened Resources
  import opened Crypto

  /** The request that fetches the challenge: a GET of `/auth` with no query parameters. */
  function ChallengeRequest(server: string): Request
  {
    Request(GetVerb, AuthUri(server), map[], None)
  }

  /** The body posted to `/auth` once the challenge is signed. */
  function AuthBody(pubkey: string, challenge: Value, signature: Value): Value
  {
    Obj(map["pubkey" := Str(pubkey), "challenge" := challenge, "signature" := signature])
  }

  /** The request that exchanges the signed challenge for a token. */
  function TokenRequest(server: string, body: Value): Request
  {
    Request(PostVerb, AuthUri(server), map[], Some(body))
  }

  /** `getToken(keypair)`: the token, or the first step's rejection, with the calls made. */
  function GetToken(server: string, keypair: Keypair, http: Http, crypto: CryptoUtils): (o: Run<Value>)
    // the challenge is always fetched first
    ensures |o.calls| >= 1 && o.calls[0] == HttpCall(ChallengeRequest(server))
    // a failed challenge fetch stops everything
    ensures Settle(http(ChallengeRequest(server))).Failure? ==>
      o == Run(Settle(http(ChallengeRequest(server))), [HttpCall(ChallengeRequest(server))])
    // the fetched challenge is what gets signed; a failed signature stops the login
    ensures Settle(http(ChallengeRequest(server))).Success? ==>
      var challenge := Settle(http(ChallengeRequest(server))).value;
      && |o.calls| >= 2 && o.calls[1] == SignCall(challenge)
      && (crypto.sign(challenge, keypair).Failure? ==>
            o.result == crypto.sign(challenge, keypair) && |o.calls| == 2)
    // both succeeded: the signed challenge is posted and the answer is the result
    ensures Settle(http(ChallengeRequest(server))).Success? ==>
      var challenge := Settle(http(ChallengeRequest(server))).value;
      crypto.sign(challenge, keypair).Success? ==>
        var body := AuthBody(crypto.encodeBase58(keypair.signPk), challenge,
                             crypto.sign(challenge, keypair).value);
        && o.calls == [HttpCall(ChallengeRequest(server)), SignCall(challenge),
                       HttpCall(TokenRequest(server, body))]
        && o.result == Settle(http(TokenRequest(server, body)))
  {
    var fetched := GetResource(AuthUri(server), Absent, http);
    assert fetched.calls == [HttpCall(ChallengeRequest(server))];
    match fetched.result
    case Failure(_) => fetched
    case Success(challenge) =>
      var calls := fetched.calls + [SignCall(challenge)];
      match crypto.sign(challenge, keypair)
      case Failure(err) => Run(Failure(err), calls)
      case Success(signature) =>
        var body := AuthBody(crypto.encodeBase58(keypair.signPk), challenge, signature);
        var posted := PostResource(AuthUri(server), body, Absent, http);
        assert posted.calls == [HttpCall(TokenRequest(server, body))];
        Run(posted.result, calls + posted.calls)
  }

  /**
   * A token is only ever obtained by posting a signature of the challenge the
   * server handed out, under the keypair's public key.
   */
  lemma TokenOnlyAfterSigning(server: string, keypair: Keypair, http: Http, crypto: CryptoUtils)
    requires GetToken(server, keypair, http, crypto).result.Success?
    ensures Settle(http(ChallengeRequest(server))).Success?
    ensures var challenge := Settle(http(ChallengeRequest(server))).value;
      && crypto.sign(challenge, keypair).Success?
      && HttpCall(TokenRequest(server, AuthBody(crypto.encodeBase58(keypair.signPk), challenge,
                                                crypto.sign(challenge, keypair).value)))
         in GetToken(server, keypair, http, crypto).calls
  {
  }

  /** The post to `/auth` happens at most once, and only as the third call. */
  lemma TokenPostIsLast(server: string, keypair: Keypair, http: Http, crypto: CryptoUtils)
    ensures var o := GetToken(server, keypair, http, crypto);
      forall k :: 0 <= k < |o.calls| && o.calls[k].HttpCall? && o.calls[k].request.verb == PostVerb ==>
        k == 2 && |o.calls| == 3
  {
  }
}
