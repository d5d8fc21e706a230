/** The subscription handshake of the GET webhook route (app.py:81-88). */
module Handshake {
  import opened Wrappers
  import opened Http

  /** The token the deployment uses when VERIFY_TOKEN is not set (app.py:10). */
  const DefaultVerifyToken: string := "my_verify_token"

  /** `verify()` for the query parameters `hub.mode`, `hub.verify_token` and
      `hub.challenge`, each absent when the request does not carry it. The
      challenge is echoed with 200 when the mode is "subscribe" and the token is
      the configured one; otherwise the answer is "Forbidden" with 403. Echoing
      an absent challenge hands Flask a `None` body, which it refuses with 500. */
  function Verify(verifyToken: string, mode: Option<string>, token: Option<string>,
                  challenge: Option<string>): (r: Reply)
    ensures r.Status() == 200 <==>
              mode == Some("subscribe") && token == Some(verifyToken) && challenge.Some?
    ensures r.Status() == 200 ==> r.body == challenge.value
    ensures r == Reply("Forbidden", 403) <==>
              !(mode == Some("subscribe") && token == Some(verifyToken))
    ensures r.ServerError? <==>
              mode == Some("subscribe") && token == Some(verifyToken) && challenge.None?
  {
    if mode == Some("subscribe") && token == Some(verifyToken) then
      match challenge
      case Some(c) => Reply(c, 200)
      case None => ServerError
    else
      Reply("Forbidden", 403)
  }

  /** A deployment without VERIFY_TOKEN completes the handshake for the
      placeholder token and for no other. */
  lemma DefaultDeploymentHandshake(token: string, challenge: string)
    ensures Verify(DefaultVerifyToken, Some("subscribe"), Some("my_verify_token"), Some(challenge))
            == Reply(challenge, 200)
    ensures token != "my_verify_token" ==>
              Verify(DefaultVerifyToken, Some("subscribe"), Some(token), Some(challenge)) == Reply("Forbidden", 403)
  {
  }
}
