/**
 * AniList sign-in: the local callback server captures the token from the
 * redirect's query string, and `do_auth` stores it unless a token is already
 * configured.
 */
module Auth {
  import opened Wrappers
  import opened Text
  import opened Config

  const TokenMarker: string := "access_token="

  /** The `/capture` handler: the text after the first "access_token=", or "" when the marker is absent. */
  function CapturedToken(query: string): (t: string)
    ensures IndexOf(query, TokenMarker).None? ==> t == ""
    ensures IndexOf(query, TokenMarker).Some? ==>
      (var k := IndexOf(query, TokenMarker).value;
       query == query[..k] + TokenMarker + t && k + |TokenMarker| + |t| == |query|)
  {
    var t := SubstringAfter(query, TokenMarker, "");
    if IndexOf(query, TokenMarker).Some? then
      var k := IndexOf(query, TokenMarker).value;
      assert query[k..k + |TokenMarker|] == TokenMarker;
      assert query == query[..k] + query[k..k + |TokenMarker|] + query[k + |TokenMarker|..];
      t
    else t
  }

  /** A query that starts with the marker yields everything after it. */
  lemma CaptureAfterMarker(token: string)
    ensures CapturedToken(TokenMarker + token) == token
  {
    assert (TokenMarker + token)[..|TokenMarker|] == TokenMarker;
    FirstOccurrence(TokenMarker + token, TokenMarker, 0);
  }

  /** Sign-in is needed while no token is stored. */
  predicate AuthNeeded(c: AppConfig) {
    c.authToken == ""
  }

  /** A capture without the marker stores "", which leaves sign-in needed for the next start. */
  lemma EmptyCaptureStillNeedsAuth(c: AppConfig, query: string)
    requires IndexOf(query, TokenMarker).None?
    ensures AuthNeeded(c.(authToken := CapturedToken(query)))
  {
  }

  /**
   * `do_auth()`: `serverResult` is what the local server handed back (it waits
   * for the capture, so in practice it is always present).
   */
  method DoAuth(m: ConfigManager, serverResult: Option<string>)
    modifies m
    ensures !AuthNeeded(old(m.config)) ==> m.config == old(m.config) && m.stored == old(m.stored)
    ensures AuthNeeded(old(m.config)) && serverResult.Some? ==>
      m.config == old(m.config).(authToken := serverResult.value) && m.stored == Some(m.config)
    ensures AuthNeeded(old(m.config)) && serverResult.None? ==>
      m.config == old(m.config) && m.stored == old(m.stored)
  {
    if m.config.authToken != "" {
      return;
    }
    if serverResult.Some? {
      m.SetToken(serverResult.value);
    }
  }
}
