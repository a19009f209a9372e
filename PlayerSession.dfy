/**
 * A session binds one player to the secret token its client uses to access
 * the town. Player and token are fixed at construction; the video and
 * Spotify tokens start absent and may be set later.
 */
module Sessions {
  import opened Optional
  import opened CoveyTypes

  class PlayerSession {
    const player: Player
    const sessionToken: string
    var videoToken: Option<string>
    var spotifyToken: Option<string>

    /** The session token is random in the source; here it is given. */
    constructor (player: Player, sessionToken: string)
      ensures this.player == player && this.sessionToken == sessionToken
      ensures videoToken == None && spotifyToken == None
    {
      this.player := player;
      this.sessionToken := sessionToken;
      videoToken := None;
      spotifyToken := None;
    }

    /** Setter of the video token; nothing else of the session changes. */
    method SetVideoToken(value: Option<string>)
      modifies this`videoToken
      ensures videoToken == value
      ensures spotifyToken == old(spotifyToken)
    {
      videoToken := value;
    }

    /** Setter of the Spotify token; nothing else of the session changes. */
    method SetSpotifyToken(value: Option<string>)
      modifies this`spotifyToken
      ensures spotifyToken == value
      ensures videoToken == old(videoToken)
    {
      spotifyToken := value;
    }
  }

  /** `find(s => s.sessionToken === token)` over a session list: the first session with the token. */
  function FindSession(sessions: seq<PlayerSession>, token: string): (r: PlayerSession?)
    ensures r != null ==> r in sessions && r.sessionToken == token
    ensures r == null <==> forall s :: s in sessions ==> s.sessionToken != token
    ensures r != null ==> exists k :: 0 <= k < |sessions| && sessions[k] == r
                                      && forall j :: 0 <= j < k ==> sessions[j].sessionToken != token
  {
    if sessions == [] then null
    else if sessions[0].sessionToken == token then sessions[0]
    else FindSession(sessions[1..], token)
  }

  /** `filter(s => s.sessionToken !== token)` over a session list. */
  function WithoutSession(sessions: seq<PlayerSession>, token: string): (r: seq<PlayerSession>)
    ensures forall s :: s in r ==> s in sessions && s.sessionToken != token
    ensures forall s :: s in sessions && s.sessionToken != token ==> s in r
    ensures |r| <= |sessions|
  {
    if sessions == [] then []
    else
      var rest := WithoutSession(sessions[1..], token);
      assert sessions == [sessions[0]] + sessions[1..];
      if sessions[0].sessionToken == token then rest else [sessions[0]] + rest
  }

  /**
   * The filter keeps list order: a session added at the end is kept, last,
   * exactly when its token differs.
   */
  lemma {:induction false} WithoutSessionSnoc(sessions: seq<PlayerSession>, s: PlayerSession, token: string)
    ensures WithoutSession(sessions + [s], token)
            == WithoutSession(sessions, token) + (if s.sessionToken != token then [s] else [])
  {
    if sessions != [] {
      assert (sessions + [s])[1..] == sessions[1..] + [s];
      WithoutSessionSnoc(sessions[1..], s, token);
    }
  }

  /** Once the sessions with a token are filtered out, the lookup by that token finds none. */
  lemma NoSessionAfterFilter(sessions: seq<PlayerSession>, token: string)
    ensures FindSession(WithoutSession(sessions, token), token) == null
  {
  }
}
