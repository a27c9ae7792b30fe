/** The per-browser `req.session` object the Express middleware reads and writes.
    A JavaScript value that is falsy (`undefined`, `null`, `''`) is the empty
    string here. */
module Sessions {

  class Session {
    var isAdmin: bool
    var userId: string
    var spotifyAccessToken: string
    var spotifyRefreshToken: string

    constructor (isAdmin: bool, userId: string, accessToken: string, refreshToken: string)
      ensures this.isAdmin == isAdmin && this.userId == userId
      ensures spotifyAccessToken == accessToken && spotifyRefreshToken == refreshToken
    {
      this.isAdmin := isAdmin;
      this.userId := userId;
      spotifyAccessToken := accessToken;
      spotifyRefreshToken := refreshToken;
    }
  }
}
