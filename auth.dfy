/** The three gates of backend/middleware/auth.js. A gate either hands the request
    on (`next()`) or answers it with a status and an error body. */
module Auth {
  import opened Wrappers
  import opened Sessions

  datatype GateResult = Next | Deny(status: int, error: string)

  /** `req.body.adminCode` as it arrives: absent, a string, or any other JSON value
      (number, boolean, null, object), which is never strictly equal to a string or
      to `undefined`. */
  datatype CodeValue = Missing | Str(s: string) | Other

  const AdminRequired := "Unauthorized: Admin access required"
  const SpotifyRequired := "Unauthorized: Spotify authentication required"
  const InvalidAdminCode := "Invalid admin code"

  /** `authenticateAdmin`: only admin sessions pass. */
  function AuthenticateAdmin(isAdmin: bool): (g: GateResult)
    ensures g.Next? <==> isAdmin
    ensures g.Deny? ==> g.status == 401 && g.error == AdminRequired
  {
    if isAdmin then Next else Deny(401, AdminRequired)
  }

  /** `authenticateSpotify`: a session passes when it holds a non-empty access
      token (an absent token is the empty string here, both being falsy). */
  function AuthenticateSpotify(accessToken: string): (g: GateResult)
    ensures g.Next? <==> |accessToken| > 0
    ensures g.Deny? ==> g.status == 401 && g.error == SpotifyRequired
  {
    if accessToken != "" then Next else Deny(401, SpotifyRequired)
  }

  /** `adminCode === process.env.ADMIN_CODE`; `configured` is None when the
      variable is not set, and then an absent code matches it. */
  predicate CodeMatches(adminCode: CodeValue, configured: Option<string>) {
    match adminCode
    case Missing => configured.None?
    case Str(s) => configured == Some(s)
    case Other => false
  }

  /** `verifyAdminCode`: a matching code makes the session an admin session and
      passes; any other code is refused and leaves the session as it was. */
  method VerifyAdminCode(session: Session, adminCode: CodeValue, configured: Option<string>)
    returns (g: GateResult)
    modifies session`isAdmin
    ensures g.Next? <==> CodeMatches(adminCode, configured)
    ensures g.Deny? ==> g.status == 401 && g.error == InvalidAdminCode
    ensures session.isAdmin == (old(session.isAdmin) || g.Next?)
    // after a match the admin gate lets this session through
    ensures g.Next? ==> AuthenticateAdmin(session.isAdmin).Next?
  {
    if CodeMatches(adminCode, configured) {
      session.isAdmin := true;
      return Next;
    }
    return Deny(401, InvalidAdminCode);
  }

  /** A configured code is matched by that string and by nothing else, and an
      unset code is matched only by an absent one. */
  lemma CodeMatchesExactly(adminCode: CodeValue, configured: Option<string>)
    ensures configured.Some? ==> (CodeMatches(adminCode, configured) <==> adminCode == Str(configured.value))
    ensures configured.None? ==> (CodeMatches(adminCode, configured) <==> adminCode == Missing)
  {
  }
}
