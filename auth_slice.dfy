/** The reducers of the auth slice (frontend/src/redux/slices/authSlice.js): who the
    client is signed in as, and the request status. */
module AuthSlice {
  import opened Wrappers

  datatype AuthState = AuthState(
    isAuthenticated: bool,
    isAdmin: bool,
    username: Option<string>,
    spotifyLoginUrl: Option<string>,
    loading: bool,
    error: Option<string>)

  const Initial := AuthState(false, false, None, None, false, None)

  /** The slice's state, updated in place by its reducers. */
  class Auth {
    var isAuthenticated: bool
    var isAdmin: bool
    var username: Option<string>
    var spotifyLoginUrl: Option<string>
    var loading: bool
    var error: Option<string>

    function State(): AuthState
      reads this
    {
      AuthState(isAuthenticated, isAdmin, username, spotifyLoginUrl, loading, error)
    }

    /** `initialState`. */
    constructor ()
      ensures State() == Initial
    {
      isAuthenticated := false;
      isAdmin := false;
      username := None;
      spotifyLoginUrl := None;
      loading := false;
      error := None;
    }

    method ClearError()
      modifies this
      ensures State() == old(State()).(error := None)
    {
      error := None;
    }

    /** `setAuthSuccess`. */
    method SetAuthSuccess()
      modifies this
      ensures State() == old(State()).(isAuthenticated := true, loading := false, error := None)
    {
      isAuthenticated := true;
      loading := false;
      error := None;
    }

    /** The pending case of every thunk of the slice, `logout` included. */
    method Pending()
      modifies this
      ensures State() == old(State()).(loading := true, error := None)
    {
      loading := true;
      error := None;
    }

    /** The rejected case of every thunk of the slice; a failed logout keeps the
        user signed in. */
    method Rejected(payload: Option<string>)
      modifies this
      ensures State() == old(State()).(loading := false, error := payload)
    {
      loading := false;
      error := payload;
    }

    /** `loginAdmin.fulfilled`: the admin flag comes from the reply; whether the
        client is signed in to the provider is a separate matter. */
    method LoginAdminFulfilled(payloadIsAdmin: bool)
      modifies this
      ensures State() == old(State()).(loading := false, error := None, isAdmin := payloadIsAdmin)
    {
      loading := false;
      isAdmin := payloadIsAdmin;
      error := None;
    }

    /** `getSpotifyLoginUrl.fulfilled`. */
    method GetSpotifyLoginUrlFulfilled(url: string)
      modifies this
      ensures State() == old(State()).(loading := false, error := None, spotifyLoginUrl := Some(url))
    {
      loading := false;
      spotifyLoginUrl := Some(url);
      error := None;
    }

    /** `checkAuthStatus.fulfilled`: the server's view replaces the client's. */
    method CheckAuthStatusFulfilled(payloadIsAuthenticated: bool, payloadIsAdmin: bool, payloadUsername: Option<string>)
      modifies this
      ensures State() == old(State()).(loading := false, error := None,
                                       isAuthenticated := payloadIsAuthenticated,
                                       isAdmin := payloadIsAdmin,
                                       username := payloadUsername)
    {
      loading := false;
      isAuthenticated := payloadIsAuthenticated;
      isAdmin := payloadIsAdmin;
      username := payloadUsername;
      error := None;
    }

    /** `logout.fulfilled`: back to the initial state, whatever came before. */
    method LogoutFulfilled()
      modifies this
      ensures State() == Initial
    {
      isAuthenticated := false;
      isAdmin := false;
      username := None;
      spotifyLoginUrl := None;
      loading := false;
      error := None;
    }
  }
}
