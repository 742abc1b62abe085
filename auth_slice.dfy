/** The authentication slice of the browser store
    (ui/src/store/auth/auth.slice.ts). Every reducer returns a fresh state. */
module AuthSlice {

  import opened Wrappers
  import opened Text

  /** `AuthSliceState`; the login payload has the same optional fields. */
  datatype AuthState = AuthState(username: Option<string>, email: Option<string>, token: Option<string>)

  /** `initialState: {}`. */
  const InitialState := AuthState(None, None, None)

  /** `selectIsAuthed`: `Boolean(state.token)`; a missing or empty token
      means signed out, and the user fields play no part. */
  predicate SelectIsAuthed(state: AuthState): (authed: bool)
    ensures authed <==> state.token.Some? && |state.token.value| > 0
  {
    Truthy(state.token)
  }

  /** `login`: `{ ...action.payload }`; each field is the payload's, and
      the user is signed in exactly when the payload brings a token. */
  function Login(state: AuthState, payload: AuthState): (r: AuthState)
    ensures r.username == payload.username && r.email == payload.email && r.token == payload.token
    ensures SelectIsAuthed(r) <==> Truthy(payload.token)
  {
    payload
  }

  /** `logout`: `{}`; every field is gone and the user is signed out. */
  function Logout(state: AuthState): (r: AuthState)
    ensures r.username.None? && r.email.None? && r.token.None?
    ensures !SelectIsAuthed(r)
  {
    InitialState
  }

  /** `rehydrateFromStorage`; `stored` is `localStorage.getItem("token")`. */
  function RehydrateFromStorage(state: AuthState, stored: Option<string>): (r: AuthState)
    ensures r.username == state.username && r.email == state.email
    ensures SelectIsAuthed(r) <==> SelectIsAuthed(state) || Truthy(stored)
    ensures !Truthy(stored) ==> r == state
  {
    if Truthy(stored) then state.(token := stored) else state
  }

  lemma InitialStateIsEmpty()
    ensures !SelectIsAuthed(InitialState)
    ensures InitialState.username.None? && InitialState.email.None? && InitialState.token.None?
  {
  }

  /** Login keeps nothing of the prior state. */
  lemma LoginForgetsState(s1: AuthState, s2: AuthState, payload: AuthState)
    ensures Login(s1, payload) == Login(s2, payload) == payload
    ensures SelectIsAuthed(Login(s1, payload)) <==> Truthy(payload.token)
  {
  }

  /** Logout yields the empty state whatever came before. */
  lemma LogoutIsInitial(state: AuthState)
    ensures Logout(state) == InitialState
    ensures !SelectIsAuthed(Logout(state))
  {
  }

  /** A stored token wins over the state's token; rehydrating twice with the
      same storage is rehydrating once. */
  lemma RehydrateWithToken(state: AuthState, stored: Option<string>)
    requires Truthy(stored)
    ensures RehydrateFromStorage(state, stored).token == stored
    ensures RehydrateFromStorage(RehydrateFromStorage(state, stored), stored) == RehydrateFromStorage(state, stored)
  {
  }
}
