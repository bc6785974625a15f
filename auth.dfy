/**
 * The session check of `useAuth` (src/hooks/useAuth.ts): read the stored
 * token, ask the backend for the current user with it, and settle on an
 * authenticated or a signed-out state, clearing the stored token and the
 * cookie when the backend refuses it or cannot be reached.
 */
module Auth {
  import opened Wrappers
  import opened Types
  import Json
  import Api

  /** `AuthState`; `user` is the parsed body of `/users/me`, `null` when there is none. */
  datatype AuthState = AuthState(user: Json.Value, token: Option<string>, isLoading: bool, isAuthenticated: bool)

  /** The state before the check has run (lines 19-24). */
  const Initial := AuthState(Json.Null, None, true, false)

  /** The state of every path that ends signed out. */
  const SignedOut := AuthState(Json.Null, None, false, false)

  const StorageKey := "auth_token"
  const MeUrl := "http://localhost:8000/api/v1/users/me"

  /** The fetch of `/users/me`: rejected, or a response whose body may fail to parse. */
  datatype MeOutcome = MeFailed | MeResponse(ok: bool, body: Api.Body)

  /** The request the check sends for a token: a GET with the token as a bearer credential. */
  function MeRequest(token: string): (s: Api.Sent)
    ensures s.url == MeUrl && s.verb == Api.Method.Get && s.body.None?
    ensures ("Authorization", "Bearer " + token) in s.headers
  {
    Api.Sent(MeUrl, Api.Method.Get, [("Authorization", "Bearer " + token), Api.JsonContentType], None)
  }

  /** The user the backend vouches for: an OK response whose body parses. */
  function VouchedUser(me: MeOutcome): (u: Option<Json.Value>)
    ensures u.Some? <==> me.MeResponse? && me.ok && me.body.Parsed?
    ensures u.Some? ==> u.value == me.body.value
  {
    if me.MeResponse? && me.ok && me.body.Parsed? then Some(me.body.value) else None
  }

  /**
   * Where the check ends, and whether it clears the stored token and the
   * cookie. `readFails` is an exception before the first request, which the
   * outer `catch` turns into the signed-out state without clearing anything.
   */
  datatype CheckEnd = CheckEnd(state: AuthState, clears: bool)

  function CheckOutcome(stored: Option<string>, readFails: bool, me: MeOutcome): (e: CheckEnd)
    ensures readFails || !PresentText(stored) ==> e == CheckEnd(SignedOut, false)
    ensures !readFails && PresentText(stored) && VouchedUser(me).Some? ==>
      e == CheckEnd(AuthState(VouchedUser(me).value, stored, false, true), false)
    ensures !readFails && PresentText(stored) && VouchedUser(me).None? ==> e == CheckEnd(SignedOut, true)
  {
    if readFails || !PresentText(stored) then CheckEnd(SignedOut, false)
    else match VouchedUser(me)
      case Some(u) => CheckEnd(AuthState(u, stored, false, true), false)
      case None => CheckEnd(SignedOut, true)
  }

  /**
   * Every final state has stopped loading; it is authenticated exactly when
   * it holds a token, that token is the stored one, and the signed-out state
   * holds neither user nor token. Clearing happens only on the way to the
   * signed-out state.
   */
  lemma FinalStates(stored: Option<string>, readFails: bool, me: MeOutcome)
    ensures !CheckOutcome(stored, readFails, me).state.isLoading
    ensures CheckOutcome(stored, readFails, me).state.isAuthenticated <==> CheckOutcome(stored, readFails, me).state.token.Some?
    ensures CheckOutcome(stored, readFails, me).state.token.Some? ==> CheckOutcome(stored, readFails, me).state.token == stored
    ensures !CheckOutcome(stored, readFails, me).state.isAuthenticated ==> CheckOutcome(stored, readFails, me).state == SignedOut
    ensures CheckOutcome(stored, readFails, me).clears ==> CheckOutcome(stored, readFails, me).state == SignedOut
    ensures CheckOutcome(stored, readFails, me).state.isAuthenticated <==> !readFails && PresentText(stored) && VouchedUser(me).Some?
  {
  }

  /** A user body that is not `null` makes the authenticated state hold a user. */
  lemma AuthenticatedHasUser(stored: Option<string>, me: MeOutcome)
    requires CheckOutcome(stored, false, me).state.isAuthenticated
    requires me.body != Api.Parsed(Json.Null)
    ensures CheckOutcome(stored, false, me).state.user != Json.Null
  {
  }

  /** The session as the hook and the browser keep it. */
  class Session {
    var state: AuthState
    /** `localStorage['auth_token']`. */
    var storedToken: Option<string>
    /** Whether the `auth_token` cookie is set. */
    var cookieSet: bool

    constructor (storedToken: Option<string>, cookieSet: bool)
      ensures state == Initial && this.storedToken == storedToken && this.cookieSet == cookieSet
    {
      state := Initial;
      this.storedToken := storedToken;
      this.cookieSet := cookieSet;
    }

    /** `localStorage.removeItem('auth_token')` and the expired cookie. */
    method ClearStorage()
      modifies this
      ensures storedToken.None? && !cookieSet && state == old(state)
    {
      storedToken := None;
      cookieSet := false;
    }

    /**
     * `checkAuth`, branch by branch: the literal token `'authenticated'` has a
     * branch of its own in the source, which does what the general one does.
     */
    method CheckAuth(readFails: bool, me: MeOutcome) returns (sent: Option<Api.Sent>)
      modifies this
      ensures state == CheckOutcome(old(storedToken), readFails, me).state
      ensures CheckOutcome(old(storedToken), readFails, me).clears ==> storedToken.None? && !cookieSet
      ensures !CheckOutcome(old(storedToken), readFails, me).clears ==> storedToken == old(storedToken) && cookieSet == old(cookieSet)
      ensures sent.Some? <==> !readFails && PresentText(old(storedToken))
      ensures sent.Some? ==> sent == Some(MeRequest(old(storedToken).value))
    {
      if readFails {
        state := SignedOut;
        return None;
      }
      var token := storedToken;
      if !PresentText(token) {
        state := SignedOut;
        return None;
      }
      var t := token.value;
      sent := Some(MeRequest(t));
      if t == "authenticated" {
        match me {
          case MeFailed =>
            ClearStorage();
            state := SignedOut;
          case MeResponse(ok, body) =>
            if ok {
              match body {
                case Parsed(user) =>
                  state := AuthState(user, token, false, true);
                case Unparseable =>
                  ClearStorage();
                  state := SignedOut;
              }
            } else {
              ClearStorage();
              state := SignedOut;
            }
        }
        return;
      }
      match me {
        case MeFailed =>
          ClearStorage();
          state := SignedOut;
        case MeResponse(ok, body) =>
          if ok {
            match body {
              case Parsed(user) =>
                state := AuthState(user, token, false, true);
              case Unparseable =>
                ClearStorage();
                state := SignedOut;
            }
          } else {
            ClearStorage();
            state := SignedOut;
          }
      }
    }
  }
}
