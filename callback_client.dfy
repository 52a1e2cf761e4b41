/**
 * The callback revision of the client (`GameJoltAPI`). Each operation is split
 * at its network round trip: the operation itself checks its guard, updates the
 * session and issues one signed request (recorded in `requests` and, with the
 * continuation it waits for, in `inFlight`); a `Complete…` method runs that
 * continuation for a given transport result.
 */
module CallbackClient {
  import opened Wrappers
  import opened Signing
  import opened Envelope
  import opened Classes
  import opened Requests

  /** Invocations of the public events, in the order they happened. */
  datatype Notification = OnAuthenticate(success: bool) | OnTrophy(id: int32, kind: TrophyEventType)

  class GameJoltAPI {
    var gameID: string
    var gameKey: string
    const md5: Md5
    const decodeTrophy: JsonObject -> TrophyData

    // The session: cached credentials and the two flags.
    var username: string
    var userToken: string
    var isAuthenticated: bool
    var isAuthenticating: bool

    /** Every signed URL handed to the transport, in order; a request's ticket is its index. */
    var requests: seq<string>
    /** The requests whose continuation has not run yet, by ticket. */
    var inFlight: map<nat, Pending>
    var notifications: seq<Notification>
    /**
     * Whether the `users/auth/` request of the current authentication attempt has
     * been sent. Only `Authenticate` sends one, once per attempt.
     */
    ghost var authSent: bool

    ghost predicate NoAuthInFlight()
      reads this
    {
      forall t :: t in inFlight ==> !inFlight[t].AuthPending?
    }

    /**
     * Credentials are empty unless authenticated; tickets name issued requests; at
     * most one authentication is in flight, and only while `isAuthenticating` holds.
     */
    ghost predicate Valid()
      reads this
    {
      && (!isAuthenticated ==> username == "" && userToken == "")
      && (forall t :: t in inFlight ==> t < |requests|)
      && (forall t :: t in inFlight && inFlight[t].AuthPending? ==> isAuthenticating)
      && (forall t, u :: t in inFlight && u in inFlight && inFlight[t].AuthPending? && inFlight[u].AuthPending?
            ==> t == u)
      && (forall t :: t in inFlight && inFlight[t].AuthPending? ==>
            authSent && requests[t] == RequestURL("users/auth/", AuthQueries(inFlight[t].name, inFlight[t].token)))
      && (!isAuthenticating ==> !authSent)
    }

    /**
     * The session is authenticating, its attempt's request was sent, and no reply to
     * it is awaited any more: no operation can complete or restart authentication.
     */
    ghost predicate Wedged()
      reads this
    {
      isAuthenticating && authSent && NoAuthInFlight()
    }

    ghost function Session(): (string, string, bool, bool)
      reads this
    {
      (username, userToken, isAuthenticated, isAuthenticating)
    }

    /** The signed URL sent for an endpoint and its queries. */
    function RequestURL(endpoint: string, queries: seq<string>): string
      reads this
    {
      SignedURL(md5, gameKey, CanonicalRequest(V1_2BaseURL, endpoint, gameID, queries))
    }

    constructor (gameID: string, gameKey: string, md5: Md5, decodeTrophy: JsonObject -> TrophyData)
      ensures Valid()
      ensures this.gameID == gameID && this.gameKey == gameKey && this.md5 == md5 && this.decodeTrophy == decodeTrophy
      ensures Session() == ("", "", false, false)
      ensures requests == [] && inFlight == map[] && notifications == []
    {
      this.gameID := gameID;
      this.gameKey := gameKey;
      this.md5 := md5;
      this.decodeTrophy := decodeTrophy;
      username, userToken := "", "";
      isAuthenticated, isAuthenticating := false, false;
      requests, inFlight, notifications := [], map[], [];
      authSent := false;
    }

    /** `APIRequest`: builds and signs the URL, sends it, and leaves `pending` waiting for the result. */
    method APIRequest(endpoint: string, queries: seq<string>, pending: Pending) returns (ticket: nat)
      requires Valid()
      requires pending.AuthPending? ==>
        isAuthenticating && !authSent && endpoint == "users/auth/" && queries == AuthQueries(pending.name, pending.token)
      modifies this`requests, this`inFlight, this`authSent
      ensures Valid()
      ensures old(Wedged()) ==> Wedged()
      ensures authSent == (old(authSent) || pending.AuthPending?)
      ensures ticket == old(|requests|) && ticket !in old(inFlight)
      ensures requests == old(requests) + [RequestURL(endpoint, queries)]
      ensures inFlight == old(inFlight)[ticket := pending]
    {
      var request := BuildRequest(V1_2BaseURL, endpoint, gameID, queries);
      var url := AddSignature(md5, gameKey, request);
      ticket := |requests|;
      requests := requests + [url];
      inFlight := inFlight[ticket := pending];
      if pending.AuthPending? {
        authSent := true;
      }
    }

    /**
     * `Authenticate`: refused without any request while authenticated (unless forced)
     * or while another authentication is under way; otherwise marks the session as
     * authenticating and sends the name and token to `users/auth/`.
     */
    method Authenticate(name: string, token: string, forced: bool) returns (ticket: Option<nat>)
      requires Valid()
      modifies this`username, this`userToken, this`isAuthenticated, this`isAuthenticating, this`requests, this`inFlight, this`notifications, this`authSent
      ensures Valid()
      ensures old(Wedged()) ==> Wedged()
      ensures old((isAuthenticated && !forced) || isAuthenticating) ==> ticket == None && unchanged(this)
      ensures !old((isAuthenticated && !forced) || isAuthenticating) ==>
        && ticket == Some(old(|requests|))
        && isAuthenticating
        && username == old(username) && userToken == old(userToken) && isAuthenticated == old(isAuthenticated)
        && requests == old(requests) + [RequestURL("users/auth/", AuthQueries(name, token))]
        && inFlight == old(inFlight)[old(|requests|) := AuthPending(name, token)]
        && notifications == old(notifications)
    {
      if (isAuthenticated && !forced) || isAuthenticating {
        return None;
      }
      isAuthenticating := true;
      var t := APIRequest("users/auth/", AuthQueries(name, token), AuthPending(name, token));
      ticket := Some(t);
    }

    /**
     * The continuations of `Authenticate`. On success the credentials are stored and
     * the session is authenticated; on a failed reply they are cleared; either way the
     * caller's callback and `OnAuthenticate` see the outcome once. A transport failure
     * runs neither, so the session stays as it was, still authenticating.
     */
    method CompleteAuthenticate(ticket: nat, result: WebResult) returns (callback: Option<bool>)
      requires Valid() && ticket in inFlight && inFlight[ticket].AuthPending?
      modifies this`username, this`userToken, this`isAuthenticated, this`isAuthenticating, this`inFlight, this`notifications, this`authSent
      ensures Valid()
      ensures authSent == isAuthenticating
      ensures inFlight == old(inFlight) - {ticket}
      ensures Dispatch(result).RunOnSuccess? ==>
        && username == old(inFlight[ticket].name) && userToken == old(inFlight[ticket].token)
        && isAuthenticated && !isAuthenticating
        && callback == Some(true) && notifications == old(notifications) + [OnAuthenticate(true)]
      ensures Dispatch(result).RunOnError? ==>
        && username == "" && userToken == "" && !isAuthenticated && !isAuthenticating
        && callback == Some(false) && notifications == old(notifications) + [OnAuthenticate(false)]
      ensures Dispatch(result).RunNeither? ==>
        Session() == old(Session()) && callback == None && notifications == old(notifications)
    {
      var pending := inFlight[ticket];
      inFlight := inFlight - {ticket};
      match Dispatch(result)
      case RunOnSuccess(_) =>
        username := pending.name;
        userToken := pending.token;
        isAuthenticated := true;
        isAuthenticating := false;
        authSent := false;
        callback := Some(true);
        notifications := notifications + [OnAuthenticate(true)];
      case RunOnError(_) =>
        username, userToken := "", "";
        isAuthenticated := false;
        isAuthenticating := false;
        authSent := false;
        callback := Some(false);
        notifications := notifications + [OnAuthenticate(false)];
      case RunNeither =>
        callback := None;
    }

    /** `GrantTrophy`: nothing is sent unless authenticated. */
    method GrantTrophy(id: int32) returns (ticket: Option<nat>)
      requires Valid()
      modifies this`requests, this`inFlight, this`authSent
      ensures Valid()
      ensures old(Wedged()) ==> Wedged()
      ensures authSent == old(authSent)
      ensures !old(isAuthenticated) ==> ticket == None && unchanged(this)
      ensures old(isAuthenticated) ==>
        && ticket == Some(old(|requests|))
        && requests == old(requests) + [RequestURL("trophies/add-achieved/", TrophyQueries(username, userToken, id))]
        && inFlight == old(inFlight)[old(|requests|) := TrophyChangePending(id, Grant)]
    {
      if !isAuthenticated {
        return None;
      }
      var t := APIRequest("trophies/add-achieved/", TrophyQueries(username, userToken, id), TrophyChangePending(id, Grant));
      ticket := Some(t);
    }

    /** `RevokeTrophy`: nothing is sent unless authenticated. */
    method RevokeTrophy(id: int32) returns (ticket: Option<nat>)
      requires Valid()
      modifies this`requests, this`inFlight, this`authSent
      ensures Valid()
      ensures old(Wedged()) ==> Wedged()
      ensures authSent == old(authSent)
      ensures !old(isAuthenticated) ==> ticket == None && unchanged(this)
      ensures old(isAuthenticated) ==>
        && ticket == Some(old(|requests|))
        && requests == old(requests) + [RequestURL("trophies/remove-achieved/", TrophyQueries(username, userToken, id))]
        && inFlight == old(inFlight)[old(|requests|) := TrophyChangePending(id, Revoke)]
    {
      if !isAuthenticated {
        return None;
      }
      var t := APIRequest("trophies/remove-achieved/", TrophyQueries(username, userToken, id), TrophyChangePending(id, Revoke));
      ticket := Some(t);
    }

    /** The success continuation of grant and revoke raises `OnTrophy` once; nothing else runs. */
    method CompleteTrophyChange(ticket: nat, result: WebResult)
      requires Valid() && ticket in inFlight && inFlight[ticket].TrophyChangePending?
      modifies this`inFlight, this`notifications
      ensures Valid()
      ensures old(Wedged()) ==> Wedged()
      ensures inFlight == old(inFlight) - {ticket}
      ensures notifications == old(notifications)
        + (if Dispatch(result).RunOnSuccess? then [OnTrophy(old(inFlight[ticket].id), old(inFlight[ticket].kind))] else [])
    {
      var pending := inFlight[ticket];
      inFlight := inFlight - {ticket};
      if Dispatch(result).RunOnSuccess? {
        notifications := notifications + [OnTrophy(pending.id, pending.kind)];
      }
    }

    /** `FetchTrophy`: nothing is sent unless authenticated. */
    method FetchTrophy(id: int32) returns (ticket: Option<nat>)
      requires Valid()
      modifies this`requests, this`inFlight, this`authSent
      ensures Valid()
      ensures old(Wedged()) ==> Wedged()
      ensures authSent == old(authSent)
      ensures !old(isAuthenticated) ==> ticket == None && unchanged(this)
      ensures old(isAuthenticated) ==>
        && ticket == Some(old(|requests|))
        && requests == old(requests) + [RequestURL("trophies/", TrophyQueries(username, userToken, id))]
        && inFlight == old(inFlight)[old(|requests|) := FetchTrophyPending]
    {
      if !isAuthenticated {
        return None;
      }
      var t := APIRequest("trophies/", TrophyQueries(username, userToken, id), FetchTrophyPending);
      ticket := Some(t);
    }

    /**
     * The success continuation of `FetchTrophy` hands the callback the first element
     * of `trophies`; when `trophies` is not an array, indexing it raises inside the
     * continuation, so the callback never runs.
     */
    method CompleteFetchTrophy(ticket: nat, result: WebResult) returns (callback: Option<TrophyData>)
      requires Valid() && ticket in inFlight && inFlight[ticket].FetchTrophyPending?
      modifies this`inFlight
      ensures Valid()
      ensures old(Wedged()) ==> Wedged()
      ensures inFlight == old(inFlight) - {ticket}
      ensures callback.Some? <==>
        Dispatch(result).RunOnSuccess? && FirstElement(ArrayAt(Dispatch(result).response, "trophies")).Ok?
      ensures callback.Some? ==>
        callback.value == decodeTrophy(FirstElement(ArrayAt(Dispatch(result).response, "trophies")).value)
    {
      inFlight := inFlight - {ticket};
      callback := None;
      match Dispatch(result)
      case RunOnSuccess(response) =>
        match FirstElement(ArrayAt(response, "trophies")) {
          case Ok(element) => callback := Some(decodeTrophy(element));
          case Err(_) =>
        }
      case _ =>
    }

    /** `ListTrophies`: nothing is sent unless authenticated; the `achieved` filter is added only when not listing all. */
    method ListTrophies(all: bool, achieved: bool) returns (ticket: Option<nat>)
      requires Valid()
      modifies this`requests, this`inFlight, this`authSent
      ensures Valid()
      ensures old(Wedged()) ==> Wedged()
      ensures authSent == old(authSent)
      ensures !old(isAuthenticated) ==> ticket == None && unchanged(this)
      ensures old(isAuthenticated) ==>
        && ticket == Some(old(|requests|))
        && requests == old(requests) + [RequestURL("trophies/", ListQueries(username, userToken, all, achieved))]
        && inFlight == old(inFlight)[old(|requests|) := ListTrophiesPending]
    {
      if !isAuthenticated {
        return None;
      }
      var queries := [Query("username", username), Query("user_token", userToken)];
      if !all {
        queries := queries + [Query("achieved", BoolText(achieved))];
      }
      assert queries == ListQueries(username, userToken, all, achieved);
      var t := APIRequest("trophies/", queries, ListTrophiesPending);
      ticket := Some(t);
    }

    /** The success continuation of `ListTrophies`: one record per element of `trophies`, or none when it is null. */
    method CompleteListTrophies(ticket: nat, result: WebResult) returns (callback: Option<seq<TrophyData>>)
      requires Valid() && ticket in inFlight && inFlight[ticket].ListTrophiesPending?
      modifies this`inFlight
      ensures Valid()
      ensures old(Wedged()) ==> Wedged()
      ensures inFlight == old(inFlight) - {ticket}
      ensures callback.Some? <==> Dispatch(result).RunOnSuccess?
      ensures callback.Some? ==> var found := ArrayAt(Dispatch(result).response, "trophies");
        && (found.None? ==> callback.value == [])
        && (found.Some? ==>
              && |callback.value| == |found.value|
              && forall i :: 0 <= i < |found.value| ==> callback.value[i] == decodeTrophy(found.value[i]))
    {
      inFlight := inFlight - {ticket};
      callback := None;
      match Dispatch(result)
      case RunOnSuccess(response) =>
        var trophyDatas := DecodeArray(ArrayAt(response, "trophies"), decodeTrophy);
        callback := Some(trophyDatas);
      case _ =>
    }

    /** `GetServerTime`: not gated on authentication, sent with no queries. */
    method GetServerTime() returns (ticket: nat)
      requires Valid()
      modifies this`requests, this`inFlight, this`authSent
      ensures Valid()
      ensures old(Wedged()) ==> Wedged()
      ensures authSent == old(authSent)
      ensures ticket == old(|requests|)
      ensures requests == old(requests) + [RequestURL("time/", [])]
      ensures inFlight == old(inFlight)[ticket := ServerTimePending]
    {
      ticket := APIRequest("time/", [], ServerTimePending);
    }

    /** The success continuation of `GetServerTime` receives the response node. */
    method CompleteServerTime(ticket: nat, result: WebResult) returns (callback: Option<Node>)
      requires Valid() && ticket in inFlight && inFlight[ticket].ServerTimePending?
      modifies this`inFlight
      ensures Valid()
      ensures old(Wedged()) ==> Wedged()
      ensures inFlight == old(inFlight) - {ticket}
      ensures callback.Some? <==> Dispatch(result).RunOnSuccess?
      ensures callback.Some? ==> callback.value == Dispatch(result).response
    {
      inFlight := inFlight - {ticket};
      callback := None;
      if Dispatch(result).RunOnSuccess? {
        callback := Some(Dispatch(result).response);
      }
    }
  }

  /**
   * A second authentication while the first is in flight is refused, and a transport
   * failure of the first leaves the session `Wedged()`, where even a forced attempt
   * is refused without a request. Every operation keeps `Wedged()`, and
   * `CompleteAuthenticate` needs an authentication in flight, which a wedged session
   * has none of: the session stays authenticating for good.
   */
  method AuthenticationWedgesOnTransportFailure(api: GameJoltAPI, name: string, token: string, failure: WebResult)
    requires api.Valid() && !api.isAuthenticated && !api.isAuthenticating
    requires !failure.WebSuccess?
    modifies api
    ensures api.Valid() && api.Wedged()
    ensures api.isAuthenticating && !api.isAuthenticated
    ensures |api.requests| == old(|api.requests|) + 1
  {
    var first := api.Authenticate(name, token, false);
    assert first.Some?;
    var second := api.Authenticate(name, token, false);
    assert second == None;
    var _ := api.CompleteAuthenticate(first.value, failure);
    var third := api.Authenticate(name, token, true);
    assert third == None;
  }
}
