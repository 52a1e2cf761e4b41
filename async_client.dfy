/**
 * The async revision of the client (`GameJolt`, with its `User` and `Trophy`
 * operations). Each operation runs up to its `await`: it checks its guard,
 * updates the session, and either raises or issues one signed request; the
 * matching `Complete…` method runs the code after the `await` for the reply the
 * transport produced, returning the operation's result or the exception it raises.
 */
module AsyncClient {
  import opened Wrappers
  import opened Signing
  import opened Envelope
  import opened Classes
  import opened Requests

  /** The API version selector; only `V1_2` has a base URL. */
  datatype APIVersion = V1_2 | OtherVersion(code: int)

  /** Invocations of the public events, in the order they happened. */
  datatype Notification = OnAuthenticated | OnTrophy(kind: TrophyEventType, id: int32)

  const AlreadyAuthenticating := "Already authenticated or is currently authenticating."
  const UnsupportedVersion := "Unsupported API version."
  const GrantRefused := "Attempt to grant trophy without an authenticated user."
  const RevokeRefused := "Attempt to revoke trophy without an authenticated user."
  const FetchRefused := "Attempt to fetch trophy data without an authenticated user."
  const ListRefused := "Attempt to list trophies without an authenticated user."

  class GameJolt {
    var gameID: string
    var gameKey: string
    var version: APIVersion
    const md5: Md5
    const decodeTrophy: JsonObject -> TrophyData

    // The session: cached credentials and the two flags.
    var userName: string
    var userToken: string
    var isAuthenticated: bool
    var isAuthenticating: bool

    /** Every signed URL handed to the transport, in order; a request's ticket is its index. */
    var requests: seq<string>
    /** The requests still awaited, by ticket, with the code that runs after the `await`. */
    var inFlight: map<nat, Pending>
    var notifications: seq<Notification>
    /**
     * Whether the `users/auth/` request of the current authentication attempt has
     * been sent. Only `Authenticate` sends one, once per attempt.
     */
    ghost var authSent: bool

    ghost predicate NoAuthInFlight()
      reads this
    {
      forall t :: t in inFlight ==> !inFlight[t].AuthPending?
    }

    /**
     * Credentials are empty unless authenticated; tickets name issued requests; at
     * most one authentication is awaited, and only while `isAuthenticating` holds.
     */
    ghost predicate Valid()
      reads this
    {
      && (!isAuthenticated ==> userName == "" && userToken == "")
      && (forall t :: t in inFlight ==> t < |requests|)
      && (forall t :: t in inFlight && inFlight[t].AuthPending? ==> isAuthenticating)
      && (forall t, u :: t in inFlight && u in inFlight && inFlight[t].AuthPending? && inFlight[u].AuthPending?
            ==> t == u)
      && (forall t :: t in inFlight && inFlight[t].AuthPending? ==>
            authSent && requests[t] == RequestURL("users/auth/", AuthQueries(inFlight[t].name, inFlight[t].token)))
      && (!isAuthenticating ==> !authSent)
    }

    /**
     * The session is authenticating, its attempt's request was sent, and no reply to
     * it is awaited any more: no operation can complete or restart authentication.
     */
    ghost predicate Wedged()
      reads this
    {
      isAuthenticating && authSent && NoAuthInFlight()
    }

    ghost function Session(): (string, string, bool, bool)
      reads this
    {
      (userName, userToken, isAuthenticated, isAuthenticating)
    }

    /** The signed URL sent for an endpoint and its queries under version 1.2. */
    function RequestURL(endpoint: string, queries: seq<string>): string
      reads this
    {
      SignedURL(md5, gameKey, CanonicalRequest(V1_2BaseURL, endpoint, gameID, queries))
    }

    constructor (gameID: string, gameKey: string, version: APIVersion, md5: Md5, decodeTrophy: JsonObject -> TrophyData)
      ensures Valid()
      ensures this.gameID == gameID && this.gameKey == gameKey && this.version == version
      ensures this.md5 == md5 && this.decodeTrophy == decodeTrophy
      ensures Session() == ("", "", false, false)
      ensures requests == [] && inFlight == map[] && notifications == []
    {
      this.gameID := gameID;
      this.gameKey := gameKey;
      this.version := version;
      this.md5 := md5;
      this.decodeTrophy := decodeTrophy;
      userName, userToken := "", "";
      isAuthenticated, isAuthenticating := false, false;
      requests, inFlight, notifications := [], map[], [];
      authSent := false;
    }

    /** `RequireAuthenticated`: raises `APIError(message)` exactly when not authenticated. */
    function RequireAuthenticated(message: string): (r: Result<(), Error>)
      reads this
      ensures r.Err? <==> !isAuthenticated
      ensures r.Err? ==> r.error == APIError(message)
    {
      if !isAuthenticated then Err(APIError(message)) else Ok(())
    }

    /**
     * `APIRequest` up to its `await`: an unsupported version raises before anything is
     * built or sent; otherwise the signed URL is sent and `pending` awaits the reply.
     */
    method APIRequest(endpoint: string, queries: seq<string>, pending: Pending) returns (r: Result<nat, Error>)
      requires Valid()
      requires pending.AuthPending? ==>
        isAuthenticating && !authSent && endpoint == "users/auth/" && queries == AuthQueries(pending.name, pending.token)
      modifies this`requests, this`inFlight, this`authSent
      ensures Valid()
      ensures old(Wedged()) ==> Wedged()
      ensures authSent == (old(authSent) || (pending.AuthPending? && version == V1_2))
      ensures version != V1_2 ==> r == Err(APIError(UnsupportedVersion)) && requests == old(requests) && inFlight == old(inFlight)
      ensures version == V1_2 ==>
        && r == Ok(old(|requests|)) && old(|requests|) !in old(inFlight)
        && requests == old(requests) + [RequestURL(endpoint, queries)]
        && inFlight == old(inFlight)[old(|requests|) := pending]
    {
      var baseURL: string;
      match version {
        case V1_2 => baseURL := V1_2BaseURL;
        case OtherVersion(_) => return Err(APIError(UnsupportedVersion));
      }
      var request := BuildRequest(baseURL, endpoint, gameID, queries);
      var url := AddSignature(md5, gameKey, request);
      r := Ok(|requests|);
      requests := requests + [url];
      inFlight := inFlight[|requests| - 1 := pending];
      if pending.AuthPending? {
        authSent := true;
      }
    }

    /**
     * `User.Authenticate` up to its `await`. Refused with `APIError` and no change while
     * authenticated (unless forced) or authenticating. Otherwise the session is marked
     * authenticating; if `APIRequest` raises (unsupported version) the handler clears
     * the credentials and both flags before the error propagates.
     */
    method Authenticate(name: string, token: string, forced: bool) returns (r: Result<nat, Error>)
      requires Valid()
      modifies this`userName, this`userToken, this`isAuthenticated, this`isAuthenticating, this`requests, this`inFlight, this`notifications, this`authSent
      ensures Valid()
      ensures old(Wedged()) ==> Wedged()
      ensures old((isAuthenticated && !forced) || isAuthenticating) ==>
        r == Err(APIError(AlreadyAuthenticating)) && unchanged(this)
      ensures !old((isAuthenticated && !forced) || isAuthenticating) && version != V1_2 ==>
        && r == Err(APIError(UnsupportedVersion))
        && userName == "" && userToken == "" && !isAuthenticated && !isAuthenticating
        && requests == old(requests) && inFlight == old(inFlight) && notifications == old(notifications)
      ensures !old((isAuthenticated && !forced) || isAuthenticating) && version == V1_2 ==>
        && r == Ok(old(|requests|))
        && isAuthenticating
        && userName == old(userName) && userToken == old(userToken) && isAuthenticated == old(isAuthenticated)
        && requests == old(requests) + [RequestURL("users/auth/", AuthQueries(name, token))]
        && inFlight == old(inFlight)[old(|requests|) := AuthPending(name, token)]
        && notifications == old(notifications)
    {
      if (isAuthenticated && !forced) || isAuthenticating {
        return Err(APIError(AlreadyAuthenticating));
      }
      isAuthenticating := true;
      r := APIRequest("users/auth/", AuthQueries(name, token), AuthPending(name, token));
      if r.Err? {
        userName, userToken := "", "";
        isAuthenticated := false;
        isAuthenticating := false;
        authSent := false;
      }
    }

    /**
     * `User.Authenticate` after its `await`. A reply that passes the envelope check
     * stores the credentials, authenticates the session and raises `OnAuthenticated`
     * once. A failed reply clears the credentials and both flags and re-raises its
     * `APIError`, with no event. Any other exception passes the handler by: the
     * session is left as it was, still authenticating.
     */
    method CompleteAuthenticate(ticket: nat, reply: Reply) returns (r: Result<(), Error>)
      requires Valid() && ticket in inFlight && inFlight[ticket].AuthPending?
      modifies this`userName, this`userToken, this`isAuthenticated, this`isAuthenticating, this`inFlight, this`notifications, this`authSent
      ensures Valid()
      ensures authSent == isAuthenticating
      ensures inFlight == old(inFlight) - {ticket}
      ensures reply.Received? && !Failed(reply.response) ==>
        && r == Ok(())
        && userName == old(inFlight[ticket].name) && userToken == old(inFlight[ticket].token)
        && isAuthenticated && !isAuthenticating
        && notifications == old(notifications) + [OnAuthenticated]
      ensures reply.Received? && Failed(reply.response) ==>
        && r == Err(APIError(Message(reply.response)))
        && userName == "" && userToken == "" && !isAuthenticated && !isAuthenticating
        && notifications == old(notifications)
      ensures reply.Faulted? ==>
        r == Err(TransportFault) && Session() == old(Session()) && notifications == old(notifications)
    {
      var pending := inFlight[ticket];
      inFlight := inFlight - {ticket};
      match reply
      case Faulted =>
        r := Err(TransportFault);
      case Received(response) =>
        match Gate(response) {
          case Ok(_) =>
            userName := pending.name;
            userToken := pending.token;
            isAuthenticated := true;
            isAuthenticating := false;
            authSent := false;
            notifications := notifications + [OnAuthenticated];
            r := Ok(());
          case Err(e) =>
            userName, userToken := "", "";
            isAuthenticated := false;
            isAuthenticating := false;
            authSent := false;
            r := Err(e);
        }
    }

    /** `User.Fetch` for a list: not gated; one query, `user_id` or `username`, with the comma-joined list. */
    method FetchUsers(users: seq<string>, byId: bool) returns (r: Result<nat, Error>)
      requires Valid()
      modifies this`requests, this`inFlight, this`authSent
      ensures Valid()
      ensures old(Wedged()) ==> Wedged()
      ensures authSent == old(authSent)
      ensures version != V1_2 ==> r == Err(APIError(UnsupportedVersion)) && requests == old(requests) && inFlight == old(inFlight)
      ensures version == V1_2 ==>
        && r == Ok(old(|requests|))
        && requests == old(requests) + [RequestURL("users/", UserQueries(users, byId))]
        && inFlight == old(inFlight)[old(|requests|) := FetchUsersPending]
    {
      var queries: seq<string> := [];
      if byId {
        queries := queries + [Query("user_id", Text.Join(users, ','))];
      } else {
        queries := queries + [Query("username", Text.Join(users, ','))];
      }
      assert queries == UserQueries(users, byId);
      r := APIRequest("users/", queries, FetchUsersPending);
    }

    /** `User.Fetch` for one user: the list fetch of the one-element list. */
    method FetchUser(user: string, byId: bool) returns (r: Result<nat, Error>)
      requires Valid()
      modifies this`requests, this`inFlight, this`authSent
      ensures Valid()
      ensures old(Wedged()) ==> Wedged()
      ensures authSent == old(authSent)
      ensures version != V1_2 ==> r == Err(APIError(UnsupportedVersion)) && requests == old(requests) && inFlight == old(inFlight)
      ensures version == V1_2 ==>
        && r == Ok(old(|requests|))
        && requests == old(requests) + [RequestURL("users/", [Query(if byId then "user_id" else "username", user)])]
        && inFlight == old(inFlight)[old(|requests|) := FetchUsersPending]
    {
      r := FetchUsers([user], byId);
    }

    /** `User.Fetch` after its `await`: one record per element of `users`, in order, or none when it is null. */
    method CompleteFetchUsers(ticket: nat, reply: Reply) returns (r: Result<seq<UserData>, Error>)
      requires Valid() && ticket in inFlight && inFlight[ticket].FetchUsersPending?
      modifies this`inFlight
      ensures Valid()
      ensures old(Wedged()) ==> Wedged()
      ensures inFlight == old(inFlight) - {ticket}
      ensures reply.Faulted? ==> r == Err(TransportFault)
      ensures reply.Received? && Failed(reply.response) ==> r == Err(APIError(Message(reply.response)))
      ensures reply.Received? && !Failed(reply.response) ==> r.Ok? && var found := ArrayAt(reply.response, "users");
        && (found.None? ==> r.value == [])
        && (found.Some? ==>
              && |r.value| == |found.value|
              && forall i :: 0 <= i < |found.value| ==> r.value[i] == UserData(found.value[i]))
    {
      inFlight := inFlight - {ticket};
      match reply
      case Faulted =>
        r := Err(TransportFault);
      case Received(response) =>
        match Gate(response) {
          case Err(e) => r := Err(e);
          case Ok(node) =>
            var userDatas := DecodeArray(ArrayAt(node, "users"), (json: JsonObject) => UserData(json));
            r := Ok(userDatas);
        }
    }

    /** Single-user `User.Fetch` after its `await`: element 0 of the list, which raises when the list is empty. */
    method CompleteFetchUser(ticket: nat, reply: Reply) returns (r: Result<UserData, Error>)
      requires Valid() && ticket in inFlight && inFlight[ticket].FetchUsersPending?
      modifies this`inFlight
      ensures Valid()
      ensures old(Wedged()) ==> Wedged()
      ensures inFlight == old(inFlight) - {ticket}
      ensures reply.Faulted? ==> r == Err(TransportFault)
      ensures reply.Received? && Failed(reply.response) ==> r == Err(APIError(Message(reply.response)))
      ensures reply.Received? && !Failed(reply.response) ==> var found := ArrayAt(reply.response, "users");
        && (found.Some? && |found.value| > 0 ==> r == Ok(UserData(found.value[0])))
        && (found.None? || |found.value| == 0 ==> r == Err(ArgumentOutOfRange))
    {
      var list := CompleteFetchUsers(ticket, reply);
      match list
      case Err(e) => r := Err(e);
      case Ok(userDatas) =>
        if |userDatas| == 0 {
          r := Err(ArgumentOutOfRange);
        } else {
          r := Ok(userDatas[0]);
        }
    }

    /** `Trophy.Grant` up to its `await`: raises before any request unless authenticated. */
    method GrantTrophy(id: int32) returns (r: Result<nat, Error>)
      requires Valid()
      modifies this`requests, this`inFlight, this`authSent
      ensures Valid()
      ensures old(Wedged()) ==> Wedged()
      ensures authSent == old(authSent)
      ensures !old(isAuthenticated) ==> r == Err(APIError(GrantRefused)) && unchanged(this)
      ensures old(isAuthenticated) && version != V1_2 ==>
        r == Err(APIError(UnsupportedVersion)) && requests == old(requests) && inFlight == old(inFlight)
      ensures old(isAuthenticated) && version == V1_2 ==>
        && r == Ok(old(|requests|))
        && requests == old(requests) + [RequestURL("trophies/add-achieved/", TrophyQueries(userName, userToken, id))]
        && inFlight == old(inFlight)[old(|requests|) := TrophyChangePending(id, Grant)]
    {
      var check := RequireAuthenticated(GrantRefused);
      if check.Err? {
        return Err(check.error);
      }
      r := APIRequest("trophies/add-achieved/", TrophyQueries(userName, userToken, id), TrophyChangePending(id, Grant));
    }

    /** `Trophy.Revoke` up to its `await`: raises before any request unless authenticated. */
    method RevokeTrophy(id: int32) returns (r: Result<nat, Error>)
      requires Valid()
      modifies this`requests, this`inFlight, this`authSent
      ensures Valid()
      ensures old(Wedged()) ==> Wedged()
      ensures authSent == old(authSent)
      ensures !old(isAuthenticated) ==> r == Err(APIError(RevokeRefused)) && unchanged(this)
      ensures old(isAuthenticated) && version != V1_2 ==>
        r == Err(APIError(UnsupportedVersion)) && requests == old(requests) && inFlight == old(inFlight)
      ensures old(isAuthenticated) && version == V1_2 ==>
        && r == Ok(old(|requests|))
        && requests == old(requests) + [RequestURL("trophies/remove-achieved/", TrophyQueries(userName, userToken, id))]
        && inFlight == old(inFlight)[old(|requests|) := TrophyChangePending(id, Revoke)]
    {
      var check := RequireAuthenticated(RevokeRefused);
      if check.Err? {
        return Err(check.error);
      }
      r := APIRequest("trophies/remove-achieved/", TrophyQueries(userName, userToken, id), TrophyChangePending(id, Revoke));
    }

    /** Grant and revoke after their `await`: `OnTrophy` is raised once, and only when the reply passed. */
    method CompleteTrophyChange(ticket: nat, reply: Reply) returns (r: Result<(), Error>)
      requires Valid() && ticket in inFlight && inFlight[ticket].TrophyChangePending?
      modifies this`inFlight, this`notifications
      ensures Valid()
      ensures old(Wedged()) ==> Wedged()
      ensures inFlight == old(inFlight) - {ticket}
      ensures reply.Faulted? ==> r == Err(TransportFault)
      ensures reply.Received? && Failed(reply.response) ==> r == Err(APIError(Message(reply.response)))
      ensures reply.Received? && !Failed(reply.response) ==> r == Ok(())
      ensures notifications == old(notifications)
        + (if r.Ok? then [OnTrophy(old(inFlight[ticket].kind), old(inFlight[ticket].id))] else [])
    {
      var pending := inFlight[ticket];
      inFlight := inFlight - {ticket};
      match reply
      case Faulted =>
        r := Err(TransportFault);
      case Received(response) =>
        match Gate(response) {
          case Err(e) => r := Err(e);
          case Ok(_) =>
            notifications := notifications + [OnTrophy(pending.kind, pending.id)];
            r := Ok(());
        }
    }

    /** `Trophy.Fetch` up to its `await`: raises before any request unless authenticated. */
    method FetchTrophy(id: int32) returns (r: Result<nat, Error>)
      requires Valid()
      modifies this`requests, this`inFlight, this`authSent
      ensures Valid()
      ensures old(Wedged()) ==> Wedged()
      ensures authSent == old(authSent)
      ensures !old(isAuthenticated) ==> r == Err(APIError(FetchRefused)) && unchanged(this)
      ensures old(isAuthenticated) && version != V1_2 ==>
        r == Err(APIError(UnsupportedVersion)) && requests == old(requests) && inFlight == old(inFlight)
      ensures old(isAuthenticated) && version == V1_2 ==>
        && r == Ok(old(|requests|))
        && requests == old(requests) + [RequestURL("trophies/", TrophyQueries(userName, userToken, id))]
        && inFlight == old(inFlight)[old(|requests|) := FetchTrophyPending]
    {
      var check := RequireAuthenticated(FetchRefused);
      if check.Err? {
        return Err(check.error);
      }
      r := APIRequest("trophies/", TrophyQueries(userName, userToken, id), FetchTrophyPending);
    }

    /** `Trophy.Fetch` after its `await`: the first element of `trophies`; indexing a null array raises. */
    method CompleteFetchTrophy(ticket: nat, reply: Reply) returns (r: Result<TrophyData, Error>)
      requires Valid() && ticket in inFlight && inFlight[ticket].FetchTrophyPending?
      modifies this`inFlight
      ensures Valid()
      ensures old(Wedged()) ==> Wedged()
      ensures inFlight == old(inFlight) - {ticket}
      ensures reply.Faulted? ==> r == Err(TransportFault)
      ensures reply.Received? && Failed(reply.response) ==> r == Err(APIError(Message(reply.response)))
      ensures reply.Received? && !Failed(reply.response) ==> var first := FirstElement(ArrayAt(reply.response, "trophies"));
        && (first.Err? ==> r == Err(NullReference))
        && (first.Ok? ==> r == Ok(decodeTrophy(first.value)))
    {
      inFlight := inFlight - {ticket};
      match reply
      case Faulted =>
        r := Err(TransportFault);
      case Received(response) =>
        match Gate(response) {
          case Err(e) => r := Err(e);
          case Ok(node) =>
            match FirstElement(ArrayAt(node, "trophies")) {
              case Err(e) => r := Err(e);
              case Ok(element) => r := Ok(decodeTrophy(element));
            }
        }
    }

    /** `Trophy.List` up to its `await`: gated; the `achieved` filter is added only when not listing all. */
    method ListTrophies(all: bool, achieved: bool) returns (r: Result<nat, Error>)
      requires Valid()
      modifies this`requests, this`inFlight, this`authSent
      ensures Valid()
      ensures old(Wedged()) ==> Wedged()
      ensures authSent == old(authSent)
      ensures !old(isAuthenticated) ==> r == Err(APIError(ListRefused)) && unchanged(this)
      ensures old(isAuthenticated) && version != V1_2 ==>
        r == Err(APIError(UnsupportedVersion)) && requests == old(requests) && inFlight == old(inFlight)
      ensures old(isAuthenticated) && version == V1_2 ==>
        && r == Ok(old(|requests|))
        && requests == old(requests) + [RequestURL("trophies/", ListQueries(userName, userToken, all, achieved))]
        && inFlight == old(inFlight)[old(|requests|) := ListTrophiesPending]
    {
      var check := RequireAuthenticated(ListRefused);
      if check.Err? {
        return Err(check.error);
      }
      var queries := [Query("username", userName), Query("user_token", userToken)];
      if !all {
        queries := queries + [Query("achieved", BoolText(achieved))];
      }
      assert queries == ListQueries(userName, userToken, all, achieved);
      r := APIRequest("trophies/", queries, ListTrophiesPending);
    }

    /** `Trophy.List` after its `await`: one record per element of `trophies`, in order, or none when it is null. */
    method CompleteListTrophies(ticket: nat, reply: Reply) returns (r: Result<seq<TrophyData>, Error>)
      requires Valid() && ticket in inFlight && inFlight[ticket].ListTrophiesPending?
      modifies this`inFlight
      ensures Valid()
      ensures old(Wedged()) ==> Wedged()
      ensures inFlight == old(inFlight) - {ticket}
      ensures reply.Faulted? ==> r == Err(TransportFault)
      ensures reply.Received? && Failed(reply.response) ==> r == Err(APIError(Message(reply.response)))
      ensures reply.Received? && !Failed(reply.response) ==> r.Ok? && var found := ArrayAt(reply.response, "trophies");
        && (found.None? ==> r.value == [])
        && (found.Some? ==>
              && |r.value| == |found.value|
              && forall i :: 0 <= i < |found.value| ==> r.value[i] == decodeTrophy(found.value[i]))
    {
      inFlight := inFlight - {ticket};
      match reply
      case Faulted =>
        r := Err(TransportFault);
      case Received(response) =>
        match Gate(response) {
          case Err(e) => r := Err(e);
          case Ok(node) =>
            var trophyDatas := DecodeArray(ArrayAt(node, "trophies"), decodeTrophy);
            r := Ok(trophyDatas);
        }
    }

    /** `GetServerTime` up to its `await`: not gated, sent with no queries. */
    method GetServerTime() returns (r: Result<nat, Error>)
      requires Valid()
      modifies this`requests, this`inFlight, this`authSent
      ensures Valid()
      ensures old(Wedged()) ==> Wedged()
      ensures authSent == old(authSent)
      ensures version != V1_2 ==> r == Err(APIError(UnsupportedVersion)) && requests == old(requests) && inFlight == old(inFlight)
      ensures version == V1_2 ==>
        && r == Ok(old(|requests|))
        && requests == old(requests) + [RequestURL("time/", [])]
        && inFlight == old(inFlight)[old(|requests|) := ServerTimePending]
    {
      r := APIRequest("time/", [], ServerTimePending);
    }

    /** `GetServerTime` after its `await`: the response node that carries `timestamp`. */
    method CompleteServerTime(ticket: nat, reply: Reply) returns (r: Result<Node, Error>)
      requires Valid() && ticket in inFlight && inFlight[ticket].ServerTimePending?
      modifies this`inFlight
      ensures Valid()
      ensures old(Wedged()) ==> Wedged()
      ensures inFlight == old(inFlight) - {ticket}
      ensures reply.Faulted? ==> r == Err(TransportFault)
      ensures reply.Received? ==> r == Gate(reply.response)
    {
      inFlight := inFlight - {ticket};
      match reply
      case Faulted => r := Err(TransportFault);
      case Received(response) => r := Gate(response);
    }
  }

  /**
   * A second authentication while the first is awaited raises at once without a
   * request; if the first then fails with an exception other than `APIError`, the
   * session is `Wedged()`, and a forced attempt raises too. Every operation keeps
   * `Wedged()`, and `CompleteAuthenticate` needs an awaited authentication, which a
   * wedged session has none of: the session stays authenticating for good.
   */
  method AuthenticationWedgesOnTransportFault(client: GameJolt, name: string, token: string)
    requires client.Valid() && !client.isAuthenticated && !client.isAuthenticating
    requires client.version == V1_2
    modifies client
    ensures client.Valid() && client.Wedged()
    ensures client.isAuthenticating && !client.isAuthenticated
    ensures |client.requests| == old(|client.requests|) + 1
  {
    var first := client.Authenticate(name, token, false);
    assert first.Ok?;
    var second := client.Authenticate(name, token, false);
    assert second == Err(APIError(AlreadyAuthenticating));
    var outcome := client.CompleteAuthenticate(first.value, Faulted);
    assert outcome == Err(TransportFault);
    var third := client.Authenticate(name, token, true);
    assert third == Err(APIError(AlreadyAuthenticating));
  }
}
