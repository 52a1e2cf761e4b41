/**
 * The query lists each operation sends, and what a receiver reads from them.
 * A query is one `key=value` string; the key is the text before the first `=`.
 */
module Requests {
  import opened Wrappers
  import opened Text
  import opened Classes

  function Query(key: string, value: string): string
  {
    key + "=" + value
  }

  /** The key of a query: its text before the first `=`. */
  function KeyOf(q: string): string
  {
    if q == [] || q[0] == '=' then "" else [q[0]] + KeyOf(q[1..])
  }

  /** The value of a query: its text after the first `=`. */
  function ValueOf(q: string): string
  {
    if q == [] then "" else if q[0] == '=' then q[1..] else ValueOf(q[1..])
  }

  /** A key without `=` and any value are read back from the query built from them. */
  lemma {:induction false} QueryParts(key: string, value: string)
    requires '=' !in key
    ensures KeyOf(Query(key, value)) == key && ValueOf(Query(key, value)) == value
  {
    if key != [] {
      assert Query(key, value)[1..] == Query(key[1..], value);
      QueryParts(key[1..], value);
    } else {
      assert Query(key, value) == "=" + value;
    }
  }

  /** The value of the first query with the given key. */
  function Lookup(queries: seq<string>, key: string): Option<string>
  {
    if queries == [] then None
    else if KeyOf(queries[0]) == key then Some(ValueOf(queries[0]))
    else Lookup(queries[1..], key)
  }

  /** How many queries carry the given key. */
  function Occurrences(queries: seq<string>, key: string): nat
  {
    if queries == [] then 0
    else (if KeyOf(queries[0]) == key then 1 else 0) + Occurrences(queries[1..], key)
  }

  function BoolText(b: bool): string
  {
    if b then "true" else "false"
  }

  /** The credentials every trophy request starts with: the name, then its token. */
  function CredentialQueries(userName: string, userToken: string): seq<string>
  {
    [Query("username", userName), Query("user_token", userToken)]
  }

  /** `users/auth/`: the name to authenticate and its token, laid out as the credentials. */
  function AuthQueries(name: string, token: string): seq<string>
  {
    CredentialQueries(name, token)
  }

  /** Grant, revoke and single fetch: the credentials and the trophy id. */
  function TrophyQueries(userName: string, userToken: string, id: int32): seq<string>
  {
    CredentialQueries(userName, userToken) + [Query("trophy_id", IntToDecimal(id))]
  }

  /** The trophy list: the credentials, and the `achieved` filter only when not listing all. */
  function ListQueries(userName: string, userToken: string, all: bool, achieved: bool): seq<string>
  {
    CredentialQueries(userName, userToken) + (if all then [] else [Query("achieved", BoolText(achieved))])
  }

  /** `users/`: one query, by id or by name, holding the comma-joined list. */
  function UserQueries(users: seq<string>, byId: bool): seq<string>
  {
    [Query(if byId then "user_id" else "username", Join(users, ','))]
  }

  lemma CredentialKeys(userName: string, userToken: string)
    ensures KeyOf(Query("username", userName)) == "username" && ValueOf(Query("username", userName)) == userName
    ensures KeyOf(Query("user_token", userToken)) == "user_token" && ValueOf(Query("user_token", userToken)) == userToken
  {
    QueryParts("username", userName);
    QueryParts("user_token", userToken);
  }

  /** The authentication request names the user and carries the token, once each. */
  lemma AuthQueriesRead(name: string, token: string)
    ensures Lookup(AuthQueries(name, token), "username") == Some(name)
    ensures Lookup(AuthQueries(name, token), "user_token") == Some(token)
    ensures Occurrences(AuthQueries(name, token), "username") == 1
    ensures Occurrences(AuthQueries(name, token), "user_token") == 1
  {
    CredentialKeys(name, token);
    var q := AuthQueries(name, token);
    assert q[1..] == [q[1]] && q[1..][1..] == [];
    assert Occurrences(q[1..], "username") == 0;
    assert Occurrences(q[1..], "user_token") == 1;
  }

  /** A trophy request carries the credentials and an id that reads back as the same number. */
  lemma TrophyQueriesRead(userName: string, userToken: string, id: int32)
    ensures Lookup(TrophyQueries(userName, userToken, id), "username") == Some(userName)
    ensures Lookup(TrophyQueries(userName, userToken, id), "user_token") == Some(userToken)
    ensures exists v :: Lookup(TrophyQueries(userName, userToken, id), "trophy_id") == Some(v) && ParseDecimal(v) == Some(id as int)
  {
    CredentialKeys(userName, userToken);
    QueryParts("trophy_id", IntToDecimal(id));
    IntDecimalRoundTrip(id);
    var q := TrophyQueries(userName, userToken, id);
    var idQuery := Query("trophy_id", IntToDecimal(id));
    assert q[1..] == [q[1], idQuery] && q[1..][1..] == [idQuery];
    assert Lookup([idQuery], "trophy_id") == Some(IntToDecimal(id));
    assert Lookup(q[1..], "trophy_id") == Some(IntToDecimal(id));
    assert Lookup(q, "trophy_id") == Some(IntToDecimal(id));
  }

  /**
   * The list request carries the credentials and exactly one `achieved` filter
   * with the requested value when not listing all, and none when listing all.
   */
  lemma ListQueriesRead(userName: string, userToken: string, all: bool, achieved: bool)
    ensures Lookup(ListQueries(userName, userToken, all, achieved), "username") == Some(userName)
    ensures Lookup(ListQueries(userName, userToken, all, achieved), "user_token") == Some(userToken)
    ensures Occurrences(ListQueries(userName, userToken, all, achieved), "achieved") == if all then 0 else 1
    ensures Lookup(ListQueries(userName, userToken, all, achieved), "achieved")
      == if all then None else Some(BoolText(achieved))
  {
    CredentialKeys(userName, userToken);
    QueryParts("achieved", BoolText(achieved));
    var q := ListQueries(userName, userToken, all, achieved);
    assert q[1..][0] == q[1];
    if all {
      assert q[1..][1..] == [];
      assert Occurrences(q[1..], "achieved") == 0;
      assert Lookup(q[1..], "achieved") == None;
    } else {
      var filter := Query("achieved", BoolText(achieved));
      assert q[1..][1..] == [filter];
      assert [filter][1..] == [];
      assert Occurrences([filter], "achieved") == 1;
      assert Occurrences(q[1..], "achieved") == 1;
      assert Lookup(q[1..], "achieved") == Some(BoolText(achieved));
    }
  }

  /** The user request is one query, under `user_id` or `username`, whichever was asked for. */
  lemma UserQueriesRead(users: seq<string>, byId: bool)
    ensures |UserQueries(users, byId)| == 1
    ensures Lookup(UserQueries(users, byId), if byId then "user_id" else "username") == Some(Join(users, ','))
    ensures Lookup(UserQueries(users, byId), if byId then "username" else "user_id") == None
  {
    QueryParts(if byId then "user_id" else "username", Join(users, ','));
  }

  /** Splitting the user query's value at commas gives back the users when none holds a comma. */
  lemma UserQueriesSplitBack(users: seq<string>, byId: bool)
    requires |users| >= 1
    requires forall i :: 0 <= i < |users| ==> ',' !in users[i]
    ensures Split(ValueOf(UserQueries(users, byId)[0]), ',') == users
  {
    QueryParts(if byId then "user_id" else "username", Join(users, ','));
    SplitJoin(users, ',');
  }

  /** What each issued request is waiting for: the continuation that runs when it completes. */
  datatype Pending =
    | AuthPending(name: string, token: string)
    | TrophyChangePending(id: int32, kind: TrophyEventType)
    | FetchTrophyPending
    | ListTrophiesPending
    | FetchUsersPending
    | ServerTimePending
}
