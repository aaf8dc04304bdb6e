/** `ApiService` (src/services/api.ts): the session kept in `localStorage`, the
    request interceptor that attaches the bearer token, the response interceptor
    that refreshes the token once on a 401, the `results || data` unwrapping of
    the list endpoints, and the multipart bodies of the upload endpoints.
    The transport is abstract: each call's answer is a parameter. */
module Api {
  import opened Wrappers
  import Js
  import Json
  import Storage
  import FormData
  import opened Types

  const AccessKey := "access_token"
  const RefreshKey := "refresh_token"
  const UserKey := "user"

  /** `JSON.stringify(user)`, members in the order of the object literal `login` builds. */
  function StringifyUser(u: User): string {
    "{\"id\":" + (Js.IntToString(u.id) +
    (",\"username\":" + (Json.Quote(u.username) +
    (",\"email\":" + (Json.Quote(u.email) +
    (",\"first_name\":" + (Json.Quote(u.first_name) +
    (",\"last_name\":" + (Json.Quote(u.last_name) + "}")))))))))
  }

  /** `"key":"text"` at the start of `t`: the text and what follows. */
  function StringMember(t: string, key: string): Option<(string, string)> {
    match Json.Expect(t, key)
    case None => None
    case Some(r) => Json.ParseString(r)
  }

  /** `JSON.parse` of a stored user record, for text of the shape `StringifyUser` writes;
      anything else is `None`. */
  function ParseUser(t: string): Option<User> {
    match Json.Expect(t, "{\"id\":")
    case None => None
    case Some(t1) =>
      match Json.ParseInt(t1)
      case None => None
      case Some((id, t2)) =>
        match StringMember(t2, ",\"username\":")
        case None => None
        case Some((username, t3)) =>
          match StringMember(t3, ",\"email\":")
          case None => None
          case Some((email, t4)) =>
            match StringMember(t4, ",\"first_name\":")
            case None => None
            case Some((first, t5)) =>
              match StringMember(t5, ",\"last_name\":")
              case None => None
              case Some((last, t6)) =>
                if t6 == "}" then Some(User(id, username, email, first, last)) else None
  }

  lemma StringMemberRoundTrip(key: string, s: string, rest: string)
    ensures StringMember(key + (Json.Quote(s) + rest), key) == Some((s, rest))
  {
    Json.ExpectLiteral(key, Json.Quote(s) + rest);
    Json.QuoteRoundTrip(s, rest);
  }

  /** What `login` writes under `user` reads back as the same record: `JSON.parse(JSON.stringify(u))`. */
  lemma UserRoundTrip(u: User)
    ensures ParseUser(StringifyUser(u)) == Some(u)
  {
    var t5 := ",\"last_name\":" + (Json.Quote(u.last_name) + "}");
    var t4 := ",\"first_name\":" + (Json.Quote(u.first_name) + t5);
    var t3 := ",\"email\":" + (Json.Quote(u.email) + t4);
    var t2 := ",\"username\":" + (Json.Quote(u.username) + t3);
    var t1 := Js.IntToString(u.id) + t2;
    assert StringifyUser(u) == "{\"id\":" + t1;
    Json.ExpectLiteral("{\"id\":", t1);
    Json.IntRoundTrip(u.id, t2);
    StringMemberRoundTrip(",\"username\":", u.username, t3);
    StringMemberRoundTrip(",\"email\":", u.email, t4);
    StringMemberRoundTrip(",\"first_name\":", u.first_name, t5);
    StringMemberRoundTrip(",\"last_name\":", u.last_name, "}");
  }

  /** The record `login` builds from the credentials. */
  function SessionUser(username: string): User {
    User(1, username, "", "", "")
  }

  /** What the login endpoint answers: whatever it sent as `access` and `refresh`. */
  datatype LoginReply = LoginReply(access: Option<string>, refresh: Option<string>)

  /** The storage `login` leaves behind, from the storage before it. */
  function LoggedIn(items: map<string, string>, username: string, reply: LoginReply): map<string, string> {
    items[AccessKey := Storage.Coerce(reply.access)]
         [RefreshKey := Storage.Coerce(reply.refresh)]
         [UserKey := StringifyUser(SessionUser(username))]
  }

  /** The storage `logout` leaves behind. */
  function LoggedOut(items: map<string, string>): map<string, string> {
    items - {AccessKey, RefreshKey, UserKey}
  }

  /** `getCurrentUser()` on the given storage: `null` (here `Ok(None)`) when nothing or an
      empty string is stored, the parsed record otherwise. */
  function CurrentUser(items: map<string, string>): Result<Option<User>> {
    if UserKey !in items || items[UserKey] == "" then Ok(None)
    else
      match ParseUser(items[UserKey])
      case Some(u) => Ok(Some(u))
      case None => Err("stored user is not a user record")
  }

  /** `isAuthenticated()` on the given storage: `!!getItem('access_token')`. */
  predicate Authenticated(items: map<string, string>) {
    AccessKey in items && items[AccessKey] != ""
  }

  /** `Authorization` carries the stored token exactly when a non-empty one is stored. */
  function BearerFor(items: map<string, string>): (h: Option<string>)
    ensures h.Some? <==> Authenticated(items)
    ensures h.Some? ==> h.value == "Bearer " + items[AccessKey]
  {
    if AccessKey in items && items[AccessKey] != "" then Some("Bearer " + items[AccessKey]) else None
  }

  /** After `login`: the tokens are stored under their keys, the user record reads back as
      id 1 with the credentials' username and empty e-mail and names, and no other key moved. */
  lemma LoginStores(items: map<string, string>, username: string, reply: LoginReply)
    ensures var m := LoggedIn(items, username, reply);
      m[AccessKey] == Storage.Coerce(reply.access) && m[RefreshKey] == Storage.Coerce(reply.refresh)
      && CurrentUser(m) == Ok(Some(User(1, username, "", "", "")))
      && (forall k :: k in items && k != AccessKey && k != RefreshKey && k != UserKey ==> k in m && m[k] == items[k])
  {
    var m := LoggedIn(items, username, reply);
    StoredUserReadsBack(m, SessionUser(username));
  }

  lemma StoredUserReadsBack(m: map<string, string>, u: User)
    requires UserKey in m && m[UserKey] == StringifyUser(u)
    ensures CurrentUser(m) == Ok(Some(u))
  {
    UserRoundTrip(u);
    assert StringifyUser(u)[0] == '{';
  }

  /** After `login` the session counts as authenticated unless the server sent an empty access token. */
  lemma AuthenticatedAfterLogin(items: map<string, string>, username: string, reply: LoginReply)
    ensures Authenticated(LoggedIn(items, username, reply)) <==> reply.access != Some("")
  {
    var m := LoggedIn(items, username, reply);
    assert m[AccessKey] == Storage.Coerce(reply.access);
    if reply.access.None? {
      assert Storage.Coerce(reply.access) == "undefined";
    }
  }

  /** After `logout` the three session keys are gone, nothing else changed, there is no
      current user and no session; a second logout changes nothing. */
  lemma LogoutClears(items: map<string, string>)
    ensures var m := LoggedOut(items);
      AccessKey !in m && RefreshKey !in m && UserKey !in m
      && (forall k :: k in items && k != AccessKey && k != RefreshKey && k != UserKey ==> k in m && m[k] == items[k])
      && (forall k :: k in m ==> k in items)
      && !Authenticated(m) && CurrentUser(m) == Ok(None)
      && LoggedOut(m) == m
  {
  }

  /** The failure the response interceptor sees: the HTTP status, or `None` when no response came. */
  type Status = Option<int>

  predicate IsSuccess(status: Status) {
    status.Some? && 200 <= status.value < 300
  }

  /** What the response interceptor does with a failed response. */
  datatype ErrorStep =
    | Reject            // pass the error on unchanged
    | RefreshAndRetry   // a refresh token is stored: ask for a new access token
  /** The interceptor's first decision: only a 401 on a request not yet retried, with a
      non-empty refresh token stored, leads to a refresh. */
  function OnError(status: Status, retried: bool, refreshToken: Option<string>): (step: ErrorStep)
    ensures step == RefreshAndRetry <==>
      status == Some(401) && !retried && refreshToken.Some? && refreshToken.value != ""
  {
    if status == Some(401) && !retried then
      match refreshToken
      case Some(t) => if t != "" then RefreshAndRetry else Reject
      case None => Reject
    else Reject
  }

  /** axios's message for a rejected call: the status when a response came, otherwise a network error. */
  function FailureMessage(error: Status): (m: string)
    ensures error.None? <==> m == "Network Error"
  {
    match error
    case Some(code) => "Request failed with status code " + Js.IntToString(code)
    case None => "Network Error"
  }

  /** A request as the network sees it, for the trace of one `api` call. */
  datatype Call =
    | Request(authorization: Option<string>)   // the original request or its retry
    | Refresh(token: string)                   // `POST /auth/token/refresh/`

  datatype Outcome = Fulfilled(status: int) | Rejected(error: Status)

  function RequestCount(trace: seq<Call>): nat {
    if |trace| == 0 then 0 else (if trace[0].Request? then 1 else 0) + RequestCount(trace[1..])
  }

  lemma RequestCountCons(c: Call, t: seq<Call>)
    ensures RequestCount([c] + t) == (if c.Request? then 1 else 0) + RequestCount(t)
  {
    assert ([c] + t)[1..] == t;
  }

  /** axios's request config; the interceptors set `_retry` and the `Authorization` header on it. */
  class RequestConfig {
    var retry: bool
    var authorization: Option<string>

    constructor ()
      ensures !retry && authorization.None?
    {
      retry := false;
      authorization := None;
    }
  }

  class ApiService {
    const storage: Storage.LocalStorage

    constructor (storage: Storage.LocalStorage)
      ensures this.storage == storage
    {
      this.storage := storage;
    }

    /** `isAuthenticated()`. */
    function IsAuthenticated(): bool
      reads this, storage
    {
      Authenticated(storage.items)
    }

    /** `getCurrentUser()`. */
    function GetCurrentUser(): Result<Option<User>>
      reads this, storage
    {
      CurrentUser(storage.items)
    }

    /** `login(credentials)`: the `POST /auth/login/` goes through both interceptors like any
        other call (`answer`, `refreshed` and `trace` as for `Send`), so a 401 while a refresh
        token is stored refreshes or logs out before the login settles. Only a fulfilled call
        stores the session, from the body `reply`; a rejected one rejects with axios's message. */
    method Login(credentials: LoginCredentials, answer: nat -> Status, refreshed: Result<Option<string>>, reply: LoginReply)
      returns (r: Result<AuthResponse>, trace: seq<Call>)
      modifies storage
      ensures 1 <= RequestCount(trace) <= 2
      ensures trace[0] == Request(BearerFor(old(storage.items)))
      ensures r.Ok? ==> r.value == AuthResponse(reply.access, reply.refresh, SessionUser(credentials.username))
      ensures IsSuccess(answer(0)) ==> r.Ok? && storage.items == LoggedIn(old(storage.items), credentials.username, reply)
      ensures !IsSuccess(answer(0)) && OnError(answer(0), false, old(storage.GetItem(RefreshKey))) == Reject ==>
        |trace| == 1 && storage.items == old(storage.items) && r == Err(FailureMessage(answer(0)))
      ensures !IsSuccess(answer(0)) && OnError(answer(0), false, old(storage.GetItem(RefreshKey))) == RefreshAndRetry ==>
        |trace| >= 2 && trace[1] == Refresh(old(storage.GetItem(RefreshKey)).value)
        && (refreshed.Err? ==>
              |trace| == 2 && storage.items == LoggedOut(old(storage.items)) && r == Err(FailureMessage(answer(0))))
        && (refreshed.Ok? && IsSuccess(answer(1)) ==>
              r.Ok? && storage.items == LoggedIn(old(storage.items), credentials.username, reply))
        && (refreshed.Ok? && !IsSuccess(answer(1)) ==>
              storage.items == old(storage.items)[AccessKey := Storage.Coerce(refreshed.value)]
              && r == Err(FailureMessage(answer(1))))
    {
      var config := new RequestConfig();
      var outcome;
      outcome, trace := Send(config, answer, refreshed, 0);
      if outcome.Rejected? {
        return Err(FailureMessage(outcome.error)), trace;
      }
      var access, refresh := reply.access, reply.refresh;
      storage.SetItem(AccessKey, Storage.Coerce(access));
      storage.SetItem(RefreshKey, Storage.Coerce(refresh));
      var user := SessionUser(credentials.username);
      storage.SetItem(UserKey, StringifyUser(user));
      r := Ok(AuthResponse(access, refresh, user));
    }

    /** `logout()`. */
    method Logout()
      modifies storage
      ensures storage.items == LoggedOut(old(storage.items))
    {
      storage.RemoveItem(AccessKey);
      storage.RemoveItem(RefreshKey);
      storage.RemoveItem(UserKey);
    }

    /** The request interceptor: set `Authorization` when a non-empty token is stored, otherwise leave the header as it was. */
    method AttachToken(config: RequestConfig)
      modifies config
      ensures config.retry == old(config.retry)
      ensures config.authorization == if BearerFor(storage.items).Some? then BearerFor(storage.items) else old(config.authorization)
    {
      var token := storage.GetItem(AccessKey);
      if token.Some? && token.value != "" {
        config.authorization := Some("Bearer " + token.value);
      }
    }

    /** One `this.api(config)` call through both interceptors. `answer(n)` is the server's
        status for the n-th sending of this request, `refreshed` the refresh endpoint's new
        access token or its failure. The retried request goes through the interceptors again;
        being marked `_retry`, it can never refresh a second time. */
    method Send(config: RequestConfig, answer: nat -> Status, refreshed: Result<Option<string>>, attempt: nat)
      returns (outcome: Outcome, trace: seq<Call>)
      modifies config, storage
      decreases if config.retry then 0 else 1
      ensures 1 <= RequestCount(trace) <= 2 && |trace| <= 3
      ensures trace[0] == Request(if BearerFor(old(storage.items)).Some? then BearerFor(old(storage.items)) else old(config.authorization))
      ensures config.retry == (old(config.retry) || answer(attempt) == Some(401))
      ensures OnError(answer(attempt), old(config.retry), old(storage.GetItem(RefreshKey))) == Reject || IsSuccess(answer(attempt)) ==>
        trace == [trace[0]] && storage.items == old(storage.items)
        && outcome == (if IsSuccess(answer(attempt)) then Fulfilled(answer(attempt).value) else Rejected(answer(attempt)))
      ensures !IsSuccess(answer(attempt)) && OnError(answer(attempt), old(config.retry), old(storage.GetItem(RefreshKey))) == RefreshAndRetry ==>
        |trace| >= 2 && trace[1] == Refresh(old(storage.GetItem(RefreshKey)).value)
        && (refreshed.Err? ==> |trace| == 2 && storage.items == LoggedOut(old(storage.items)) && outcome == Rejected(answer(attempt)))
        && (refreshed.Ok? ==>
              |trace| == 3 && storage.items == old(storage.items)[AccessKey := Storage.Coerce(refreshed.value)]
              && RequestCount(trace) == 2
              && trace[2] == Request(if BearerFor(storage.items).Some? then BearerFor(storage.items) else trace[0].authorization)
              && outcome == (if IsSuccess(answer(attempt + 1)) then Fulfilled(answer(attempt + 1).value) else Rejected(answer(attempt + 1))))
    {
      ghost var before := storage.items;
      AttachToken(config);
      trace := [Request(config.authorization)];
      var status := answer(attempt);
      RequestCountCons(trace[0], []);
      assert [trace[0]] + [] == trace;
      if IsSuccess(status) {
        return Fulfilled(status.value), trace;
      }
      var refreshToken := storage.GetItem(RefreshKey);
      var step := OnError(status, config.retry, refreshToken);
      if status == Some(401) && !config.retry {
        config.retry := true;
      }
      if step == RefreshAndRetry {
        trace := trace + [Refresh(refreshToken.value)];
        match refreshed {
          case Ok(access) =>
            storage.SetItem(AccessKey, Storage.Coerce(access));
            var o, t := Send(config, answer, refreshed, attempt + 1);
            assert t == [t[0]];
            RequestCountCons(t[0], []);
            RequestCountCons(trace[1], t);
            RequestCountCons(trace[0], [trace[1]] + t);
            assert trace + t == [trace[0]] + ([trace[1]] + t);
            return o, trace + t;
          case Err(_) =>
            Logout();
        }
      }
      if |trace| == 2 {
        RequestCountCons(trace[1], []);
        assert trace[1..] == [trace[1]] + [];
      }
      RequestCountCons(trace[0], trace[1..]);
      assert trace == [trace[0]] + trace[1..];
      outcome := Rejected(status);
    }
  }

  /** `response.data.results || response.data` of the list getters; reading a member of
      `null` or `undefined` throws. */
  function ListPayload(data: Js.Value): (r: Result<Js.Value>)
    ensures Js.IsNullish(data) <==> r.Err?
    ensures r.Ok? && data.Obj? && "results" in data.fields && Js.Truthy(data.fields["results"]) ==> r.value == data.fields["results"]
    ensures r.Ok? && !(data.Obj? && "results" in data.fields && Js.Truthy(data.fields["results"])) ==> r.value == data
  {
    if Js.IsNullish(data) then Err("TypeError: cannot read 'results'")
    else if data.Obj? then Ok(Js.Or(Js.Get(data.fields, "results"), data))
    else Ok(data)
  }

  /** A multipart `POST` to an upload endpoint. */
  datatype Upload = Upload(endpoint: string, parts: seq<FormData.Part>)

  /** `uploadFile(file, endpoint)`: a single part named `file`. */
  function UploadFile(file: FormData.File, endpoint: string): (u: Upload)
    ensures u.endpoint == endpoint && |u.parts| == 1 && u.parts[0] == FormData.FilePart("file", file)
  {
    Upload(endpoint, [FormData.FilePart("file", file)])
  }

  /** `uploadMultipleFiles(files, endpoint)`: one part named `files` per file, in order. */
  method UploadMultipleFiles(files: seq<FormData.File>, endpoint: string) returns (u: Upload)
    ensures u.endpoint == endpoint && |u.parts| == |files|
    ensures forall i :: 0 <= i < |files| ==> u.parts[i] == FormData.FilePart("files", files[i])
  {
    var form := new FormData.Form();
    var i := 0;
    while i < |files|
      invariant 0 <= i <= |files|
      invariant |form.parts| == i
      invariant forall k :: 0 <= k < i ==> form.parts[k] == FormData.FilePart("files", files[k])
    {
      form.AppendFile("files", files[i]);
      i := i + 1;
    }
    u := Upload(endpoint, form.parts);
  }
}
