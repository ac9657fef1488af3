/** The login service (`src/services/authService.ts`): it sends the
    Base64-encoded credentials to the backend, keeps them in session storage
    after a successful login, forgets them on logout, and reads them back. */
module AuthService {
  import opened Common
  import opened Strings
  import opened Js
  import opened Base64
  import opened SessionStorage

  const Endpoint: string := "/api/auth"

  const LoginFailedMessage: string := "Възникна грешка при влизане в системата"
  const InvalidCredentialsMessage: string := "Невалидно потребителско име или парола"
  const LogoutFailedMessage: string := "Възникна грешка при излизане от системата"

  /** A request body sent with `apiClient.post`: `Some(JNull)` is `null`, and `None` is a call without a body. */
  datatype PostCall = PostCall(path: string, data: Option<Json>)

  /** The `LoginResponse` a failed login or logout resolves to. */
  function FailureResponse(message: string): (v: Json)
    ensures Property(v, "success") == Some(JBool(false))
    ensures Property(v, "message") == Some(JStr(message))
    ensures Property(v, "username") == Some(JNull)
  {
    var fields := [("success", JBool(false)), ("message", JStr(message)), ("username", JNull)];
    assert "success"[0] != "message"[0] && "success"[0] != "username"[0] && "message"[0] != "username"[0];
    LookupAt(fields, 0);
    LookupAt(fields, 1);
    LookupAt(fields, 2);
    JObj(fields)
  }

  /** The message a failed login reports: a rejection that mentions 401 or
      "unauthorized" (in any letter case) becomes the invalid-credentials
      message, any other `Error` keeps its own message, and anything else
      thrown gets the generic one. */
  function LoginErrorMessage(e: Thrown): (m: string)
    ensures !e.IsError() ==> m == LoginFailedMessage
    ensures e.IsError() && (Includes(e.message, "401") || Includes(ToLower(e.message), "unauthorized")) ==>
      m == InvalidCredentialsMessage
    ensures e.IsError() && !Includes(e.message, "401") && !Includes(ToLower(e.message), "unauthorized") ==>
      m == e.message
  {
    if !e.IsError() then LoginFailedMessage
    else if Includes(e.message, "401") || Includes(ToLower(e.message), "unauthorized") then InvalidCredentialsMessage
    else e.message
  }

  /** An `Error` whose message has no '4' and no letter z keeps its own
      message. */
  lemma OwnLoginMessage(e: Thrown)
    requires e.IsError() && '4' !in e.message && 'z' !in e.message && 'Z' !in e.message
    ensures LoginErrorMessage(e) == e.message
  {
    MissingCharExcludes(e.message, "401", '4');
    var lower := ToLower(e.message);
    assert forall k :: 0 <= k < |lower| ==> lower[k] == LowerChar(e.message[k]);
    MissingCharExcludes(lower, "unauthorized", 'z');
  }

  /** A login answered with `null` reports the `TypeError` of reading a
      property of `null` (`response.success`) in its own words: the message
      names neither 401 nor "unauthorized". */
  lemma NullAnswerMessage(key: string)
    requires '4' !in key && 'z' !in key && 'Z' !in key
    ensures LoginErrorMessage(NullPropertyError(key)) == NullPropertyError(key).message
  {
    var m := NullPropertyError(key).message;
    NullMessageLacks(key, '4');
    NullMessageLacks(key, 'z');
    NullMessageLacks(key, 'Z');
    OwnLoginMessage(NullPropertyError(key));
  }

  /** The record `storeCredentials` writes: both fields Base64-encoded;
      `None` when `btoa` throws (the error is caught and nothing is stored). */
  function EncodedCredentials(username: string, password: string): (r: Option<Json>)
    ensures r.Some? <==> IsLatin1(username) && IsLatin1(password)
    ensures r.Some? ==> r.value == CredentialsRecord(Btoa(username).value, Btoa(password).value)
  {
    match (Btoa(username), Btoa(password))
    case (Ok(u), Ok(p)) => Some(CredentialsRecord(u, p))
    case _ => None
  }

  /** `getDecodedCredentials()`: both fields Base64-decoded when both are
      present and decodable, otherwise the empty pair. */
  function DecodedCredentials(items: map<string, StoredItem>): (c: Credentials)
    ensures !HasBothFields(items) ==> c == Credentials("", "")
  {
    var stored := StoredCredentials(items);
    var u := Property(stored, "username");
    var p := Property(stored, "password");
    if TruthyOpt(u) && TruthyOpt(p) then
      match (Atob(ToStr(u.value)), Atob(ToStr(p.value)))
      case (Ok(du), Ok(dp)) => Credentials(du, dp)
      case _ => Credentials("", "")
    else Credentials("", "")
  }

  /** After credentials are stored, they read back decoded exactly when both
      are non-empty, and as the empty pair otherwise; they count as present
      exactly when both are non-empty. */
  lemma StoreThenDecode(items: map<string, StoredItem>, username: string, password: string)
    requires IsLatin1(username) && IsLatin1(password)
    ensures var after := items[CredentialsKey := Parsed(EncodedCredentials(username, password).value)];
      && (HasBothFields(after) <==> username != "" && password != "")
      && DecodedCredentials(after) == (if username != "" && password != "" then Credentials(username, password) else Credentials("", ""))
  {
    var u := Btoa(username).value;
    var p := Btoa(password).value;
    AtobBtoa(username);
    AtobBtoa(password);
    DecodeStored(items, u, p);
  }

  /** Reading back a stored record of two Base64 texts. */
  lemma DecodeStored(items: map<string, StoredItem>, u: string, p: string)
    ensures var after := items[CredentialsKey := Parsed(CredentialsRecord(u, p))];
      && (HasBothFields(after) <==> u != "" && p != "")
      && (u != "" && p != "" && Atob(u).Ok? && Atob(p).Ok? ==> DecodedCredentials(after) == Credentials(Atob(u).value, Atob(p).value))
      && (u == "" || p == "" ==> DecodedCredentials(after) == Credentials("", ""))
  {
    StoredRecord(items, u, p);
  }

  /** After the credentials are cleared, nothing is stored. */
  lemma ClearThenDecode(items: map<string, StoredItem>)
    ensures !HasBothFields(items - {CredentialsKey})
    ensures DecodedCredentials(items - {CredentialsKey}) == Credentials("", "")
  {
    assert StoredCredentials(items - {CredentialsKey}) == EmptyCredentials;
  }

  /** `getSessionInfo()`: the backend's answer, or "logged out" when the
      request fails. */
  function SessionInfo(response: Result<Json, Thrown>): (v: Json)
    ensures response.Ok? ==> v == response.value
    ensures response.Err? ==> Property(v, "loggedIn") == Some(JBool(false)) && Property(v, "username") == Some(JNull)
  {
    match response
    case Ok(v) => v
    case Err(_) => JObj([("loggedIn", JBool(false)), ("username", JNull)])
  }

  /** The `AuthService` object, over the session storage it shares with the
      other services. */
  class Auth {
    const storage: Storage

    constructor(storage: Storage)
      ensures this.storage == storage
    {
      this.storage := storage;
    }

    /** `login(username, password)`: `post` is what the login request
        resolves or rejects with; `sent` is the request, `None` when encoding
        the credentials throws before it is made. */
    method Login(username: string, password: string, post: Result<Json, Thrown>)
      returns (response: Json, sent: Option<PostCall>)
      modifies storage
      ensures sent.Some? <==> IsLatin1(username) && IsLatin1(password)
      ensures sent.Some? ==> sent.value == PostCall(Endpoint + "/login", EncodedCredentials(username, password))
      ensures sent.None? ==> response == FailureResponse(LoginErrorMessage(InvalidCharacter))
      ensures sent.Some? && post.Err? ==> response == FailureResponse(LoginErrorMessage(post.error))
      ensures sent.Some? && post == Ok(JNull) ==>
        response == FailureResponse(LoginErrorMessage(NullPropertyError("success")))
      ensures sent.Some? && post.Ok? && !post.value.JNull? ==> response == post.value
      ensures if sent.Some? && post.Ok? && !post.value.JNull? && TruthyOpt(Property(post.value, "success"))
        then storage.items == old(storage.items)[CredentialsKey := Parsed(EncodedCredentials(username, password).value)]
        else storage.items == old(storage.items)
    {
      var encoded := EncodedCredentials(username, password);
      if encoded.None? {
        response := FailureResponse(LoginErrorMessage(InvalidCharacter));
        sent := None;
        return;
      }
      sent := Some(PostCall(Endpoint + "/login", encoded));
      match post {
        case Err(e) =>
          response := FailureResponse(LoginErrorMessage(e));
        case Ok(v) =>
          match ReadProperty(v, "success") {
            case Err(e) =>
              response := FailureResponse(LoginErrorMessage(e));
            case Ok(success) =>
              if TruthyOpt(success) {
                StoreCredentials(username, password);
              }
              response := v;
          }
      }
    }

    /** `logout()`: the credentials are forgotten whether or not the request
        succeeds. */
    method Logout(post: Result<Json, Thrown>) returns (response: Json, sent: PostCall)
      modifies storage
      ensures sent == PostCall(Endpoint + "/logout", Some(JNull))
      ensures post.Ok? ==> response == post.value
      ensures post.Err? ==> response == FailureResponse(LogoutFailedMessage)
      ensures storage.items == old(storage.items) - {CredentialsKey}
    {
      sent := PostCall(Endpoint + "/logout", Some(JNull));
      ClearCredentials();
      response := if post.Ok? then post.value else FailureResponse(LogoutFailedMessage);
    }

    /** `storeCredentials(username, password)` */
    method StoreCredentials(username: string, password: string)
      modifies storage
      ensures EncodedCredentials(username, password).Some? ==>
        storage.items == old(storage.items)[CredentialsKey := Parsed(EncodedCredentials(username, password).value)]
      ensures EncodedCredentials(username, password).None? ==> storage.items == old(storage.items)
    {
      var encoded := EncodedCredentials(username, password);
      if encoded.Some? {
        storage.SetItem(CredentialsKey, encoded.value);
      }
    }

    /** `clearCredentials()` */
    method ClearCredentials()
      modifies storage
      ensures storage.items == old(storage.items) - {CredentialsKey}
    {
      storage.RemoveItem(CredentialsKey);
    }

    /** `getStoredCredentials()` */
    function GetStoredCredentials(): Json
      reads storage
    {
      StoredCredentials(storage.items)
    }

    /** `hasStoredCredentials()` */
    predicate HasStoredCredentials()
      reads storage
    {
      HasBothFields(storage.items)
    }

    /** `getDecodedCredentials()` */
    function GetDecodedCredentials(): Credentials
      reads storage
    {
      DecodedCredentials(storage.items)
    }
  }

  /** A successful login with non-empty credentials leaves them readable in
      plain text. */
  lemma LoginThenDecoded(items: map<string, StoredItem>, username: string, password: string)
    requires IsLatin1(username) && IsLatin1(password) && username != "" && password != ""
    ensures var after := items[CredentialsKey := Parsed(EncodedCredentials(username, password).value)];
      HasBothFields(after) && DecodedCredentials(after) == Credentials(username, password)
  {
    StoreThenDecode(items, username, password);
  }
}
