/**
 * The account page's client logic: how a stored API key is masked and
 * revealed, the registration checks, and the session state the page keeps in
 * module globals and local storage (login, logout, start-up restore, key list,
 * key-creation guard). Responses of the account server are parameters.
 */
module AuthClient {
  import opened Wrappers
  import opened Text
  import opened Database

  const Hidden := "Hidden"
  const Ellipsis := "..."
  const MinPasswordLength := 6
  const TokenKey := "authToken"
  const UserDataKey := "userData"

  const MismatchMessage := "Passwords do not match."
  const ShortPasswordMessage := "Password must be at least 6 characters long."
  const LoginOkMessage := "Login successful! Welcome back."
  const LoginFailedMessage := "Login failed. Please try again."
  const NetworkErrorMessage := "Network error. Please try again."
  const NotLoggedInMessage := "Please log in to generate API keys."
  const BlankNameMessage := "Please enter a name for your API key."

  function Min(a: nat, b: nat): nat {
    if a <= b then a else b
  }

  // ---------------------------------------------------------------- masking

  /**
   * The mask `createApiKeyRow` and `toggleKeyVisibility` both build: the first
   * eight characters, an ellipsis, the last four. `substring` clamps, so a key
   * shorter than twelve characters shows some characters twice, and one
   * shorter than four shows whole on both sides.
   */
  function MaskText(fullKey: string): (m: string)
    ensures |m| == Min(|fullKey|, 8) + 3 + Min(|fullKey|, 4)
    ensures m == fullKey[..Min(|fullKey|, 8)] + Ellipsis + fullKey[|fullKey| - Min(|fullKey|, 4)..]
    ensures |fullKey| >= 12 ==> m == fullKey[..8] + Ellipsis + fullKey[|fullKey| - 4..]
  {
    JsSubstring(fullKey, 0, 8) + Ellipsis + JsSubstring(fullKey, |fullKey| - 4, |fullKey|)
  }

  /** A key the server generated masks to its prefix, four token characters, the ellipsis and the last four. */
  lemma MaskOfGeneratedKey(token: string)
    requires |token| >= 8
    ensures var m := MaskText(GenerateApiKey(token));
      |m| == 15 && StartsWith(m, KeyPrefix) && m[4..8] == token[..4]
      && m[8..11] == Ellipsis && m[11..] == token[|token| - 4..]
  {
    var k := GenerateApiKey(token);
    assert k[..8] == KeyPrefix + token[..4];
    assert k[|k| - 4..] == token[|token| - 4..];
  }

  /** The text a key cell starts with: the mask when the key is present and non-empty, "Hidden" otherwise. */
  function InitialText(key: Option<string>): (t: string)
    ensures t == Hidden <==> key.None? || key.value == ""
  {
    if key.Some? && key.value != "" then MaskText(key.value) else Hidden
  }

  /**
   * What `data-full-key` holds: the key, or the text "undefined" when the
   * record has no `key` field at all (`None`; a JSON `null` is not modelled).
   */
  function DataFullKey(key: Option<string>): string {
    if key.Some? then key.value else "undefined"
  }

  /**
   * Two toggles bring back the starting text exactly when the key is present
   * and non-empty; otherwise "Hidden" gives way to a mask of "undefined" or
   * of the empty string.
   */
  lemma TogglesRestore(key: Option<string>)
    ensures MaskText(DataFullKey(key)) == InitialText(key) <==> key.Some? && key.value != ""
  {
    if key.None? {
      assert |MaskText("undefined")| == 15;
    }
  }

  /** One key cell of the table: the text shown, and whether it is the masked form. */
  class KeyCell {
    const fullKey: string
    var text: string
    var hidden: bool

    constructor (key: Option<string>)
      ensures fullKey == DataFullKey(key) && text == InitialText(key) && hidden
    {
      fullKey := DataFullKey(key);
      text := InitialText(key);
      hidden := true;
    }

    /** `toggleKeyVisibility`: a hidden cell shows the full key; a shown one is masked again. */
    method Toggle()
      modifies this
      ensures hidden == !old(hidden)
      ensures old(hidden) ==> text == fullKey
      ensures !old(hidden) ==> text == MaskText(fullKey)
    {
      if hidden {
        text := fullKey;
        hidden := false;
      } else {
        text := MaskText(fullKey);
        hidden := true;
      }
    }
  }

  // ---------------------------------------------------------------- registration

  datatype Registration = PasswordMismatch | PasswordTooShort | Register(name: string, email: string, password: string)

  /** `handleRegister`'s checks, in order: the confirmation must match, then the length must reach six. */
  function CheckRegistration(name: string, email: string, password: string, confirm: string): (r: Registration)
    ensures r == PasswordMismatch <==> password != confirm
    ensures r == PasswordTooShort <==> password == confirm && |password| < MinPasswordLength
    ensures r.Register? <==> password == confirm && |password| >= MinPasswordLength
    ensures r.Register? ==> r.name == name && r.email == email && r.password == password
  {
    if password != confirm then PasswordMismatch
    else if |password| < MinPasswordLength then PasswordTooShort
    else Register(name, email, password)
  }

  /** A short password that also mismatches is reported as a mismatch. */
  lemma MismatchReportedFirst()
    ensures CheckRegistration("n", "e", "abc", "abd") == PasswordMismatch
  {
    assert "abc"[2] != "abd"[2];
  }

  function RegistrationMessage(r: Registration): (m: Option<string>)
    ensures m.None? <==> r.Register?
  {
    match r
    case PasswordMismatch => Some(MismatchMessage)
    case PasswordTooShort => Some(ShortPasswordMessage)
    case Register(_, _, _) => None
  }

  // ---------------------------------------------------------------- session state

  datatype User = User(name: string, email: string)

  datatype KeyRow = KeyRow(id: nat, name: string, key: Option<string>)

  datatype View = Dashboard | GuestView

  datatype LoginResponse =
    | LoginAccepted(token: string, user: User, userJson: string)
    | LoginRefused(detail: Option<string>)
    | LoginUnreachable

  datatype KeysResponse = KeysReceived(keys: Option<seq<KeyRow>>) | KeysFailed

  datatype Listing = NotSignedIn | NoKeys | KeyTable(cells: seq<string>) | LoadError

  datatype KeyRequest = NeedsLogin | NeedsName | Requested(name: string)

  /** `localStorage.getItem(k)` is truthy: present and non-empty. */
  predicate Stored(storage: map<string, string>, k: string) {
    k in storage && storage[k] != ""
  }

  /** The page's globals and its local storage. */
  class AuthSession {
    var currentUser: Option<User>
    var userApiKeys: seq<KeyRow>
    var storage: map<string, string>
    var keyNameInput: string

    constructor (saved: map<string, string>)
      ensures currentUser.None? && userApiKeys == [] && storage == saved && keyNameInput == ""
    {
      currentUser := None;
      userApiKeys := [];
      storage := saved;
      keyNameInput := "";
    }

    /** `clearAuthData`: forget the user and the keys, and drop both stored items. */
    method ClearAuthData()
      modifies this
      ensures currentUser.None? && userApiKeys == []
      ensures storage == old(storage) - {TokenKey, UserDataKey}
      ensures keyNameInput == old(keyNameInput)
    {
      storage := storage - {TokenKey};
      storage := storage - {UserDataKey};
      currentUser := None;
      userApiKeys := [];
    }

    /** `checkAuthState`: the dashboard exactly when a user is set. */
    method CheckAuthState() returns (view: View)
      ensures view == Dashboard <==> currentUser.Some?
    {
      if currentUser.Some? {
        view := Dashboard;
      } else {
        view := GuestView;
      }
    }

    /**
     * `initializeAuth`: with both items stored, the saved user is restored.
     * `parse` stands for `JSON.parse` followed by showing the signed-in page;
     * when either throws (`parse` gives `None`) the page clears everything.
     */
    method InitializeAuth(parse: string -> Option<User>)
      modifies this
      ensures !(Stored(old(storage), TokenKey) && Stored(old(storage), UserDataKey)) ==>
        currentUser == old(currentUser) && userApiKeys == old(userApiKeys) && storage == old(storage)
      ensures Stored(old(storage), TokenKey) && Stored(old(storage), UserDataKey) ==>
        var parsed := parse(old(storage)[UserDataKey]);
        (parsed.Some? ==> currentUser == parsed && userApiKeys == old(userApiKeys) && storage == old(storage))
        && (parsed.None? ==> currentUser.None? && userApiKeys == [] && storage == old(storage) - {TokenKey, UserDataKey})
      ensures keyNameInput == old(keyNameInput)
    {
      if Stored(storage, TokenKey) && Stored(storage, UserDataKey) {
        var parsed := parse(storage[UserDataKey]);
        if parsed.Some? {
          currentUser := parsed;
        } else {
          ClearAuthData();
        }
      }
    }

    /** `handleLogin` given the server's answer; the message is what the form shows. */
    method HandleLogin(response: LoginResponse) returns (message: string)
      modifies this
      ensures response.LoginAccepted? ==>
        message == LoginOkMessage && currentUser == Some(response.user)
        && storage == old(storage)[TokenKey := response.token][UserDataKey := response.userJson]
      ensures !response.LoginAccepted? ==> currentUser == old(currentUser) && storage == old(storage)
      ensures response.LoginRefused? ==>
        message == (if response.detail.Some? && response.detail.value != "" then response.detail.value
                    else LoginFailedMessage)
      ensures response.LoginUnreachable? ==> message == NetworkErrorMessage
      ensures userApiKeys == old(userApiKeys) && keyNameInput == old(keyNameInput)
    {
      match response {
        case LoginAccepted(token, user, userJson) =>
          storage := storage[TokenKey := token];
          storage := storage[UserDataKey := userJson];
          currentUser := Some(user);
          message := LoginOkMessage;
        case LoginRefused(detail) =>
          message := if detail.Some? && detail.value != "" then detail.value else LoginFailedMessage;
        case LoginUnreachable =>
          message := NetworkErrorMessage;
      }
    }

    /**
     * `loadUserApiKeys` followed by `displayApiKeys`: nothing without a stored
     * token; otherwise the received list replaces the keys and each row's key
     * cell starts out masked.
     */
    method LoadUserApiKeys(response: KeysResponse) returns (listing: Listing)
      modifies this`userApiKeys
      ensures !Stored(storage, TokenKey) ==> listing == NotSignedIn && userApiKeys == old(userApiKeys)
      ensures Stored(storage, TokenKey) && response.KeysFailed? ==>
        listing == LoadError && userApiKeys == old(userApiKeys)
      ensures Stored(storage, TokenKey) && response.KeysReceived? ==>
        userApiKeys == (if response.keys.Some? then response.keys.value else [])
        && (userApiKeys == [] ==> listing == NoKeys)
        && (userApiKeys != [] ==>
              (listing.KeyTable? && |listing.cells| == |userApiKeys|
               && forall i :: 0 <= i < |userApiKeys| ==> listing.cells[i] == InitialText(userApiKeys[i].key)))
    {
      if !Stored(storage, TokenKey) {
        return NotSignedIn;
      }
      if response.KeysFailed? {
        return LoadError;
      }
      userApiKeys := if response.keys.Some? then response.keys.value else [];
      if |userApiKeys| == 0 {
        return NoKeys;
      }
      var cells: seq<string> := [];
      for i := 0 to |userApiKeys|
        invariant |cells| == i
        invariant forall k :: 0 <= k < i ==> cells[k] == InitialText(userApiKeys[k].key)
      {
        cells := cells + [InitialText(userApiKeys[i].key)];
      }
      listing := KeyTable(cells);
    }

    /**
     * `window.generateApiKey`: a user must be signed in and the name must not
     * be blank; once the request is made the name field is cleared.
     */
    method GenerateApiKey() returns (outcome: KeyRequest)
      modifies this`keyNameInput
      ensures currentUser.None? ==> outcome == NeedsLogin
      ensures currentUser.Some? && IsBlank(old(keyNameInput)) ==> outcome == NeedsName
      ensures outcome.Requested? <==> currentUser.Some? && !IsBlank(old(keyNameInput))
      ensures outcome.Requested? ==> outcome.name == old(keyNameInput) && keyNameInput == ""
      ensures !outcome.Requested? ==> keyNameInput == old(keyNameInput)
    {
      if currentUser.None? {
        return NeedsLogin;
      }
      if IsBlank(keyNameInput) {
        return NeedsName;
      }
      outcome := Requested(keyNameInput);
      keyNameInput := "";
    }
  }

  function KeyRequestMessage(r: KeyRequest): (m: Option<string>)
    ensures m.None? <==> r.Requested?
  {
    match r
    case NeedsLogin => Some(NotLoggedInMessage)
    case NeedsName => Some(BlankNameMessage)
    case Requested(_) => None
  }
}
