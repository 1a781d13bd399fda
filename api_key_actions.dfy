/** The personal API key server actions of actions/api-key-actions.ts: the key lives in the
    request's cookie store under one name, is removed by an empty key, and must start with "sk-". */
module ApiKeyActions {
  import opened Wrappers
  import opened Text

  const ApiKeyCookie: string := "openai-api-key"
  const KeyPrefix: string := "sk-"

  /** The format rule both the action and the input field apply. */
  predicate WellFormedKey(key: string) { StartsWith(key, KeyPrefix) }

  /** `!apiKey`: no key, or the empty string. */
  predicate Absent(apiKey: Option<string>) { apiKey.None? || apiKey.value == "" }

  /** The cookie jar and the answer after `setApiKeyAction(apiKey)`. */
  function AfterSet(jar: map<string, string>, apiKey: Option<string>): (map<string, string>, ActionState<()>)
  {
    if Absent(apiKey) then (jar - {ApiKeyCookie}, ActionOk("API key removed successfully", ()))
    else if !WellFormedKey(apiKey.value) then (jar, ActionError("Invalid API key format"))
    else (jar[ApiKeyCookie := apiKey.value], ActionOk("API key stored successfully", ()))
  }

  /** What `getApiKeyAction` returns as data: the cookie's value, or null when it is missing or
      empty. */
  function StoredKey(jar: map<string, string>): (key: Option<string>)
    ensures key.Some? ==> ApiKeyCookie in jar && key.value == jar[ApiKeyCookie] && key.value != ""
    ensures key.None? ==> ApiKeyCookie !in jar || jar[ApiKeyCookie] == ""
  {
    if ApiKeyCookie in jar && jar[ApiKeyCookie] != "" then Some(jar[ApiKeyCookie]) else None
  }

  /** A key that is stored reads back unchanged; a removal reads back as null; a rejected key
      leaves whatever was stored. */
  lemma SetThenGet(jar: map<string, string>, apiKey: Option<string>)
    ensures Absent(apiKey) ==> AfterSet(jar, apiKey).1.IsSuccess() && StoredKey(AfterSet(jar, apiKey).0) == None
    ensures !Absent(apiKey) && WellFormedKey(apiKey.value) ==>
      AfterSet(jar, apiKey).1.IsSuccess() && StoredKey(AfterSet(jar, apiKey).0) == apiKey
    ensures !Absent(apiKey) && !WellFormedKey(apiKey.value) ==>
      !AfterSet(jar, apiKey).1.IsSuccess() && StoredKey(AfterSet(jar, apiKey).0) == StoredKey(jar)
  {
  }

  /** The action succeeds exactly for a missing, empty or well-formed key, and it never touches
      another cookie. */
  lemma SetTouchesOnlyTheKey(jar: map<string, string>, apiKey: Option<string>, name: string)
    requires name != ApiKeyCookie
    ensures AfterSet(jar, apiKey).1.IsSuccess() <==> Absent(apiKey) || WellFormedKey(apiKey.value)
    ensures name in AfterSet(jar, apiKey).0 <==> name in jar
    ensures name in jar ==> AfterSet(jar, apiKey).0[name] == jar[name]
  {
  }

  /** Setting the same key twice is the same as setting it once. */
  lemma SetIdempotent(jar: map<string, string>, apiKey: Option<string>)
    ensures AfterSet(AfterSet(jar, apiKey).0, apiKey) == AfterSet(jar, apiKey)
  {
    if Absent(apiKey) {
      assert (jar - {ApiKeyCookie}) - {ApiKeyCookie} == jar - {ApiKeyCookie};
    } else if WellFormedKey(apiKey.value) {
      assert jar[ApiKeyCookie := apiKey.value][ApiKeyCookie := apiKey.value] == jar[ApiKeyCookie := apiKey.value];
    }
  }

  /** The request's cookie store. */
  class CookieStore {
    var jar: map<string, string>

    constructor (cookies: map<string, string>)
      ensures jar == cookies
    {
      jar := cookies;
    }

    /** `setApiKeyAction`. */
    method SetApiKey(apiKey: Option<string>) returns (r: ActionState<()>)
      modifies this
      ensures (jar, r) == AfterSet(old(jar), apiKey)
    {
      if apiKey.None? || apiKey.value == "" {
        jar := jar - {ApiKeyCookie};
        return ActionOk("API key removed successfully", ());
      }
      if !StartsWith(apiKey.value, KeyPrefix) {
        return ActionError("Invalid API key format");
      }
      jar := jar[ApiKeyCookie := apiKey.value];
      r := ActionOk("API key stored successfully", ());
    }

    /** `getApiKeyAction`. */
    method GetApiKey() returns (r: ActionState<Option<string>>)
      ensures r == ActionOk("API key retrieved successfully", StoredKey(jar))
    {
      var value := if ApiKeyCookie in jar then jar[ApiKeyCookie] else "";
      r := ActionOk("API key retrieved successfully", if value == "" then None else Some(value));
    }
  }
}
