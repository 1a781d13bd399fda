/** The personal API key field of app/meditate/_components/api-key-input.tsx: a switch, the
    typed key, an error line, and the key it reports to its parent. */
module ApiKeyInput {
  import opened Wrappers
  import opened Text
  import opened ApiKeyActions

  const PrefixError: string := "API key must start with 'sk-'"

  /** What the field reports for a typed value: the value when it is well formed, null when it
      is empty or malformed. */
  function Report(value: string): (r: Option<string>)
    ensures r.Some? <==> value != "" && WellFormedKey(value)
    ensures r.Some? ==> r.value == value
  {
    if value != "" && !StartsWith(value, KeyPrefix) then None
    else if value == "" then None
    else Some(value)
  }

  /** Whatever the field reports, the server action accepts: it stores the reported key, or
      removes the stored one when the report is null. */
  lemma ReportAccepted(jar: map<string, string>, value: string)
    ensures AfterSet(jar, Report(value)).1.IsSuccess()
    ensures StoredKey(AfterSet(jar, Report(value)).0) == Report(value)
  {
    SetThenGet(jar, Report(value));
  }

  /** A value the field flags is one the action would refuse. */
  lemma FlaggedMeansRefused(jar: map<string, string>, value: string)
    requires value != "" && !WellFormedKey(value)
    ensures !AfterSet(jar, Some(value)).1.IsSuccess()
    ensures Report(value).None?
  {
  }

  class KeyInput {
    var useApiKey: bool
    var apiKey: string
    var error: Option<string>

    constructor ()
      ensures !useApiKey && apiKey == "" && error == None
    {
      useApiKey, apiKey, error := false, "", None;
    }

    /** `handleApiKeyChange`: the text follows the typing, the error is cleared and set again
        only for a non-empty value without the prefix; `reported` is what reaches the parent. */
    method HandleApiKeyChange(value: string) returns (reported: Option<string>)
      modifies this`apiKey, this`error
      ensures apiKey == value
      ensures error == (if value != "" && !WellFormedKey(value) then Some(PrefixError) else None)
      ensures reported == Report(value)
    {
      apiKey := value;
      error := None;
      if value != "" && !StartsWith(value, KeyPrefix) {
        error := Some(PrefixError);
        return None;
      }
      reported := if value == "" then None else Some(value);
    }

    /** `handleToggleChange`: switching off clears the key and reports null (`called` with a
        null key); switching on only moves the switch. */
    method HandleToggleChange(checked: bool) returns (called: bool, reported: Option<string>)
      modifies this`useApiKey, this`apiKey
      ensures useApiKey == checked
      ensures called <==> !checked
      ensures !checked ==> apiKey == "" && reported == None
      ensures checked ==> apiKey == old(apiKey)
    {
      useApiKey := checked;
      called, reported := false, None;
      if !checked {
        apiKey := "";
        called := true;
      }
    }
  }
}
