/** The sign-in card (src/components/ApiKeyForm.tsx): the key the user typed
    is checked for being non-blank and for the `apify_api_` prefix, and the
    trimmed key is handed on. */
module KeyForm {
  import opened Json
  import opened Text

  const KeyPrefix: string := "apify_api_"
  const BlankKey: string := "Please enter your Apify API key"
  const BadFormat: string := "Invalid API key format. API key should start with \"apify_api_\""

  /** The decision `handleSubmit` takes on the typed text: blank first, then
      the prefix, checked on the text as typed; otherwise the trimmed key. */
  function Validate(key: string): (r: Outcome<string>)
    ensures r == Failure(BlankKey) <==> Trim(key) == ""
    ensures r == Failure(BadFormat) <==> Trim(key) != "" && !StartsWith(key, KeyPrefix)
    ensures r.Success? <==> Trim(key) != "" && StartsWith(key, KeyPrefix)
    ensures r.Success? ==> r.value == Trim(key)
  {
    if Trim(key) == "" then Failure(BlankKey)
    else if !StartsWith(key, KeyPrefix) then Failure(BadFormat)
    else Success(Trim(key))
  }

  /** Every key that is handed on starts with `apify_api_`: the prefix check
      runs before trimming, and trimming cannot eat into the prefix. */
  lemma SubmittedKeyHasPrefix(key: string)
    requires Validate(key).Success?
    ensures StartsWith(Validate(key).value, KeyPrefix)
  {
    assert key[0] == 'a';
    assert TrimStart(key) == key;
    PrefixSurvivesTrimEnd(KeyPrefix, key);
  }

  /** A key typed with leading whitespace is refused even when what follows
      is a well-formed key, because the prefix check sees the spaces. */
  lemma LeadingSpaceRefused(key: string)
    requires key != [] && IsWhitespace(key[0])
    ensures Validate(key).Failure?
  {
  }

  /** Trimming a submitted key again changes nothing. */
  lemma SubmittedKeyIsTrimmed(key: string)
    requires Validate(key).Success?
    ensures Trim(Validate(key).value) == Validate(key).value
  {
    TrimOfTrimmed(Trim(key));
  }

  class ApiKeyForm {
    var apiKey: string
    var error: string

    constructor ()
      ensures apiKey == "" && error == ""
    {
      apiKey := "";
      error := "";
    }

    /** Typing in the key box. */
    method SetApiKey(text: string)
      modifies this`apiKey
      ensures apiKey == text
    {
      apiKey := text;
    }

    /** `handleSubmit`: on a refused key the message is shown and nothing is
        submitted; on an accepted key the message is cleared and the trimmed
        key is what `onSubmit` receives. The typed text stays as it was. */
    method HandleSubmit() returns (submitted: Option<string>)
      modifies this`error
      ensures submitted.Some? <==> Validate(apiKey).Success?
      ensures submitted.Some? ==> submitted.value == Trim(apiKey) && error == ""
      ensures submitted.Some? ==> StartsWith(submitted.value, KeyPrefix)
      ensures submitted.None? ==> error == Validate(apiKey).error
    {
      var v := Validate(apiKey);
      match v {
        case Failure(message) =>
          error := message;
          submitted := None;
        case Success(key) =>
          SubmittedKeyHasPrefix(apiKey);
          error := "";
          submitted := Some(key);
      }
    }
  }
}
