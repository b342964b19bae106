/**
 * The API configuration of the Vue front end (src/config/api.ts): the base
 * URL and the API key, each the first non-empty of a stored value, a build
 * environment value and a default; and the shared `baseOptions`, which get
 * an `Authorization: Bearer …` header when a key is known at load time.
 */
module ApiConfig {
  import opened Wrappers

  const DefaultBaseUrl := "https://api.firecrawl.dev/v1"

  /** Where the configuration comes from: local storage (null is None) and the build environment (undefined is None). */
  datatype Sources = Sources(
    storedBaseUrl: Option<string>,
    envBaseUrl: Option<string>,
    storedApiKey: Option<string>,
    envApiKey: Option<string>)

  /** null, undefined and "" are all falsy for `||`. */
  function OrEmpty(o: Option<string>): string
  {
    if o.Some? then o.value else ""
  }

  /** `a || b || … || fallback` over strings: the first non-empty candidate, else the fallback. */
  function FirstNonEmpty(candidates: seq<string>, fallback: string): (r: string)
    ensures (exists i :: 0 <= i < |candidates| && candidates[i] != "" && r == candidates[i] &&
                         forall j :: 0 <= j < i ==> candidates[j] == "") ||
            ((forall i :: 0 <= i < |candidates| ==> candidates[i] == "") && r == fallback)
  {
    if candidates == [] then fallback
    else if candidates[0] != "" then candidates[0]
    else
      var r := FirstNonEmpty(candidates[1..], fallback);
      assert forall i :: 1 <= i < |candidates| ==> candidates[i] == candidates[1..][i - 1];
      r
  }

  /** `getBaseUrl()`: stored value, else environment value, else the public endpoint; never empty. */
  function GetBaseUrl(stored: Option<string>, env: Option<string>): (r: string)
    ensures r != ""
    ensures OrEmpty(stored) != "" ==> r == stored.value
    ensures OrEmpty(stored) == "" && OrEmpty(env) != "" ==> r == env.value
    ensures OrEmpty(stored) == "" && OrEmpty(env) == "" ==> r == DefaultBaseUrl
  {
    var candidates := [OrEmpty(stored), OrEmpty(env)];
    assert candidates[0] == OrEmpty(stored) && candidates[1] == OrEmpty(env);
    FirstNonEmpty(candidates, DefaultBaseUrl)
  }

  /** `getApiKey()`: stored value, else environment value, else ""; empty exactly when neither is set. */
  function GetApiKey(stored: Option<string>, env: Option<string>): (r: string)
    ensures OrEmpty(stored) != "" ==> r == stored.value
    ensures OrEmpty(stored) == "" && OrEmpty(env) != "" ==> r == env.value
    ensures r == "" <==> OrEmpty(stored) == "" && OrEmpty(env) == ""
  {
    var candidates := [OrEmpty(stored), OrEmpty(env)];
    assert candidates[0] == OrEmpty(stored) && candidates[1] == OrEmpty(env);
    FirstNonEmpty(candidates, "")
  }

  /** The request options every generated API client starts from. */
  datatype BaseOptions = BaseOptions(headers: map<string, string>)

  const InitialOptions := BaseOptions(map["Content-Type" := "application/json"])

  /**
   * The conditional update at load time: with a key, the headers gain
   * `Authorization: Bearer <key>` and keep every other header; without one,
   * the options are left as they are.
   */
  function WithAuthorization(options: BaseOptions, apiKey: string): (r: BaseOptions)
    ensures apiKey == "" ==> r == options
    ensures apiKey != "" ==> r.headers.Keys == options.headers.Keys + {"Authorization"} &&
                             r.headers["Authorization"] == "Bearer " + apiKey
    ensures forall h :: h in options.headers && h != "Authorization" ==> h in r.headers && r.headers[h] == options.headers[h]
  {
    if apiKey == "" then options
    else BaseOptions(options.headers["Authorization" := "Bearer " + apiKey])
  }

  /** The configured headers always carry the JSON content type, and carry a bearer token exactly when a key is set. */
  lemma ConfiguredHeaders(sources: Sources)
    ensures var key := GetApiKey(sources.storedApiKey, sources.envApiKey);
            var headers := WithAuthorization(InitialOptions, key).headers;
            headers["Content-Type"] == "application/json" &&
            ("Authorization" in headers <==> OrEmpty(sources.storedApiKey) != "" || OrEmpty(sources.envApiKey) != "") &&
            ("Authorization" in headers ==> headers["Authorization"] == "Bearer " + key)
  {
  }

  /** The exported `apiConfig` object, as the module's top-level code leaves it. */
  class ApiConfiguration {
    var basePath: string
    var baseOptions: BaseOptions

    constructor(sources: Sources)
      ensures basePath == GetBaseUrl(sources.storedBaseUrl, sources.envBaseUrl)
      ensures baseOptions == WithAuthorization(InitialOptions, GetApiKey(sources.storedApiKey, sources.envApiKey))
    {
      basePath := GetBaseUrl(sources.storedBaseUrl, sources.envBaseUrl);
      baseOptions := InitialOptions;
      new;
      var apiKey := GetApiKey(sources.storedApiKey, sources.envApiKey);
      if apiKey != "" {
        baseOptions := BaseOptions(baseOptions.headers["Authorization" := "Bearer " + apiKey]);
      }
    }
  }
}
