/** The API configuration: the base URL from the environment, the URL of an API path, and the
    options every request is sent with. The request itself is not modelled. */
module ApiConfig {
  import opened Wrappers
  import opened Strings

  /** `process.env.NEXT_PUBLIC_BACKEND_URL || ''`: a missing variable is the empty base. */
  function BaseUrl(env: Option<string>): (r: string)
    ensures env.Some? ==> r == env.value
    ensures env.None? ==> r == ""
  {
    if env.Some? then env.value else ""
  }

  /** The path without its leading slash, if it has one. */
  function CleanPath(path: string): (r: string)
    ensures path == r || path == "/" + r
    ensures |path| > 0 && path[0] == '/' ==> path == "/" + r
  {
    if StartsWith(path, "/") then path[1..] else path
  }

  /** `getApiUrl(path)`: the base, a slash and the clean path; with no base, a slash and the clean path. */
  function GetApiUrl(baseURL: string, path: string): (r: string)
    ensures baseURL != "" ==> r == baseURL + "/" + CleanPath(path)
    ensures baseURL == "" ==> r == "/" + CleanPath(path)
  {
    var clean := CleanPath(path);
    if baseURL != "" then baseURL + "/" + clean else "/" + clean
  }

  /** Exactly one leading slash is dropped: a path and the same path with one more slash in front
      give the same URL. */
  lemma UmaBarraSoh(baseURL: string, path: string)
    requires |path| == 0 || path[0] != '/'
    ensures GetApiUrl(baseURL, "/" + path) == GetApiUrl(baseURL, path)
  {
    SemBarra(path);
    assert !StartsWith(path, "/");
  }

  /** Without a base, a path that starts with a slash comes back unchanged as a relative URL. */
  lemma RelativaSemBase(path: string)
    requires |path| > 0 && path[0] == '/'
    ensures GetApiUrl("", path) == path
  {
  }

  /** A second leading slash is kept. */
  lemma SegundaBarraFica(baseURL: string, path: string)
    ensures GetApiUrl(baseURL, "//" + path) == GetApiUrl(baseURL, "/") + "/" + path
  {
    SemBarra("/" + path);
    SemBarra("");
    assert "/" + ("/" + path) == "//" + path;
  }

  /** The leading slash is what `CleanPath` drops. */
  lemma SemBarra(path: string)
    ensures CleanPath("/" + path) == path
  {
    assert ("/" + path)[1..] == path;
    assert StartsWith("/" + path, "/");
  }

  datatype Credenciais = Omit | SameOrigin | Include

  /** The request options the model follows; the other fields pass through unchanged. */
  datatype RequestInit<Outros> = RequestInit(credentials: Option<Credenciais>, headers: map<string, string>, outros: Outros)

  /** The options `fetch` is called with: the given ones, with credentials "include" unless some
      were given. */
  function OpcoesDoFetch<Outros>(options: RequestInit<Outros>): (r: RequestInit<Outros>)
    ensures r.credentials.Some?
    ensures options.credentials.Some? ==> r.credentials == options.credentials
    ensures options.credentials.None? ==> r.credentials == Some(Include)
    ensures r.headers == options.headers && r.outros == options.outros
  {
    options.(credentials := Some(if options.credentials.Some? then options.credentials.value else Include))
  }

  /** The request `fetch(path, options)` makes: its URL and its options. */
  function Fetch<Outros>(baseURL: string, path: string, options: RequestInit<Outros>): (r: (string, RequestInit<Outros>))
    ensures r.0 == GetApiUrl(baseURL, path) && r.1 == OpcoesDoFetch(options)
  {
    (GetApiUrl(baseURL, path), OpcoesDoFetch(options))
  }

  /** Completing the options is idempotent: options that went through it keep their credentials. */
  lemma OpcoesIdempotentes<Outros>(options: RequestInit<Outros>)
    ensures OpcoesDoFetch(OpcoesDoFetch(options)) == OpcoesDoFetch(options)
  {
  }
}
