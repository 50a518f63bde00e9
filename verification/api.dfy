/** The request-building half of the API gateway adapter (src/utils/api.ts): which backend
    calls exist and where they go, the headers of every request, the message of the error a
    non-OK response raises, the transaction-list query string and the health URL.
    `fetch` and JSON decoding are not modelled: each call's outcome is a parameter of the
    state machine that makes it. */
module Api {
  import opened Wrappers
  import opened Seqs
  import opened Text
  import opened Domain
  import opened Storage

  /** The development server's origin; the default base URL is its `/api` path. */
  const DevOrigin: string := "http://localhost:3001"
  const DefaultBaseUrl: string := DevOrigin + "/api"

  /** `import.meta.env.VITE_API_URL || 'http://localhost:3001/api'`. */
  function BaseUrl(env: Option<string>): (url: string)
    ensures url != ""
    ensures IsTruthy(env) ==> url == env.value
    ensures !IsTruthy(env) ==> url == DefaultBaseUrl
  {
    if IsTruthy(env) then env.value else DefaultBaseUrl
  }

  // ---------------------------------------------------------------------------
  // Backend calls and their routes

  /** One call to the backend, with the arguments the client sends. */
  datatype ApiCall =
    | LoginCall(email: string, password: string)
    | RegisterCall(email: string, password: string, name: string)
    | MeCall
    | LogoutCall
    | ListCall(filters: Option<seq<QueryEntry>>)
    | ParseCall(input: string)
    | CreateCall(draft: Proposal, date: int)
    | UpdateCall(id: string, fields: Fields)
    | DeleteCall(id: string)
    | CategoriesCall
    | SummaryCall
    | BreakdownCall(period: Period)
    | TrendsCall(days: int)

  datatype Verb = Get | Post | Put | Delete

  datatype Route = Route(verb: Verb, path: string)

  const DefaultPeriod: Period := Month
  const DefaultTrendDays: int := 30

  /** The path of one stored transaction, shared by update and delete. */
  function ItemPath(id: string): (p: string)
    ensures |p| == 14 + |id| && p[..14] == "/transactions/" && p[14..] == id
  {
    "/transactions/" + id
  }

  /** Distinct transactions are addressed by distinct paths. */
  lemma ItemPathInjective(a: string, b: string)
    requires ItemPath(a) == ItemPath(b)
    ensures a == b
  {
    assert a == ItemPath(a)[14..];
  }

  /** The HTTP method and path of each backend call; only the reads use GET. */
  function RouteOf(call: ApiCall, encode: string -> string): (r: Route)
    ensures r.verb == Get <==>
      call.MeCall? || call.ListCall? || call.CategoriesCall? || call.SummaryCall?
      || call.BreakdownCall? || call.TrendsCall?
    ensures call.UpdateCall? ==> r == Route(Put, ItemPath(call.id))
    ensures call.DeleteCall? ==> r == Route(Delete, ItemPath(call.id))
  {
    match call
    case LoginCall(_, _) => Route(Post, "/auth/login")
    case RegisterCall(_, _, _) => Route(Post, "/auth/register")
    case MeCall => Route(Get, "/auth/me")
    case LogoutCall => Route(Post, "/auth/logout")
    case ListCall(filters) => Route(Get, ListPath(filters, encode))
    case ParseCall(_) => Route(Post, "/transactions/parse")
    case CreateCall(_, _) => Route(Post, "/transactions")
    case UpdateCall(id, _) => Route(Put, ItemPath(id))
    case DeleteCall(id) => Route(Delete, ItemPath(id))
    case CategoriesCall => Route(Get, "/transactions/categories")
    case SummaryCall => Route(Get, "/analytics/summary")
    case BreakdownCall(period) => Route(Get, "/analytics/categories?period=" + PeriodName(period))
    case TrendsCall(days) => Route(Get, "/analytics/trends?days=" + IntToString(days))
  }

  // ---------------------------------------------------------------------------
  // Headers

  const ContentTypeHeader: string := "Content-Type"
  const AuthorizationHeader: string := "Authorization"
  const JsonMediaType: string := "application/json"

  /** What a caller of `apiCall` may pass besides the endpoint. */
  datatype RequestOptions = RequestOptions(
    verb: Option<Verb>,
    body: Option<string>,
    headers: Option<map<string, string>>)

  /** The headers `apiCall` sends, given the stored token (`getItem('authToken')`).
      A JSON content type and, for a non-empty token, a bearer Authorization header,
      unless the caller passes headers of its own: `...options` is spread after
      `headers`, so those replace the whole merged object. */
  function RequestHeaders(token: Option<string>, options: RequestOptions): (h: map<string, string>)
    ensures options.headers.Some? ==> h == options.headers.value
    ensures options.headers.None? ==>
      && h.Keys <= {ContentTypeHeader, AuthorizationHeader}
      && ContentTypeHeader in h && h[ContentTypeHeader] == JsonMediaType
      && (AuthorizationHeader in h <==> IsTruthy(token))
      && (AuthorizationHeader in h ==> h[AuthorizationHeader] == "Bearer " + token.value)
  {
    var defaults := map[ContentTypeHeader := JsonMediaType];
    var withToken := if IsTruthy(token) then defaults[AuthorizationHeader := "Bearer " + token.value] else defaults;
    if options.headers.Some? then options.headers.value else withToken
  }

  // ---------------------------------------------------------------------------
  // Errors

  /** The body of a non-OK response: JSON whose `error` field may be missing, or not JSON. */
  datatype ErrorBody = JsonBody(error: Option<string>) | Unparseable

  datatype HttpResponse = HttpResponse(ok: bool, status: nat, statusText: string, body: ErrorBody)

  /** The message of the error raised for a non-OK response: the body's `error` field when it
      is non-empty; when the body does not parse, the status text in its place; otherwise
      `HTTP <status>: <statusText>`. Never empty. */
  function FailureMessage(status: nat, statusText: string, body: ErrorBody): (msg: string)
    ensures msg != ""
    ensures body.JsonBody? && IsTruthy(body.error) ==> msg == body.error.value
    ensures body.Unparseable? && statusText != "" ==> msg == statusText
    ensures (!(body.JsonBody? && IsTruthy(body.error)) && !(body.Unparseable? && statusText != ""))
      ==> msg == "HTTP " + NatToString(status) + ": " + statusText
  {
    var errorField := if body.Unparseable? then Some(statusText) else body.error;
    if IsTruthy(errorField) then errorField.value
    else "HTTP " + NatToString(status) + ": " + statusText
  }

  /** The failure `apiCall` raises for a response, if any: every non-OK response raises an
      `Error` with a non-empty message; an OK one raises nothing here. */
  function ResponseFailure(resp: HttpResponse): (f: Option<Failure>)
    ensures f.Some? <==> !resp.ok
    ensures f.Some? ==> f.value.Error? && f.value.message != ""
  {
    if resp.ok then None else Some(Error(FailureMessage(resp.status, resp.statusText, resp.body)))
  }

  // ---------------------------------------------------------------------------
  // The transaction-list query string

  datatype ParamValue = StrParam(text: string) | NumParam(n: int)

  /** One `[key, value]` of `Object.entries(filters)`; `None` is an undefined value. */
  datatype QueryEntry = QueryEntry(key: string, value: Option<ParamValue>)

  /** `value.toString()`. */
  function ParamText(v: ParamValue): string {
    match v
    case StrParam(s) => s
    case NumParam(n) => IntToString(n)
  }

  predicate IsDefined(e: QueryEntry) {
    e.value.Some?
  }

  /** The name/value pair a defined entry contributes: its key and `value.toString()`. */
  function ParamPair(e: QueryEntry): (string, string)
    requires IsDefined(e)
  {
    (e.key, ParamText(e.value.value))
  }

  /** The name/value pairs appended to the search parameters: one per entry whose value is
      not undefined, in entry order. */
  function Included(entries: seq<QueryEntry>): (ps: seq<(string, string)>)
    ensures |ps| == CountWhere(entries, IsDefined)
  {
    var kept := Filter(entries, IsDefined);
    FilterLength(entries, IsDefined);
    seq(|kept|, i requires 0 <= i < |kept| =>
      assert kept[i] in kept; ParamPair(kept[i]))
  }

  /** No entries, no pairs. */
  lemma IncludedNil()
    ensures Included([]) == []
  {
  }

  /** Entry by entry: a defined entry contributes its pair, in front of the pairs of the
      entries after it; an undefined one contributes nothing. Together with `IncludedNil`
      this fixes the pairs and their order for every input. */
  lemma IncludedCons(e: QueryEntry, rest: seq<QueryEntry>)
    ensures Included([e] + rest) == (if IsDefined(e) then [ParamPair(e)] else []) + Included(rest)
  {
    var s := [e] + rest;
    assert s[1..] == rest;
    assert Filter(s, IsDefined) == (if IsDefined(e) then [e] else []) + Filter(rest, IsDefined);
  }

  /** Every pair sent comes from a defined entry, and every defined entry is sent. */
  lemma IncludedMembership(entries: seq<QueryEntry>)
    ensures forall e :: e in entries && IsDefined(e) ==> ParamPair(e) in Included(entries)
    ensures forall p :: p in Included(entries) ==>
      exists e :: e in entries && IsDefined(e) && p == ParamPair(e)
  {
    var kept := Filter(entries, IsDefined);
    forall e | e in entries && IsDefined(e) ensures ParamPair(e) in Included(entries) {
      FilterMembership(entries, IsDefined, e);
      var i :| 0 <= i < |kept| && kept[i] == e;
      assert Included(entries)[i] == ParamPair(e);
    }
    forall p | p in Included(entries)
      ensures exists e :: e in entries && IsDefined(e) && p == ParamPair(e)
    {
      var i :| 0 <= i < |Included(entries)| && Included(entries)[i] == p;
      assert kept[i] in kept;
      assert p == ParamPair(kept[i]);
    }
  }

  /** An entry whose value is defined is sent even when that value is empty or zero: the
      pair carries the empty text or "0". */
  lemma IncludedKeepsFalsyValues(entries: seq<QueryEntry>, k: nat)
    requires k < |entries|
    requires entries[k].value == Some(StrParam("")) || entries[k].value == Some(NumParam(0))
    ensures (entries[k].key, if entries[k].value == Some(StrParam("")) then "" else "0") in Included(entries)
  {
    IncludedMembership(entries);
    assert entries[k] in entries;
    assert IntToString(0) == "0";
  }

  /** `URLSearchParams.toString()`: `name=value` pairs joined with `&`, each side passed
      through the form-urlencoding `encode`. */
  function QueryText(ps: seq<(string, string)>, encode: string -> string): (q: string)
    ensures q == "" <==> ps == []
  {
    if ps == [] then ""
    else
      var first := encode(ps[0].0) + "=" + encode(ps[0].1);
      assert first[|encode(ps[0].0)|] == '=';
      if |ps| == 1 then first else first + "&" + QueryText(ps[1..], encode)
  }

  /** The path `transactionAPI.getAll` requests. */
  function ListPath(filters: Option<seq<QueryEntry>>, encode: string -> string): (path: string)
    ensures Included(filters.GetOr([])) == [] ==> path == "/transactions"
    ensures Included(filters.GetOr([])) != [] ==>
      path == "/transactions?" + QueryText(Included(filters.GetOr([])), encode)
  {
    var query := QueryText(Included(filters.GetOr([])), encode);
    if query != "" then "/transactions?" + query else "/transactions"
  }

  /** `getAll` as written: a loop appending each defined entry to the search parameters,
      then `/transactions` with `?query` only when the query is non-empty. */
  method BuildListPath(filters: Option<seq<QueryEntry>>, encode: string -> string) returns (path: string)
    ensures path == ListPath(filters, encode)
    ensures '?' in path <==> filters.Some? && exists e :: e in filters.value && IsDefined(e)
  {
    var params: seq<(string, string)> := [];
    var entries := filters.GetOr([]);
    var i := 0;
    while i < |entries|
      invariant 0 <= i <= |entries|
      invariant params == Included(entries[..i])
    {
      FilterSnoc(entries[..i], entries[i], IsDefined);
      assert entries[..i + 1] == entries[..i] + [entries[i]];
      if entries[i].value.Some? {
        params := params + [ParamPair(entries[i])];
      }
      i := i + 1;
    }
    assert entries[..i] == entries;
    var query := QueryText(params, encode);
    path := if query != "" then "/transactions?" + query else "/transactions";
    assert "/transactions" == ['/', 't', 'r', 'a', 'n', 's', 'a', 'c', 't', 'i', 'o', 'n', 's'];
    assert ('?' in path) == (params != []) by {
      if params != [] { assert path[13] == '?'; }
    }
    FilterEmpty(entries, IsDefined);
    FilterLength(entries, IsDefined);
    if filters.Some? && exists e :: e in filters.value && IsDefined(e) {
      var e :| e in filters.value && IsDefined(e);
      FilterMembership(entries, IsDefined, e);
    }
  }

  // ---------------------------------------------------------------------------
  // Health check

  /** `${API_BASE_URL.replace('/api', '')}/health` as written: `replace` with a string pattern
      removes the FIRST `/api` anywhere in the URL, not a trailing path segment. */
  function HealthUrl(base: string): (url: string)
    ensures (forall j: nat :: !OccursAt(base, "/api", j)) ==> url == base + "/health"
    ensures forall i: nat :: FirstOccurrence(base, "/api", i)
              ==> url == base[..i] + base[i + 4..] + "/health"
  {
    RemoveFirst(base, "/api") + "/health"
  }

  /** A host whose name starts with `api.` loses the slash before it instead of the `/api`
      path: `https://api.example.com/api` gives `https:/.example.com/api/health`. A single
      witness input for the discrepancy; the all-inputs statements are `HealthUrl`'s own
      contract and `HealthUrlFixed`. */
  lemma HealthUrlCutsHost(base: string)
    requires base == "https:/" + "/api" + ".example.com/api"
    ensures HealthUrl(base) == "https:/" + ".example.com/api" + "/health"
  {
    FirstApiInHost(base);
    assert base[..7] == "https:/";
    assert base[11..] == ".example.com/api";
  }

  /** Helper for `HealthUrlCutsHost`, about that one input: the first `/api` starts at index 7,
      inside the host. */
  lemma FirstApiInHost(base: string)
    requires base == "https:/" + "/api" + ".example.com/api"
    ensures FindFrom(base, "/api", 0) == Some(7)
  {
    assert base[6] == '/' && base[7] == '/' && base[8] == 'a';
    FindFromSkips(base, "/api", 0, 6);
    assert base[6..10][1] != "/api"[1];
    FindFromMiss(base, "/api", 6);
    assert base[7..11] == "/api";
    FindFromHit(base, "/api", 7);
  }

  /** The health URL evidently intended: the base URL with a trailing `/api` segment dropped. */
  function HealthUrlFixed(base: string): (url: string)
    ensures forall root :: base == root + "/api" ==> url == root + "/health"
    ensures !(|base| >= 4 && base[|base| - 4..] == "/api") ==> url == base + "/health"
  {
    if |base| >= 4 && base[|base| - 4..] == "/api" then base[..|base| - 4] + "/health"
    else base + "/health"
  }

  /** On the default base URL `http://localhost:3001/api` the written and the intended URLs
      agree. A single-input example: it shows the discrepancy is invisible in development. */
  lemma HealthUrlDefault(base: string)
    requires base == DefaultBaseUrl
    ensures HealthUrl(base) == DevOrigin + "/health"
    ensures HealthUrlFixed(base) == DevOrigin + "/health"
  {
    FirstApiInDefault(base);
    assert base[..21] == DevOrigin;
    assert base[25..] == [];
  }

  /** Helper for `HealthUrlDefault`, about that one input: the first `/api` is the path. */
  lemma FirstApiInDefault(base: string)
    requires base == DefaultBaseUrl
    ensures FindFrom(base, "/api", 0) == Some(21)
  {
    assert base[5] == '/' && base[6] == '/' && base[7] == 'l';
    FindFromSkips(base, "/api", 0, 5);
    assert base[5..9][1] != "/api"[1];
    FindFromMiss(base, "/api", 5);
    assert base[6..10][1] != "/api"[1];
    FindFromMiss(base, "/api", 6);
    FindFromSkips(base, "/api", 7, 21);
    assert base[21..25] == "/api";
    FindFromHit(base, "/api", 21);
  }
}
