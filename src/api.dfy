/** The request helpers every page calls: the service root and URL building, the
    query-parameter merge, how a request's URL, headers and body are put together,
    how a response is turned into a result, the date label and the parameters taken
    from the signed-in user's record. The `fetch` itself and the browser's storage
    are not modelled: the parsed user record and the response are inputs. */
module Api {
  import opened Js

  const ServiceRoot := "https://flavourheaven.in/costonomy-services"

  /** The parsed `userData` record; `departments` holds each entry of the stored
      array as `Array.prototype.join` renders it (a null or undefined entry as
      the empty text), None when the array is absent or null. */
  datatype User = User(outletId: Val, id: Val, departments: Option<seq<string>>)

  /** `API_BASE_URL`: `hostname` is None outside the browser. */
  function ApiBaseUrl(hostname: Option<string>): (b: string)
    ensures b == ServiceRoot || b == ServiceRoot + "/"
    ensures b == ServiceRoot <==> hostname == Some("localhost") || hostname == Some("")
  {
    if hostname == Some("localhost") || hostname == Some("") then ServiceRoot
    else ServiceRoot + "/"
  }

  predicate EndsWithSlash(s: string) {
    |s| > 0 && s[|s| - 1] == '/'
  }

  /** The base with a '/' appended only when it is missing. */
  function WithSlash(base: string): (r: string)
    ensures EndsWithSlash(r)
    ensures EndsWithSlash(base) ==> r == base
    ensures !EndsWithSlash(base) ==> r == base + "/"
  {
    if EndsWithSlash(base) then base else base + "/"
  }

  /** The number of '/' characters `p` starts with. */
  function SlashRun(p: string): (n: nat)
    ensures n <= |p|
    ensures forall j :: 0 <= j < n ==> p[j] == '/'
    ensures n < |p| ==> p[n] != '/'
  {
    if p != [] && p[0] == '/' then 1 + SlashRun(p[1..]) else 0
  }

  /** `endpoint.replace(/^\/+/, '')` */
  function StripLeadingSlashes(p: string): (r: string)
    ensures r == p[SlashRun(p)..]
    ensures r == [] || r[0] != '/'
  {
    p[SlashRun(p)..]
  }

  /** Stripping twice strips nothing more, and extra leading slashes change
      nothing. */
  lemma {:induction false} StripIdempotent(p: string)
    ensures StripLeadingSlashes(StripLeadingSlashes(p)) == StripLeadingSlashes(p)
    ensures StripLeadingSlashes("/" + p) == StripLeadingSlashes(p)
  {
    var r := StripLeadingSlashes(p);
    assert SlashRun(r) == 0;
    assert r[0..] == r;
    assert ("/" + p)[1..] == p;
  }

  /** `buildUrl`, up to the `new URL` resolution: the base with exactly one
      slash, then the path with its leading slashes removed. */
  function BuildUrl(endpoint: string, hostname: Option<string>): (u: string)
    ensures u == ServiceRoot + "/" + StripLeadingSlashes(endpoint)
  {
    WithSlash(ApiBaseUrl(hostname)) + StripLeadingSlashes(endpoint)
  }

  /** The URL does not depend on the host the page runs on, nor on leading
      slashes in the endpoint. */
  lemma BuildUrlNormalises(endpoint: string, h1: Option<string>, h2: Option<string>)
    ensures BuildUrl(endpoint, h1) == BuildUrl(endpoint, h2)
    ensures BuildUrl("/" + endpoint, h1) == BuildUrl(endpoint, h1)
    ensures BuildUrl(endpoint, h1)[..|ServiceRoot| + 1] == ServiceRoot + "/"
  {
    StripIdempotent(endpoint);
  }

  /** A URL: its address and its search parameters (the values are the
      primitives that `searchParams.set` stringifies). */
  datatype Url = Url(address: string, query: map<string, Val>)

  /** An absolute `http...` string is used as it is; anything else is built
      against the service root. */
  function Address(url: string, hostname: Option<string>): string {
    if "http" <= url then url else BuildUrl(url, hostname)
  }

  /** `mergeQueryParams`: every key of the defaults and of the explicit
      parameters is set, one key at a time, and an explicit parameter wins. The
      query starts empty: a query already written into `url`, which `new URL`
      would keep, is not modelled, and no page passes such an endpoint. */
  method MergeQueryParams(url: string, params: map<string, Val>, defaults: map<string, Val>,
                          hostname: Option<string>) returns (u: Url)
    ensures u.address == Address(url, hostname)
    ensures u.query.Keys == defaults.Keys + params.Keys
    ensures forall k :: k in params ==> u.query[k] == params[k]
    ensures forall k :: k in defaults && k !in params ==> u.query[k] == defaults[k]
  {
    var all := defaults + params;
    var query: map<string, Val> := map[];
    var keys := all.Keys;
    while keys != {}
      invariant keys <= all.Keys
      invariant forall k :: k in query <==> k in all && k !in keys
      invariant forall k :: k in query ==> query[k] == all[k]
      decreases keys
    {
      var k :| k in keys;
      query := query[k := all[k]];
      keys := keys - {k};
    }
    u := Url(Address(url, hostname), query);
  }

  /** `getDefaultParams`: the outlet and the user id of the stored record, both 0
      without one. */
  function DefaultParams(user: Option<User>): (m: map<string, Val>)
    ensures m.Keys == {"outlet", "userId"}
    ensures user.None? ==> m["outlet"] == Number(0.0) && m["userId"] == Number(0.0)
    ensures user.Some? ==> m["outlet"] == user.value.outletId && m["userId"] == user.value.id
  {
    if user.None? then map["outlet" := Number(0.0), "userId" := Number(0.0)]
    else map["outlet" := user.value.outletId, "userId" := user.value.id]
  }

  /** `getUserDepartments`: null without a record or with an absent or empty
      array, else the comma-joined list. */
  function UserDepartments(user: Option<User>): (r: Option<string>)
    ensures r.None? <==> user.None? || user.value.departments.None? || user.value.departments.value == []
    ensures r.Some? ==> r.value == Join(user.value.departments.value, ',')
  {
    if user.Some? && user.value.departments.Some? && |user.value.departments.value| > 0 then
      Some(Join(user.value.departments.value, ','))
    else None
  }

  predicate NoComma(parts: seq<string>) {
    forall i, j :: 0 <= i < |parts| && 0 <= j < |parts[i]| ==> parts[i][j] != ','
  }

  /** The joined list splits back into the departments when no entry contains a
      comma. */
  lemma DepartmentsRoundTrip(user: User)
    requires user.departments.Some? && NoComma(user.departments.value)
    ensures UserDepartments(Some(user)).Some? ==>
      Split(UserDepartments(Some(user)).value, ',') == user.departments.value
  {
    if user.departments.value != [] {
      SplitJoin(user.departments.value, ',');
    }
  }

  /** `m` holds every key of the defaults and the data, and the data wins. */
  predicate DataWins(m: map<string, Val>, data: map<string, Val>, defaults: map<string, Val>) {
    m.Keys == defaults.Keys + data.Keys
    && (forall k :: k in data ==> m[k] == data[k])
    && (forall k :: k in defaults && k !in data ==> m[k] == defaults[k])
  }

  /** A request ready for `fetch`. */
  datatype Request = Request(verb: string, url: Url, headers: map<string, string>,
                             body: Option<map<string, Val>>)

  const DefaultHeaders: map<string, string> := map["Content-Type" := "application/json"]

  /** The request part of `apiRequest`: a GET carries the data and the defaults in
      its query and has no body; any other verb carries `{...defaults, ...data}`
      as its body. Custom headers win over the JSON content type. */
  method PrepareRequest(verb: string, endpoint: string, data: map<string, Val>,
                        customHeaders: map<string, string>, user: Option<User>,
                        hostname: Option<string>) returns (r: Request)
    ensures r.verb == verb
    ensures r.headers.Keys == DefaultHeaders.Keys + customHeaders.Keys
    ensures forall k :: k in customHeaders ==> r.headers[k] == customHeaders[k]
    ensures "Content-Type" !in customHeaders ==> r.headers["Content-Type"] == "application/json"
    ensures r.url.address == Address(endpoint, hostname)
    ensures verb == "GET" ==> r.body.None? && DataWins(r.url.query, data, DefaultParams(user))
    ensures verb != "GET" ==> r.url.query == map[] && r.body.Some?
    ensures verb != "GET" && r.body.Some? ==> DataWins(r.body.value, data, DefaultParams(user))
  {
    var defaults := DefaultParams(user);
    var url: Url;
    var body: Option<map<string, Val>> := None;
    if verb == "GET" {
      url := MergeQueryParams(endpoint, data, defaults, hostname);
    } else {
      url := Url(Address(endpoint, hostname), map[]);
      body := Some(defaults + data);
    }
    r := Request(verb, url, DefaultHeaders + customHeaders, body);
  }

  /** What `fetch` answered. */
  datatype Response = Response(ok: bool, status: nat, text: string,
                               contentType: Option<string>, json: Val)

  /** The result of `apiRequest`: a thrown error, null, or the parsed body. */
  datatype Reply = Failed(message: string) | NoContent | Body(value: Val)

  function ReplyOf(r: Response): (p: Reply)
    ensures p.Failed? <==> !r.ok
    ensures p.Failed? ==> p.message == "API error: " + NatToString(r.status) + " - " + r.text
    ensures p.NoContent? <==> r.ok && (r.status == 204 || r.contentType == None || r.contentType == Some(""))
    ensures p.Body? ==> p.value == r.json
  {
    if !r.ok then Failed("API error: " + NatToString(r.status) + " - " + r.text)
    else if r.status == 204 || r.contentType == None || r.contentType == Some("") then NoContent
    else Body(r.json)
  }

  /** The status code can be read back from the error message. */
  lemma FailedMessageNamesStatus(r: Response)
    requires !r.ok
    ensures ParseInt(ReplyOf(r).message[11..]) == Fin(r.status as real)
  {
    var m := ReplyOf(r).message;
    var d := NatToString(r.status);
    assert m[11..] == d + (" - " + r.text);
    ParseIntDigitsThen(d, " - " + r.text);
    NatToStringValue(r.status);
  }

  /** The ordinal suffix of `formatDate`. */
  function DaySuffix(day: nat): string {
    if 11 <= day <= 13 then "th"
    else if day % 10 == 1 then "st"
    else if day % 10 == 2 then "nd"
    else if day % 10 == 3 then "rd"
    else "th"
  }

  /** The English ordinal suffix: "th" for every number whose tens digit is 1,
      otherwise by the last digit. */
  function EnglishSuffix(n: nat): string {
    if n % 100 / 10 == 1 then "th"
    else match n % 10
      case 1 => "st"
      case 2 => "nd"
      case 3 => "rd"
      case _ => "th"
  }

  /** For every day of a month (indeed below 100) the suffix is the English one. */
  lemma DaySuffixIsEnglish(day: nat)
    requires day < 100
    ensures DaySuffix(day) == EnglishSuffix(day)
  {
    assert day % 100 == day;
  }

  /** `formatDate` from the day of the month, the short month name and the full
      year: `{day}{suffix} {month} {last two digits of the year}`. The label
      starts with the day, which `parseInt` reads back. */
  function FormatDate(day: nat, month: string, year: nat): (s: string)
    requires 1 <= day <= 31
    ensures s == NatToString(day) + EnglishSuffix(day) + " " + month + " " + SliceLast(NatToString(year), 2)
    ensures ParseInt(s) == Fin(day as real)
  {
    DaySuffixIsEnglish(day);
    var d := NatToString(day);
    var yy := SliceLast(NatToString(year), 2);
    var rest := Label(DaySuffix(day), month, yy);
    SuffixIsLetters(day);
    DayThenLabel(d, DaySuffix(day), month, yy);
    ParseIntDigitsThen(d, rest);
    NatToStringValue(day);
    d + rest
  }

  /** What follows the day: `{suffix} {month} {yy}`. */
  function Label(suffix: string, month: string, yy: string): (r: string)
    requires |suffix| == 2
    ensures |r| == |suffix| + |month| + |yy| + 2 && r[0] == suffix[0]
    ensures r[..2] == suffix && r[2] == ' ' && r[3..3 + |month|] == month
    ensures r[3 + |month|] == ' ' && r[4 + |month|..] == yy
  {
    suffix + " " + month + " " + yy
  }

  /** The day followed by the label is the whole template, read left to right. */
  lemma DayThenLabel(d: string, suffix: string, month: string, yy: string)
    requires |suffix| == 2
    ensures d + Label(suffix, month, yy) == d + suffix + " " + month + " " + yy
  {
  }

  lemma SuffixIsLetters(day: nat)
    ensures |DaySuffix(day)| == 2 && !IsDigit(DaySuffix(day)[0])
  {
  }
}
