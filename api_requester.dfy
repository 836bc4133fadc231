/**
 * The requester: resolves the credentials, encodes query parameters and
 * body, sends one HTTP request per page through a transport, interprets
 * the response by status and content type, flattens the page into a list
 * of records and, when asked for everything, follows pagination keys.
 *
 * The network is a `Transport` that replays a finite list of canned
 * responses and records what was sent; JSON decoding is a parameter
 * `parse` (`None` where `json.loads` raises `JSONDecodeError`).
 */
module ApiRequester {
  import opened Wrappers
  import opened PyStr
  import opened ApiException
  import opened Values

  /** `ornitho.__version__`. */
  const Version: string := "0.3.0"

  /** The `User-Agent` header sent with every request. */
  const UserAgent: string := "API Python Client/" + Version

  // ---------------------------------------------------------------------
  // Configuration

  /** Five optional settings: constructor arguments, or the module-wide defaults. */
  datatype Settings = Settings(
    consumerKey: Option<string>,
    consumerSecret: Option<string>,
    userEmail: Option<string>,
    userPw: Option<string>,
    apiBase: Option<string>)

  /** A complete configuration: every setting present and non-empty. */
  datatype Config = Config(consumerKey: string, consumerSecret: string, userEmail: string, userPw: string, apiBase: string)

  /** A setting counts as given when it is neither `None` nor empty. */
  predicate Given(o: Option<string>)
  {
    o.Some? && o.value != ""
  }

  /** `a or b` on optional strings. */
  function Either(a: Option<string>, b: Option<string>): Option<string>
  {
    if Given(a) then a else b
  }

  /** Each argument overrides its module-wide default unless it is missing or empty. */
  function Merge(args: Settings, defaults: Settings): Settings
  {
    Settings(
      Either(args.consumerKey, defaults.consumerKey),
      Either(args.consumerSecret, defaults.consumerSecret),
      Either(args.userEmail, defaults.userEmail),
      Either(args.userPw, defaults.userPw),
      Either(args.apiBase, defaults.apiBase))
  }

  function Missing(name: string): Exc
  {
    RuntimeError(name + " missing!")
  }

  /** What the requester's constructor accepts, or the `RuntimeError` it raises for the first missing setting. */
  function Configure(args: Settings, defaults: Settings): (r: Result<Config, Exc>)
    ensures var s := Merge(args, defaults);
      && (!Given(s.consumerKey) ==> r == Err(Missing("consumer_key")))
      && (Given(s.consumerKey) && !Given(s.consumerSecret) ==> r == Err(Missing("consumer_secret")))
      && (Given(s.consumerKey) && Given(s.consumerSecret) && !Given(s.userEmail) ==> r == Err(Missing("user_email")))
      && (Given(s.consumerKey) && Given(s.consumerSecret) && Given(s.userEmail) && !Given(s.userPw)
          ==> r == Err(Missing("user_pw")))
      && (Given(s.consumerKey) && Given(s.consumerSecret) && Given(s.userEmail) && Given(s.userPw) && !Given(s.apiBase)
          ==> r == Err(Missing("api_base")))
      && (r.Ok? <==> Given(s.consumerKey) && Given(s.consumerSecret) && Given(s.userEmail) && Given(s.userPw) && Given(s.apiBase))
    ensures r.Ok? ==> (r.value.consumerKey != "" && r.value.consumerSecret != "" && r.value.userEmail != ""
      && r.value.userPw != "" && r.value.apiBase != "")
  {
    var s := Merge(args, defaults);
    if !Given(s.consumerKey) then Err(Missing("consumer_key"))
    else if !Given(s.consumerSecret) then Err(Missing("consumer_secret"))
    else if !Given(s.userEmail) then Err(Missing("user_email"))
    else if !Given(s.userPw) then Err(Missing("user_pw"))
    else if !Given(s.apiBase) then Err(Missing("api_base"))
    else Ok(Config(s.consumerKey.value, s.consumerSecret.value, s.userEmail.value, s.userPw.value, s.apiBase.value))
  }

  /** A non-empty constructor argument wins over the default; an empty or missing one falls back to it. */
  lemma ArgumentsOverrideDefaults(args: Settings, defaults: Settings)
    requires Configure(args, defaults).Ok?
    ensures var c := Configure(args, defaults).value;
      && (Given(args.userEmail) ==> c.userEmail == args.userEmail.value)
      && (!Given(args.userEmail) ==> Some(c.userEmail) == defaults.userEmail)
      && (Given(args.apiBase) ==> c.apiBase == args.apiBase.value)
      && (!Given(args.apiBase) ==> Some(c.apiBase) == defaults.apiBase)
      && (Given(args.consumerKey) ==> c.consumerKey == args.consumerKey.value)
      && (!Given(args.consumerKey) ==> Some(c.consumerKey) == defaults.consumerKey)
  {
  }

  // ---------------------------------------------------------------------
  // Encoding the request

  /** `strftime("%d.%m.%Y")`. */
  function DottedDate(year: Year, month: Month, day: Day): string
  {
    Pad2(day) + "." + Pad2(month) + "." + IntToStr(year)
  }

  /** Reads `dd.mm.yyyy` back into day, month and year. */
  function ParseDottedDate(s: string): Option<(int, int, int)>
  {
    var parts := Split(s, '.');
    if |parts| != 3 then None
    else
      var d :- ParseInt(parts[0]);
      var m :- ParseInt(parts[1]);
      var y :- ParseInt(parts[2]);
      Some((y, m, d))
  }

  /** A date sent as `dd.mm.yyyy` can be read back without loss. */
  lemma DottedDateRoundTrip(year: Year, month: Month, day: Day)
    ensures ParseDottedDate(DottedDate(year, month, day)) == Some((year as int, month as int, day as int))
  {
    var parts := [Pad2(day), Pad2(month), IntToStr(year)];
    assert Join(parts, '.') == DottedDate(year, month, day) by {
      assert Join(parts[2..], '.') == IntToStr(year);
      assert Join(parts[1..], '.') == Pad2(month) + "." + IntToStr(year);
    }
    assert forall i :: 0 <= i < 3 ==> '.' !in parts[i];
    SplitJoin(parts, '.');
    DigitsParse(Pad2(day));
    DigitsParse(Pad2(month));
    IntRoundTrip(year);
  }

  /**
   * One query parameter as it is sent: a boolean becomes 1 or 0, a
   * datetime (microseconds dropped) or a date becomes `dd.mm.yyyy`, and
   * every other value is sent as it is.
   */
  function EncodeParam(v: Value): Value
  {
    match v
    case Bool(b) => Int(if b then 1 else 0)
    case DateTime(y, m, d, _, _, _, _) => Str(DottedDate(y, m, d))
    case Date(y, m, d) => Str(DottedDate(y, m, d))
    case _ => v
  }

  /** One body value as it is sent: datetimes and dates become `dd.mm.yyyy`; booleans stay booleans. */
  function EncodeBodyValue(v: Value): Value
  {
    match v
    case DateTime(y, m, d, _, _, _, _) => Str(DottedDate(y, m, d))
    case Date(y, m, d) => Str(DottedDate(y, m, d))
    case _ => v
  }

  function EncodeParams(es: Entries): (r: Entries)
    ensures |r| == |es|
    ensures forall i :: 0 <= i < |es| ==> r[i] == (es[i].0, EncodeParam(es[i].1))
  {
    seq(|es|, i requires 0 <= i < |es| => (es[i].0, EncodeParam(es[i].1)))
  }

  function EncodeBody(es: Entries): (r: Entries)
    ensures |r| == |es|
    ensures forall i :: 0 <= i < |es| ==> r[i] == (es[i].0, EncodeBodyValue(es[i].1))
  {
    seq(|es|, i requires 0 <= i < |es| => (es[i].0, EncodeBodyValue(es[i].1)))
  }

  /** The rewritten values are left as they are by a second rewrite, so a follow-up page sends the same parameters. */
  lemma EncodingIsIdempotent(es: Entries)
    ensures EncodeParams(EncodeParams(es)) == EncodeParams(es)
    ensures EncodeBody(EncodeBody(es)) == EncodeBody(es)
  {
  }

  /** Rewriting keeps the keys, so a dictionary with unique keys keeps them unique. */
  lemma {:induction false} EncodeParamsKeys(es: Entries, k: string)
    ensures Keys(EncodeParams(es)) == Keys(es)
    ensures Lookup(EncodeParams(es), k) == if HasKey(es, k) then Some(EncodeParam(Lookup(es, k).value)) else None
    ensures UniqueKeys(es) ==> UniqueKeys(EncodeParams(es))
    decreases |es|
  {
    if es != [] {
      assert EncodeParams(es)[1..] == EncodeParams(es[1..]);
      EncodeParamsKeys(es[1..], k);
    }
  }

  /** The credentials, the pagination key when given, and `short_version=1` when asked for. */
  function BaseQuery(config: Config, paginationKey: Option<string>, shortVersion: bool): Entries
  {
    var credentials := [("user_email", Str(config.userEmail)), ("user_pw", Str(config.userPw))];
    var paged := if Given(paginationKey) then Put(credentials, "pagination_key", Str(paginationKey.value)) else credentials;
    if shortVersion then Put(paged, "short_version", Int(1)) else paged
  }

  /** The query parameters of a request: the base query, then every caller parameter, rewritten. */
  function Query(config: Config, paginationKey: Option<string>, shortVersion: bool, params: Option<Entries>): Entries
  {
    PutAll(BaseQuery(config, paginationKey, shortVersion), if params.Some? then EncodeParams(params.value) else [])
  }

  /** The body sent: the rewritten dictionary, or nothing when there is no body or it is empty. */
  function Payload(body: Option<Entries>): Option<Entries>
  {
    if body.Some? && body.value != [] then Some(EncodeBody(body.value)) else None
  }

  /** The base query holds the credentials, the pagination key when given, and the short-version flag when set. */
  lemma BaseQueryContents(config: Config, paginationKey: Option<string>, shortVersion: bool)
    ensures var q := BaseQuery(config, paginationKey, shortVersion);
      && Lookup(q, "user_email") == Some(Str(config.userEmail))
      && Lookup(q, "user_pw") == Some(Str(config.userPw))
      && Lookup(q, "pagination_key") == (if Given(paginationKey) then Some(Str(paginationKey.value)) else None)
      && Lookup(q, "short_version") == (if shortVersion then Some(Int(1)) else None)
      && UniqueKeys(q)
  {
    var credentials := [("user_email", Str(config.userEmail)), ("user_pw", Str(config.userPw))];
    assert Keys(credentials[1..]) == ["user_pw"];
    assert UniqueKeys(credentials);
  }

  /** A caller parameter is sent rewritten; a name the caller did not set keeps the base query's value. */
  lemma QueryLookup(config: Config, paginationKey: Option<string>, shortVersion: bool, params: Entries, k: string)
    requires UniqueKeys(params)
    ensures Lookup(Query(config, paginationKey, shortVersion, Some(params)), k)
      == if HasKey(params, k) then Some(EncodeParam(Lookup(params, k).value))
         else Lookup(BaseQuery(config, paginationKey, shortVersion), k)
  {
    EncodeParamsKeys(params, k);
    PutAllLookup(BaseQuery(config, paginationKey, shortVersion), EncodeParams(params), k);
  }

  /**
   * The query carries the caller's parameters, rewritten, and the
   * credentials, the pagination key and the short-version flag wherever the
   * caller did not set the same name.
   */
  lemma QueryContents(config: Config, paginationKey: Option<string>, shortVersion: bool, params: Entries, k: string)
    requires UniqueKeys(params)
    ensures var q := Query(config, paginationKey, shortVersion, Some(params));
      && (HasKey(params, k) ==> Lookup(q, k) == Some(EncodeParam(Lookup(params, k).value)))
      && (!HasKey(params, "user_email") ==> Lookup(q, "user_email") == Some(Str(config.userEmail)))
      && (!HasKey(params, "user_pw") ==> Lookup(q, "user_pw") == Some(Str(config.userPw)))
      && (!HasKey(params, "pagination_key") ==>
            Lookup(q, "pagination_key") == if Given(paginationKey) then Some(Str(paginationKey.value)) else None)
      && (!HasKey(params, "short_version") ==> Lookup(q, "short_version") == if shortVersion then Some(Int(1)) else None)
  {
    BaseQueryContents(config, paginationKey, shortVersion);
    QueryLookup(config, paginationKey, shortVersion, params, k);
    QueryLookup(config, paginationKey, shortVersion, params, "user_email");
    QueryLookup(config, paginationKey, shortVersion, params, "user_pw");
    QueryLookup(config, paginationKey, shortVersion, params, "pagination_key");
    QueryLookup(config, paginationKey, shortVersion, params, "short_version");
  }

  /** One HTTP request as the transport receives it. */
  datatype SentRequest = SentRequest(
    method_: string,
    url: string,
    query: Entries,
    body: Option<Entries>,
    userAgent: string)

  /** The request `request_raw` sends for these arguments. */
  function Outgoing(config: Config, method_: string, url: string, paginationKey: Option<string>, shortVersion: bool,
                    params: Option<Entries>, body: Option<Entries>): SentRequest
  {
    SentRequest(method_, config.apiBase + url, Query(config, paginationKey, shortVersion, params), Payload(body), UserAgent)
  }

  // ---------------------------------------------------------------------
  // Interpreting the response

  /** An HTTP response as the transport delivers it. */
  datatype RawResponse = RawResponse(
    statusCode: int,
    reason: string,
    headers: seq<(string, string)>,
    text: string,
    content: seq<bv8>)

  /** Header lookup ignores the case of the header name, as the HTTP library's header dictionary does. */
  function Header(headers: seq<(string, string)>, name: string): Option<string>
  {
    if headers == [] then None
    else if LowerAscii(headers[0].0) == LowerAscii(name) then Some(headers[0].1)
    else Header(headers[1..], name)
  }

  /** The exception raised for a status outside 2xx. */
  function ErrorFor(response: RawResponse): (e: Exc)
    ensures e.Api?
    ensures response.statusCode == 401 <==> e.error.cls == AuthenticationException
    ensures response.statusCode == 504 <==> e.error.cls == GatewayTimeoutException
    ensures response.statusCode != 401 && response.statusCode != 504 <==> e.error.cls == APIHttpException
    ensures e.error.payload == FromResponse(Response(response.statusCode, response.reason, response.text))
  {
    var r := Response(response.statusCode, response.reason, response.text);
    if response.statusCode == 401 then Api(ApiError(AuthenticationException, FromResponse(r)))
    else if response.statusCode == 504 then Api(ApiError(GatewayTimeoutException, FromResponse(r)))
    else Api(ApiError(APIHttpException, FromResponse(r)))
  }

  const JsonType: string := "application/json; charset=utf-8"
  const PdfType: string := "application/pdf"
  const HtmlType: string := "text/html; charset=UTF-8"

  /** The pagination key of a response: the header's value, with an empty value read as none. */
  function NextKey(response: RawResponse): (k: Option<string>)
    ensures k.Some? ==> Given(k)
  {
    var h := Header(response.headers, "pagination_key");
    if h.Some? && h.value != "" then h else None
  }

  /** What `request_raw` returns for a response, or raises. */
  function Receive(response: RawResponse, parse: string -> Option<Value>): (r: Result<(Value, Option<string>), Exc>)
    ensures !(200 <= response.statusCode < 300) ==> r == Err(ErrorFor(response))
    ensures r.Ok? ==> r.value.1 == NextKey(response)
    ensures 200 <= response.statusCode < 300 && Header(response.headers, "Content-Type") == Some(PdfType)
      ==> r == Ok((Bytes(response.content), NextKey(response)))
    ensures 200 <= response.statusCode < 300 && Header(response.headers, "Content-Type") == Some(HtmlType)
      ==> r == Ok((Str(response.text), NextKey(response)))
    ensures 200 <= response.statusCode < 300 && Header(response.headers, "Content-Type") !in {Some(JsonType), Some(PdfType), Some(HtmlType)}
      ==> r.Err? && r.error.Api? && r.error.error.cls == ContentTypeException
  {
    if !(200 <= response.statusCode < 300) then Err(ErrorFor(response))
    else
      var key := NextKey(response);
      var contentType := Header(response.headers, "Content-Type");
      var rejected := Api(ApiError(ContentTypeException, FromResponse(Response(response.statusCode, response.reason, response.text))));
      if contentType == Some(JsonType) then
        match parse(response.text)
        case Some(v) => Ok((v, key))
        case None =>
          match parse(DropFirstLine(response.text))
          case Some(v) => Ok((v, key))
          case None => Err(JSONDecodeError)
      else if contentType == Some(PdfType) then Ok((Bytes(response.content), key))
      else if contentType == Some(HtmlType) then Ok((Str(response.text), key))
      else Err(rejected)
  }

  /**
   * A JSON body is decoded as it is; failing that, without its first line;
   * failing that too, decoding fails.
   */
  lemma JsonFallback(response: RawResponse, parse: string -> Option<Value>)
    requires 200 <= response.statusCode < 300 && Header(response.headers, "Content-Type") == Some(JsonType)
    ensures parse(response.text).Some? ==> Receive(response, parse) == Ok((parse(response.text).value, NextKey(response)))
    ensures parse(response.text).None? && parse(DropFirstLine(response.text)).Some?
      ==> Receive(response, parse) == Ok((parse(DropFirstLine(response.text)).value, NextKey(response)))
    ensures parse(response.text).None? && parse(DropFirstLine(response.text)).None?
      ==> Receive(response, parse) == Err(JSONDecodeError)
  {
  }

  /** The exception raised when no response arrives. */
  const ConnectionLost: Exc := ApiMessage(APIConnectionException, "no response received")

  /** What `request_raw` returns when it may or may not get a response. */
  function Exchange1(response: Option<RawResponse>, parse: string -> Option<Value>): Result<(Value, Option<string>), Exc>
  {
    if response.None? then Err(ConnectionLost) else Receive(response.value, parse)
  }

  // ---------------------------------------------------------------------
  // Flattening a page into records

  /** A page: the bytes of a PDF, or a list of records. */
  datatype Page = PageBytes(octets: seq<bv8>) | Records(items: seq<Value>)

  /** Two lists of records concatenated, or the first failure of the two. */
  function Cat(a: Result<seq<Value>, Exc>, b: Result<seq<Value>, Exc>): Result<seq<Value>, Exc>
  {
    if a.Err? then Err(a.error) else if b.Err? then Err(b.error) else Ok(a.value + b.value)
  }

  /** One record, or the failure that produced none. */
  function One(x: Result<Value, Exc>): Result<seq<Value>, Exc>
  {
    if x.Err? then Err(x.error) else Ok([x.value])
  }

  /**
   * The records of one form: every sighting of the form, each given a
   * `form` entry holding a copy of the form with the date of its first
   * sighting as `day` and without its sightings.
   */
  function FormRecords(form: Value): Result<seq<Value>, Exc>
  {
    var sightings :- GetItem(form, Str("sightings"));
    var first :- GetItem(sightings, Int(0));
    var day :- GetItem(first, Str("date"));
    var withDay :- SetItem(form, "day", day);
    var summary :- DelItem(withDay, "sightings");
    var each :- Iterate(sightings);
    Tagged(each, summary)
  }

  /** Each sighting with `form` set to the summary. */
  function Tagged(sightings: seq<Value>, summary: Value): (r: Result<seq<Value>, Exc>)
    ensures r.Ok? ==> |r.value| == |sightings|
  {
    if sightings == [] then Ok([])
    else Cat(One(SetItem(sightings[0], "form", summary)), Tagged(sightings[1..], summary))
  }

  /** The records of a list of forms, form after form. */
  function FormsRecords(forms: seq<Value>): Result<seq<Value>, Exc>
  {
    if forms == [] then Ok([])
    else Cat(FormRecords(forms[0]), FormsRecords(forms[1..]))
  }

  /** The records under a `data` object: its `sightings`, then the sightings of its `forms`. */
  function DataRecords(data: Entries): Result<seq<Value>, Exc>
  {
    Cat(if HasKey(data, "sightings") then Iterate(Lookup(data, "sightings").value) else Ok([]),
        FormsOf(data))
  }

  function FormsOf(data: Entries): Result<seq<Value>, Exc>
  {
    if HasKey(data, "forms") then
      var forms :- Iterate(Lookup(data, "forms").value);
      FormsRecords(forms)
    else Ok([])
  }

  /**
   * The list `request` builds from one decoded response: a PDF is passed
   * through; a JSON list is the records; a JSON object with `data` gives
   * the records under it; any other value is a single record.
   */
  function Collect(responds: Value): Result<Page, Exc>
  {
    if responds.Bytes? then Ok(PageBytes(responds.octets))
    else if responds.List? then Ok(Records(responds.items))
    else if responds.Dict? && HasKey(responds.entries, "data") then
      var data := Lookup(responds.entries, "data").value;
      var items :- if data.Dict? then DataRecords(data.entries) else Iterate(data);
      Ok(Records(items))
    else Ok(Records([responds]))
  }

  /** A form as the server sends it: a dictionary whose sightings are dictionaries, the first of them dated. */
  predicate WellFormedForm(form: Value)
  {
    && form.Dict? && UniqueKeys(form.entries)
    && HasKey(form.entries, "sightings")
    && var ss := Lookup(form.entries, "sightings").value;
    && ss.List? && |ss.items| > 0
    && (forall j :: 0 <= j < |ss.items| ==> ss.items[j].Dict?)
    && HasKey(ss.items[0].entries, "date")
  }

  /** The copy of a form attached to each of its sightings. */
  function Summary(form: Value): Value
    requires WellFormedForm(form)
  {
    var ss := Lookup(form.entries, "sightings").value;
    var day := Lookup(ss.items[0].entries, "date").value;
    Dict(Remove(Put(form.entries, "day", day), "sightings"))
  }

  /**
   * A well-formed form yields exactly its sightings, in order, each with
   * `form` set to a summary that has the first sighting's date as `day`,
   * no `sightings`, and every other entry of the form unchanged.
   */
  lemma FormRecordsOfWellFormed(form: Value)
    requires WellFormedForm(form)
    ensures var ss := Lookup(form.entries, "sightings").value.items;
      var r := FormRecords(form);
      && r.Ok? && |r.value| == |ss|
      && forall j :: 0 <= j < |ss| ==> r.value[j] == Dict(Put(ss[j].entries, "form", Summary(form)))
    ensures var s := Summary(form);
      && Lookup(s.entries, "day") == Some(Lookup(Lookup(form.entries, "sightings").value.items[0].entries, "date").value)
      && !HasKey(s.entries, "sightings")
      && forall k :: k != "day" && k != "sightings" ==> Lookup(s.entries, k) == Lookup(form.entries, k)
  {
    var sightings := Lookup(form.entries, "sightings").value;
    var ss := sightings.items;
    assert GetItem(form, Str("sightings")) == Ok(sightings);
    assert GetItem(sightings, Int(0)) == Ok(ss[0]);
    var day := Lookup(ss[0].entries, "date").value;
    assert GetItem(ss[0], Str("date")) == Ok(day);
    var withDay := Dict(Put(form.entries, "day", day));
    assert SetItem(form, "day", day) == Ok(withDay);
    assert HasKey(withDay.entries, "sightings");
    assert DelItem(withDay, "sightings") == Ok(Summary(form));
    assert Iterate(sightings) == Ok(ss);
    assert FormRecords(form) == Tagged(ss, Summary(form));
    TaggedDicts(ss, Summary(form));
  }

  /** Tagging sightings that are all dictionaries succeeds and sets `form` in each. */
  lemma {:induction false} TaggedDicts(ss: seq<Value>, summary: Value)
    requires forall j :: 0 <= j < |ss| ==> ss[j].Dict?
    ensures var r := Tagged(ss, summary);
      && r.Ok? && |r.value| == |ss|
      && forall j :: 0 <= j < |ss| ==> r.value[j] == Dict(Put(ss[j].entries, "form", summary))
    decreases |ss|
  {
    if ss != [] {
      TaggedDicts(ss[1..], summary);
      var rest := Tagged(ss[1..], summary).value;
      var first := Dict(Put(ss[0].entries, "form", summary));
      assert SetItem(ss[0], "form", summary) == Ok(first);
      assert Tagged(ss, summary) == Ok([first] + rest);
      var g := (v: Value) => if v.Dict? then Dict(Put(v.entries, "form", summary)) else v;
      MapCons(ss, g, first, rest);
    }
  }

  /** A first image followed by the images of the rest are the images of the whole list. */
  lemma MapCons(ss: seq<Value>, g: Value -> Value, first: Value, rest: seq<Value>)
    requires ss != [] && first == g(ss[0]) && |rest| == |ss| - 1
    requires forall j :: 0 <= j < |ss| - 1 ==> rest[j] == g(ss[1..][j])
    ensures forall j :: 0 <= j < |ss| ==> ([first] + rest)[j] == g(ss[j])
  {
    forall j | 1 <= j < |ss|
      ensures ([first] + rest)[j] == g(ss[j])
    {
      assert ([first] + rest)[j] == rest[j - 1];
      assert ss[1..][j - 1] == ss[j];
    }
  }

  /** `prefix` with the records of `rest` appended, or the failure of `rest`. */
  function Then(prefix: seq<Value>, rest: Result<seq<Value>, Exc>): Result<seq<Value>, Exc>
  {
    if rest.Ok? then Ok(prefix + rest.value) else Err(rest.error)
  }

  /** Appending a concatenation is appending its first part, then its second. */
  lemma ThenCat(out: seq<Value>, a: Result<seq<Value>, Exc>, b: Result<seq<Value>, Exc>)
    ensures a.Ok? ==> Then(out, Cat(a, b)) == Then(out + a.value, b)
    ensures a.Err? ==> Then(out, Cat(a, b)) == Err(a.error)
  {
    if a.Ok? && b.Ok? {
      assert out + (a.value + b.value) == (out + a.value) + b.value;
    }
  }

  /** The sightings of one form appended to `data`, each tagged with the form's summary. */
  method AppendTagged(data: seq<Value>, sightings: seq<Value>, summary: Value) returns (r: Result<seq<Value>, Exc>)
    ensures r == Then(data, Tagged(sightings, summary))
  {
    var out := data;
    var j := 0;
    while j < |sightings|
      invariant 0 <= j <= |sightings|
      invariant Then(data, Tagged(sightings, summary)) == Then(out, Tagged(sightings[j..], summary))
    {
      assert sightings[j..][1..] == sightings[j + 1..];
      var tagged := SetItem(sightings[j], "form", summary);
      ThenCat(out, One(tagged), Tagged(sightings[j + 1..], summary));
      if tagged.Err? {
        return Err(tagged.error);
      }
      out := out + [tagged.value];
      j := j + 1;
    }
    assert sightings[j..] == [];
    assert out + [] == out;
    return Ok(out);
  }

  /** The records of one form appended to `data`, in the steps of the client's inner loop. */
  method AppendForm(data: seq<Value>, form: Value) returns (r: Result<seq<Value>, Exc>)
    ensures r == Then(data, FormRecords(form))
  {
    var sightings :- GetItem(form, Str("sightings"));
    var first :- GetItem(sightings, Int(0));
    var day :- GetItem(first, Str("date"));
    var withDay :- SetItem(form, "day", day);
    var summary :- DelItem(withDay, "sightings");
    var each := Iterate(sightings).value;
    r := AppendTagged(data, each, summary);
  }

  /** The records of every form appended to `data`, form after form. */
  method AppendForms(data: seq<Value>, forms: seq<Value>) returns (r: Result<seq<Value>, Exc>)
    ensures r == Then(data, FormsRecords(forms))
  {
    var out := data;
    var i := 0;
    while i < |forms|
      invariant 0 <= i <= |forms|
      invariant Then(data, FormsRecords(forms)) == Then(out, FormsRecords(forms[i..]))
    {
      assert forms[i..][1..] == forms[i + 1..];
      ThenCat(out, FormRecords(forms[i]), FormsRecords(forms[i + 1..]));
      var next := AppendForm(out, forms[i]);
      if next.Err? {
        return Err(next.error);
      }
      out := next.value;
      i := i + 1;
    }
    assert forms[i..] == [];
    assert out + [] == out;
    return Ok(out);
  }

  /**
   * `request`'s flattening of one decoded response, in the steps of the
   * client: records are gathered into `data`.
   */
  method Unpack(responds: Value) returns (r: Result<Page, Exc>)
    ensures r == Collect(responds)
  {
    if responds.Bytes? {
      return Ok(PageBytes(responds.octets));
    } else if responds.List? {
      return Ok(Records(responds.items));
    } else if responds.Dict? && HasKey(responds.entries, "data") {
      var payload := Lookup(responds.entries, "data").value;
      if !payload.Dict? {
        var items :- Iterate(payload);
        return Ok(Records(items));
      }
      ghost var fromSightings := if HasKey(payload.entries, "sightings") then Iterate(Lookup(payload.entries, "sightings").value) else Ok([]);
      ghost var fromForms := FormsOf(payload.entries);
      var data: seq<Value> := [];
      if HasKey(payload.entries, "sightings") {
        var items :- Iterate(Lookup(payload.entries, "sightings").value);
        data := data + items;
      }
      ThenCat([], fromSightings, fromForms);
      if HasKey(payload.entries, "forms") {
        var forms :- Iterate(Lookup(payload.entries, "forms").value);
        data :- AppendForms(data, forms);
      } else {
        assert data + [] == data;
      }
      assert Then([], DataRecords(payload.entries)) == Ok(data);
      assert [] + DataRecords(payload.entries).value == DataRecords(payload.entries).value;
      assert DataRecords(payload.entries) == Ok(data);
      return Ok(Records(data));
    } else {
      return Ok(Records([responds]));
    }
  }

  // ---------------------------------------------------------------------
  // Paging

  /** What a whole `request` call amounts to: its outcome, the requests sent, the responses left. */
  datatype Exchange = Exchange(result: Result<(Page, Option<string>), Exc>, sent: seq<SentRequest>, remaining: seq<RawResponse>)

  function EncodedParams(params: Option<Entries>): Option<Entries>
  {
    if params.Some? then Some(EncodeParams(params.value)) else None
  }

  function EncodedBody(body: Option<Entries>): Option<Entries>
  {
    if body.Some? then Some(EncodeBody(body.value)) else None
  }

  const BytesWhereJsonExpected: Exc := ApiMessage(APIException, "Received bytes content, where json was expected")

  /**
   * `request`: one request for this page; when the page is a non-empty
   * list of records, the response names a next page and everything was
   * asked for, the records of the following pages are appended. The
   * pagination key returned is the one of the first page.
   */
  function Fetch(config: Config, method_: string, url: string, paginationKey: Option<string>, shortVersion: bool,
                 requestAll: bool, params: Option<Entries>, body: Option<Entries>,
                 pending: seq<RawResponse>, parse: string -> Option<Value>): Exchange
    decreases |pending|
  {
    var req := Outgoing(config, LowerAscii(method_), url, paginationKey, shortVersion, params, body);
    if pending == [] then Exchange(Err(ConnectionLost), [req], [])
    else
      var got := Interpret(pending[0], parse);
      if got.Ok? && FollowsUp(got.value, requestAll) then
        var more := Fetch(config, method_, url, got.value.1, shortVersion, requestAll,
                          EncodedParams(params), EncodedBody(body), pending[1..], parse);
        Exchange(Combine(got.value, more.result), [req] + more.sent, more.remaining)
      else Exchange(got, [req], pending[1..])
  }

  /** `Fetch` when the first page is followed by the next. */
  lemma FetchFollows(config: Config, method_: string, url: string, paginationKey: Option<string>, shortVersion: bool,
                     requestAll: bool, params: Option<Entries>, body: Option<Entries>,
                     pending: seq<RawResponse>, parse: string -> Option<Value>)
    requires pending != [] && Interpret(pending[0], parse).Ok? && FollowsUp(Interpret(pending[0], parse).value, requestAll)
    ensures var got := Interpret(pending[0], parse).value;
      var more := Fetch(config, method_, url, got.1, shortVersion, requestAll, EncodedParams(params), EncodedBody(body), pending[1..], parse);
      Fetch(config, method_, url, paginationKey, shortVersion, requestAll, params, body, pending, parse)
        == Exchange(Combine(got, more.result),
                    [Outgoing(config, LowerAscii(method_), url, paginationKey, shortVersion, params, body)] + more.sent,
                    more.remaining)
  {
  }

  lemma SeqAssoc<T>(a: seq<T>, b: seq<T>, c: seq<T>)
    ensures (a + b) + c == a + (b + c)
  {
  }

  /** One response read and flattened: the page and the pagination key it names. */
  function Interpret(response: RawResponse, parse: string -> Option<Value>): Result<(Page, Option<string>), Exc>
  {
    var received :- Receive(response, parse);
    var page :- Collect(received.0);
    Ok((page, received.1))
  }

  /** Whether a page is followed by the next: records, not none of them, a next key, and everything asked for. */
  predicate FollowsUp(got: (Page, Option<string>), requestAll: bool)
  {
    got.0.Records? && Given(got.1) && requestAll && |got.0.items| > 0
  }

  /** This page's records followed by those of the following pages, under this page's key. */
  function Combine(got: (Page, Option<string>), more: Result<(Page, Option<string>), Exc>): Result<(Page, Option<string>), Exc>
    requires got.0.Records?
  {
    if more.Err? then Err(more.error)
    else if more.value.0.PageBytes? then Err(BytesWhereJsonExpected)
    else Ok((Records(got.0.items + more.value.0.items), got.1))
  }

  /** A follow-up request carries the same rewritten parameters and body as the first: rewriting twice changes nothing. */
  lemma FollowUpSendsSameData(config: Config, paginationKey: Option<string>, shortVersion: bool,
                              params: Option<Entries>, body: Option<Entries>)
    ensures Query(config, paginationKey, shortVersion, EncodedParams(params)) == Query(config, paginationKey, shortVersion, params)
    ensures Payload(EncodedBody(body)) == Payload(body)
  {
    if params.Some? {
      EncodingIsIdempotent(params.value);
    }
    if body.Some? {
      EncodingIsIdempotent(body.value);
    }
  }

  /** Without `request_all`, or on a page that names no next page, exactly one request is sent. */
  lemma SinglePage(config: Config, method_: string, url: string, paginationKey: Option<string>, shortVersion: bool,
                   requestAll: bool, params: Option<Entries>, body: Option<Entries>,
                   pending: seq<RawResponse>, parse: string -> Option<Value>)
    requires pending != []
    requires !requestAll || NextKey(pending[0]).None?
    ensures var x := Fetch(config, method_, url, paginationKey, shortVersion, requestAll, params, body, pending, parse);
      && x.sent == [Outgoing(config, LowerAscii(method_), url, paginationKey, shortVersion, params, body)]
      && x.remaining == pending[1..]
      && x.result == Interpret(pending[0], parse)
  {
    var got := Interpret(pending[0], parse);
    if got.Ok? {
      assert got.value.1 == NextKey(pending[0]);
    }
  }

  /** More than one request is sent exactly when the first page is followed by the next. */
  lemma FollowUpIff(config: Config, method_: string, url: string, paginationKey: Option<string>, shortVersion: bool,
                    requestAll: bool, params: Option<Entries>, body: Option<Entries>,
                    pending: seq<RawResponse>, parse: string -> Option<Value>)
    ensures var x := Fetch(config, method_, url, paginationKey, shortVersion, requestAll, params, body, pending, parse);
      |x.sent| > 1 <==> pending != [] && Interpret(pending[0], parse).Ok? && FollowsUp(Interpret(pending[0], parse).value, requestAll)
  {
    if pending != [] && Interpret(pending[0], parse).Ok? && FollowsUp(Interpret(pending[0], parse).value, requestAll) {
      FetchSameAddress(config, method_, url, Interpret(pending[0], parse).value.1, shortVersion, requestAll,
                 EncodedParams(params), EncodedBody(body), pending[1..], parse);
    }
  }

  /** Every request in `sent` uses method `m` on `address`, with the client's user agent. */
  predicate AllTo(sent: seq<SentRequest>, m: string, address: string)
  {
    forall i :: 0 <= i < |sent| ==> sent[i].method_ == m && sent[i].url == address && sent[i].userAgent == UserAgent
  }

  lemma AllToCons(req: SentRequest, more: seq<SentRequest>, m: string, address: string)
    requires req.method_ == m && req.url == address && req.userAgent == UserAgent
    requires AllTo(more, m, address)
    ensures AllTo([req] + more, m, address)
  {
    forall i | 1 <= i < |[req] + more|
      ensures ([req] + more)[i] == more[i - 1]
    {
    }
  }

  /** Every request of a `request` call goes to the same address with the same method, in lower case. */
  lemma {:induction false} FetchSameAddress(config: Config, method_: string, url: string, paginationKey: Option<string>,
                                            shortVersion: bool, requestAll: bool, params: Option<Entries>, body: Option<Entries>,
                                            pending: seq<RawResponse>, parse: string -> Option<Value>)
    ensures var x := Fetch(config, method_, url, paginationKey, shortVersion, requestAll, params, body, pending, parse);
      |x.sent| >= 1 && AllTo(x.sent, LowerAscii(method_), config.apiBase + url)
    decreases |pending|
  {
    if pending != [] {
      var got := Interpret(pending[0], parse);
      if got.Ok? && FollowsUp(got.value, requestAll) {
        var more := Fetch(config, method_, url, got.value.1, shortVersion, requestAll, EncodedParams(params), EncodedBody(body), pending[1..], parse);
        FetchSameAddress(config, method_, url, got.value.1, shortVersion, requestAll, EncodedParams(params), EncodedBody(body), pending[1..], parse);
        FetchFollows(config, method_, url, paginationKey, shortVersion, requestAll, params, body, pending, parse);
        AllToCons(Outgoing(config, LowerAscii(method_), url, paginationKey, shortVersion, params, body), more.sent,
                  LowerAscii(method_), config.apiBase + url);
      }
    }
  }

  /**
   * How the requests of an exchange consume `pending`: one response each,
   * the rest left in order, except a last request left without any, which
   * fails with a connection error.
   */
  predicate Consumes(x: Exchange, pending: seq<RawResponse>)
  {
    && |x.sent| >= 1
    && |x.remaining| <= |pending|
    && x.remaining == pending[|pending| - |x.remaining|..]
    && (|x.sent| + |x.remaining| == |pending|
        || (|x.sent| + |x.remaining| == |pending| + 1 && x.remaining == [] && x.result == Err(ConnectionLost)))
  }

  lemma ConsumesCons(req: SentRequest, result: Result<(Page, Option<string>), Exc>, more: Exchange, pending: seq<RawResponse>)
    requires pending != [] && Consumes(more, pending[1..])
    requires more.result.Err? ==> result == more.result
    ensures Consumes(Exchange(result, [req] + more.sent, more.remaining), pending)
  {
    assert pending[1..][|pending| - 1 - |more.remaining|..] == pending[|pending| - |more.remaining|..];
  }

  /** Each request of a `request` call consumes one response, and running out of responses fails with a connection error. */
  lemma {:induction false} FetchSends(config: Config, method_: string, url: string, paginationKey: Option<string>, shortVersion: bool,
                                      requestAll: bool, params: Option<Entries>, body: Option<Entries>,
                                      pending: seq<RawResponse>, parse: string -> Option<Value>)
    ensures Consumes(Fetch(config, method_, url, paginationKey, shortVersion, requestAll, params, body, pending, parse), pending)
    decreases |pending|
  {
    if pending != [] {
      var got := Interpret(pending[0], parse);
      if got.Ok? && FollowsUp(got.value, requestAll) {
        var more := Fetch(config, method_, url, got.value.1, shortVersion, requestAll, EncodedParams(params), EncodedBody(body), pending[1..], parse);
        FetchSends(config, method_, url, got.value.1, shortVersion, requestAll, EncodedParams(params), EncodedBody(body), pending[1..], parse);
        FetchFollows(config, method_, url, paginationKey, shortVersion, requestAll, params, body, pending, parse);
        ConsumesCons(Outgoing(config, LowerAscii(method_), url, paginationKey, shortVersion, params, body),
                     Combine(got.value, more.result), more, pending);
      }
    }
  }

  /**
   * A successful run that follows pages returns this page's records
   * followed by those of the later pages, and the pagination key of the
   * first page; a PDF where records were expected fails the whole call.
   */
  lemma PagesConcatenate(config: Config, method_: string, url: string, paginationKey: Option<string>, shortVersion: bool,
                         requestAll: bool, params: Option<Entries>, body: Option<Entries>,
                         pending: seq<RawResponse>, parse: string -> Option<Value>)
    requires pending != [] && Interpret(pending[0], parse).Ok? && FollowsUp(Interpret(pending[0], parse).value, requestAll)
    ensures var first := Interpret(pending[0], parse).value;
      var x := Fetch(config, method_, url, paginationKey, shortVersion, requestAll, params, body, pending, parse);
      var more := Fetch(config, method_, url, first.1, shortVersion, requestAll, EncodedParams(params), EncodedBody(body), pending[1..], parse);
      && (x.result.Ok? ==> (x.result.value.0.Records?
            && x.result.value.0.items == first.0.items + more.result.value.0.items
            && x.result.value.1 == first.1))
      && (more.result.Ok? && more.result.value.0.PageBytes? ==> x.result == Err(BytesWhereJsonExpected))
      && (more.result.Err? ==> x.result == more.result)
  {
  }

  /** The pagination key a call returns is the one its first page named, whatever the later pages say. */
  lemma KeyOfFirstPage(config: Config, method_: string, url: string, paginationKey: Option<string>, shortVersion: bool,
                       requestAll: bool, params: Option<Entries>, body: Option<Entries>,
                       pending: seq<RawResponse>, parse: string -> Option<Value>)
    requires pending != []
    ensures var x := Fetch(config, method_, url, paginationKey, shortVersion, requestAll, params, body, pending, parse);
      x.result.Ok? ==> Interpret(pending[0], parse).Ok? && x.result.value.1 == NextKey(pending[0])
  {
  }

  /** The transport: canned responses replayed in order, and a log of what was sent. */
  class Transport {
    var pending: seq<RawResponse>
    var sent: seq<SentRequest>

    constructor (responses: seq<RawResponse>)
      ensures pending == responses && sent == []
    {
      pending := responses;
      sent := [];
    }

    /** Sends one request and takes the next canned response, if there is one. */
    method Send(request: SentRequest) returns (response: Option<RawResponse>)
      modifies this
      ensures sent == old(sent) + [request]
      ensures old(pending) == [] ==> response == None && pending == []
      ensures old(pending) != [] ==> response == Some(old(pending)[0]) && pending == old(pending)[1..]
    {
      sent := sent + [request];
      if pending == [] {
        response := None;
      } else {
        response := Some(pending[0]);
        pending := pending[1..];
      }
    }
  }

  /**
   * The loop over the caller's parameters: each value is rewritten in the
   * caller's dictionary and assigned into the query.
   */
  method EncodeParamsInPlace(params: PyDict, query: Entries) returns (q: Entries)
    modifies params
    ensures params.entries == EncodeParams(old(params.entries))
    ensures q == PutAll(query, EncodeParams(old(params.entries)))
  {
    ghost var original := params.entries;
    ghost var encoded := EncodeParams(original);
    q := query;
    var i := 0;
    while i < |params.entries|
      invariant 0 <= i <= |params.entries| == |original|
      invariant forall k :: 0 <= k < i ==> params.entries[k] == encoded[k]
      invariant forall k :: i <= k < |original| ==> params.entries[k] == original[k]
      invariant PutAll(q, encoded[i..]) == PutAll(query, encoded)
    {
      var (key, value) := params.entries[i];
      var sent := EncodeParam(value);
      assert encoded[i..][0] == (key, sent);
      assert encoded[i..][1..] == encoded[i + 1..];
      params.entries := params.entries[i := (key, sent)];
      q := Put(q, key, sent);
      i := i + 1;
    }
    assert encoded[i..] == [];
  }

  /** The loop over the body: datetimes and dates are rewritten in the caller's dictionary. */
  method EncodeBodyInPlace(body: PyDict)
    modifies body
    ensures body.entries == EncodeBody(old(body.entries))
  {
    ghost var original := body.entries;
    ghost var target := EncodeBody(original);
    var i := 0;
    while i < |body.entries|
      invariant 0 <= i <= |body.entries| == |original|
      invariant forall k :: 0 <= k < i ==> body.entries[k] == target[k]
      invariant forall k :: i <= k < |original| ==> body.entries[k] == original[k]
    {
      var (key, value) := body.entries[i];
      if value.DateTime? || value.Date? {
        body.entries := body.entries[i := (key, EncodeBodyValue(value))];
      } else {
        assert EncodeBodyValue(value) == value;
      }
      i := i + 1;
    }
    assert body.entries == target;
  }

  function Snapshot(d: PyDict?): Option<Entries>
    reads d
  {
    if d == null then None else Some(d.entries)
  }

  class APIRequester {
    const config: Config
    const transport: Transport

    constructor (config: Config, transport: Transport)
      ensures this.config == config && this.transport == transport
    {
      this.config := config;
      this.transport := transport;
    }

    /** `APIRequester(...)`: a requester for the merged settings, or the `RuntimeError` for the first one missing. */
    static method Create(args: Settings, defaults: Settings, transport: Transport) returns (r: Result<APIRequester, Exc>)
      ensures Configure(args, defaults).Err? ==> r == Err(Configure(args, defaults).error)
      ensures Configure(args, defaults).Ok? ==> (r.Ok? && fresh(r.value)
        && r.value.config == Configure(args, defaults).value && r.value.transport == transport)
    {
      var c := Configure(args, defaults);
      if c.Err? {
        return Err(c.error);
      }
      var requester := new APIRequester(c.value, transport);
      return Ok(requester);
    }

    /**
     * `request_raw`: rewrites the caller's parameters and body in place,
     * sends one request, and interprets the response.
     */
    method RequestRaw(method_: string, url: string, paginationKey: Option<string>, shortVersion: bool,
                      params: PyDict?, body: PyDict?, parse: string -> Option<Value>)
      returns (r: Result<(Value, Option<string>), Exc>)
      requires params == null || params != body
      modifies transport, params, body
      ensures params != null ==> params.entries == EncodeParams(old(params.entries))
      ensures body != null ==> body.entries == EncodeBody(old(body.entries))
      ensures transport.sent == old(transport.sent)
        + [Outgoing(config, method_, url, paginationKey, shortVersion, old(Snapshot(params)), old(Snapshot(body)))]
      ensures old(transport.pending) == [] ==> r == Err(ConnectionLost) && transport.pending == []
      ensures old(transport.pending) != [] ==>
        r == Receive(old(transport.pending)[0], parse) && transport.pending == old(transport.pending)[1..]
    {
      var query := BaseQuery(config, paginationKey, shortVersion);
      if params != null {
        query := EncodeParamsInPlace(params, query);
      }
      if body != null {
        EncodeBodyInPlace(body);
      }
      var data := if body != null && body.entries != [] then Some(body.entries) else None;
      var request := SentRequest(method_, config.apiBase + url, query, data, UserAgent);
      var response := transport.Send(request);
      if response.None? {
        return Err(ConnectionLost);
      }
      r := Receive(response.value, parse);
    }

    /** `request_raw` followed by the flattening of its response into a page. */
    method FirstPage(method_: string, url: string, paginationKey: Option<string>, shortVersion: bool,
                     params: PyDict?, body: PyDict?, parse: string -> Option<Value>)
      returns (r: Result<(Page, Option<string>), Exc>)
      requires params == null || params != body
      modifies transport, params, body
      ensures params != null ==> params.entries == EncodeParams(old(params.entries))
      ensures body != null ==> body.entries == EncodeBody(old(body.entries))
      ensures transport.sent == old(transport.sent)
        + [Outgoing(config, method_, url, paginationKey, shortVersion, old(Snapshot(params)), old(Snapshot(body)))]
      ensures old(transport.pending) == [] ==> r == Err(ConnectionLost) && transport.pending == []
      ensures old(transport.pending) != [] ==>
        r == Interpret(old(transport.pending)[0], parse) && transport.pending == old(transport.pending)[1..]
    {
      var raw := RequestRaw(method_, url, paginationKey, shortVersion, params, body, parse);
      if raw.Err? {
        return Err(raw.error);
      }
      var page := Unpack(raw.value.0);
      if page.Err? {
        return Err(page.error);
      }
      return Ok((page.value, raw.value.1));
    }

    /**
     * `request`: `request_raw` with the method in lower case, the page
     * flattened into records, and, when everything is asked for, the
     * following pages appended.
     */
    method Request(method_: string, url: string, paginationKey: Option<string>, shortVersion: bool, requestAll: bool,
                   params: PyDict?, body: PyDict?, parse: string -> Option<Value>)
      returns (r: Result<(Page, Option<string>), Exc>)
      requires params == null || params != body
      modifies transport, params, body
      decreases |transport.pending|
      ensures var x := Fetch(config, method_, url, paginationKey, shortVersion, requestAll,
                             old(Snapshot(params)), old(Snapshot(body)), old(transport.pending), parse);
        r == x.result && transport.sent == old(transport.sent) + x.sent && transport.pending == x.remaining
      ensures params != null ==> params.entries == EncodeParams(old(params.entries))
      ensures body != null ==> body.entries == EncodeBody(old(body.entries))
    {
      ghost var p0, b0 := Snapshot(params), Snapshot(body);
      ghost var sent0, pending0 := transport.sent, transport.pending;
      var first := FirstPage(LowerAscii(method_), url, paginationKey, shortVersion, params, body, parse);
      if first.Err? {
        return Err(first.error);
      }
      var got := first.value;
      var key := got.1;
      if FollowsUp(got, requestAll) {
        ghost var sentBefore := transport.sent;
        ghost var pending := transport.pending;
        ghost var p1, b1 := Snapshot(params), Snapshot(body);
        assert p1 == EncodedParams(p0) && b1 == EncodedBody(b0);
        assert pending == pending0[1..];
        var next := Request(method_, url, key, shortVersion, requestAll, params, body, parse);
        ghost var more := Fetch(config, method_, url, key, shortVersion, requestAll, p1, b1, pending, parse);
        assert next == more.result && transport.sent == sentBefore + more.sent && transport.pending == more.remaining;
        FetchFollows(config, method_, url, paginationKey, shortVersion, requestAll, p0, b0, pending0, parse);
        ghost var req := Outgoing(config, LowerAscii(method_), url, paginationKey, shortVersion, p0, b0);
        assert sentBefore == sent0 + [req];
        SeqAssoc(sent0, [req], more.sent);
        if next.Err? {
          r := Err(next.error);
        } else if next.value.0.PageBytes? {
          r := Err(BytesWhereJsonExpected);
        } else {
          r := Ok((Records(got.0.items + next.value.0.items), key));
        }
        assert r == Combine(got, next);
        if params != null {
          EncodingIsIdempotent(old(params.entries));
        }
        if body != null {
          EncodingIsIdempotent(old(body.entries));
        }
        return;
      }
      return Ok(got);
    }
  }
}
