/** The formatter of `django_log_formatter_ecs`: it turns one log record into one ECS
    document. The serialiser behind the event builder is foreign; here the document is
    the value of `EcsDocument.Document` that the builder would have been filled with. */
module EcsFormatter {
  import opened Wrappers
  import opened LogInput
  import opened EcsDocument

  /** The errors the source can raise. `MissingRequest` is the only one that escapes
      `Format`: the request variant reads `record.request` without probing, so a record
      without one raises `AttributeError`. `HeaderKeyError` is raised only by the
      trace-header loop as written (`TraceLabelsAsWritten`), which the model's request
      variant replaces by the corrected loop. */
  datatype FormatError = MissingRequest | HeaderKeyError(header: string)

  /** Python truthiness of an optional string: present and non-empty. */
  predicate Truthy(v: Option<string>) {
    v.Some? && v.value != ""
  }

  /** The string values that switch a flag on; the comparison is exact. */
  const TruthyValues: seq<string> := ["True", "true", "1"]

  /** `os.getenv(name) in truthy`: an unset variable is not in the tuple. */
  predicate IsTruthyFlag(v: Option<string>) {
    v.Some? && v.value in TruthyValues
  }

  lemma TruthyFlagIsExact(v: Option<string>)
    ensures IsTruthyFlag(v) <==> v == Some("True") || v == Some("true") || v == Some("1")
    ensures !IsTruthyFlag(Some("TRUE")) && !IsTruthyFlag(Some("yes")) && !IsTruthyFlag(Some(""))
  {
  }

  predicate StartsWith(s: string, prefix: string) {
    |prefix| <= |s| && s[..|prefix|] == prefix
  }

  // ---------------------------------------------------------------------------
  // Category, environment and labels (ECSFormatterBase)
  // ---------------------------------------------------------------------------

  const WebLoggers: set<string> := {"django.request", "django.server"}
  const DatabaseLoggerPrefix: string := "django.db.backends"

  /** `_get_event_category`: the two web logger names, then the database prefix. */
  function EventCategory(name: string): (c: Category)
    ensures c == Web <==> name in WebLoggers
    ensures StartsWith(name, DatabaseLoggerPrefix) ==> c == Database
    ensures c == Process <==> name !in WebLoggers && !StartsWith(name, DatabaseLoggerPrefix)
  {
    if name in WebLoggers then Web
    else if StartsWith(name, DatabaseLoggerPrefix) then Database
    else Process
  }

  /** `value or "Unknown"`: the fallback shared by the environment label and the IP. */
  function OrUnknown(v: Option<string>): (s: string)
    ensures Truthy(v) ==> s == v.value
    ensures !Truthy(v) ==> s == "Unknown"
    ensures s != ""
  {
    if Truthy(v) then v.value else "Unknown"
  }

  /** `_get_environment`: DJANGO_SETTINGS_MODULE when set and non-empty, else "Unknown". */
  function Environment(env: Env): (name: string)
    ensures Truthy(env.settingsModule) ==> name == env.settingsModule.value
    ensures env.settingsModule == None || env.settingsModule == Some("") ==> name == "Unknown"
  {
    OrUnknown(env.settingsModule)
  }

  /** The labels of `_get_event_base`: `application` and `env`, then the extra labels,
      which win on a clash. */
  function BaseLabels(env: Env, extra: map<string, string>): (labels: Labels)
    ensures labels.Keys == {"application", "env"} + extra.Keys
    ensures forall k :: k in extra ==> labels[k] == Some(extra[k])
    ensures "application" !in extra ==> labels["application"] == env.appName
    ensures "env" !in extra ==> labels["env"] == Some(Environment(env))
  {
    map["application" := env.appName, "env" := Some(Environment(env))]
      + map k | k in extra :: Some(extra[k])
  }

  /** `_get_event_base`: the groups every variant writes. */
  function EventBase(record: LogRecord, env: Env, extra: map<string, string>): (d: Document)
    ensures d.event.category == EventCategory(record.name)
    ensures d.event.action == record.name
    ensures d.event.message == record.message
    ensures d.event.labels == BaseLabels(env, extra)
    ensures d.host.architecture == env.machine
    ensures d.severity.None? && OnlyBaseGroups(d)
  {
    Document(
      EventGroup(EventCategory(record.name), record.name, record.message, BaseLabels(env, extra)),
      HostGroup(env.machine),
      None, None, None, None, None, None, None, None)
  }

  /** `ECSSystemFormatter.get_event`. */
  function SystemEvent(record: LogRecord, env: Env): (d: Document)
    ensures d.event.labels.Keys == {"application", "env"}
    ensures d.event.labels["application"] == env.appName
    ensures d.event.labels["env"] == Some(Environment(env))
    ensures d.event.category == EventCategory(record.name) && d.event.action == record.name
    ensures d.event.message == record.message && d.host.architecture == env.machine
    ensures d.severity.None? && OnlyBaseGroups(d)
  {
    EventBase(record, env, map[])
  }

  /** `ECSDBFormatter.get_event`: the same fields as the system variant. */
  function DbEvent(record: LogRecord, env: Env): (d: Document)
    ensures d.event.labels.Keys == {"application", "env"}
    ensures d.event.category == EventCategory(record.name) && d.event.action == record.name
    ensures d.event.message == record.message
    ensures d.severity.None? && OnlyBaseGroups(d)
  {
    EventBase(record, env, map[])
  }

  lemma SystemAndDbVariantsAgree(record: LogRecord, env: Env)
    ensures SystemEvent(record, env) == DbEvent(record, env)
  {
  }

  // ---------------------------------------------------------------------------
  // Trace-header labels (ECSRequestFormatter.get_event, the loop)
  // ---------------------------------------------------------------------------

  const ZipkinHeaders: seq<string> := ["X-B3-TraceId", "X-B3-SpanId"]

  /** The trace labels the loop is meant to collect: each Zipkin header that the
      request carries with a non-empty value, under its own name. */
  function TraceLabels(headers: Headers): (labels: map<string, string>)
    ensures forall k :: k in labels <==> k in ZipkinHeaders && Truthy(Get(headers.entries, k))
    ensures forall k :: k in labels ==> k in headers.entries && labels[k] == headers.entries[k]
  {
    map k | k in ZipkinHeaders && Truthy(Get(headers.entries, k)) :: headers.entries[k]
  }

  /** The trace labels of the first `n` Zipkin headers. */
  ghost function TraceLabelsUpTo(headers: Headers, n: nat): map<string, string>
    requires n <= |ZipkinHeaders|
  {
    map k | k in ZipkinHeaders[..n] && Truthy(Get(headers.entries, k)) :: headers.entries[k]
  }

  /** The loop over the Zipkin header names, filling `extra_labels` one header at a time,
      with the probe reading the header entries. */
  method CollectTraceLabels(headers: Headers) returns (labels: map<string, string>)
    ensures labels == TraceLabels(headers)
  {
    labels := map[];
    var i := 0;
    while i < |ZipkinHeaders|
      invariant 0 <= i <= |ZipkinHeaders|
      invariant labels == TraceLabelsUpTo(headers, i)
    {
      var header := ZipkinHeaders[i];
      if Truthy(Get(headers.entries, header)) {
        labels := labels[header := headers.entries[header]];
      }
      assert ZipkinHeaders[..i + 1] == ZipkinHeaders[..i] + [header];
      i := i + 1;
    }
    assert ZipkinHeaders[..i] == ZipkinHeaders;
  }

  /** The probe of the loop as written succeeds for `name` but the subscription after it
      raises `KeyError`: a truthy attribute with no entry behind it. */
  predicate RaisesKeyError(headers: Headers, name: string) {
    Truthy(Get(headers.attributes, name)) && name !in headers.entries
  }

  /** The loop as the source writes it: the probe is `getattr(headers, name, None)`,
      which reads an attribute of the header object, and the value is then read by
      subscription, which raises `KeyError` when the entry is missing. */
  function TraceLabelsAsWritten(headers: Headers, names: seq<string>): (r: Result<map<string, string>, FormatError>)
    ensures r.Err? <==> exists k :: k in names && RaisesKeyError(headers, k)
    ensures r.Err? ==> exists i ::
      && 0 <= i < |names|
      && r.error == HeaderKeyError(names[i])
      && RaisesKeyError(headers, names[i])
      && forall j :: 0 <= j < i ==> !RaisesKeyError(headers, names[j])
    ensures r.Ok? ==> forall k :: k in r.value <==> k in names && Truthy(Get(headers.attributes, k))
    ensures r.Ok? ==> forall k :: k in r.value ==> k in headers.entries && r.value[k] == headers.entries[k]
  {
    if names == [] then Ok(map[])
    else
      var name := names[0];
      if RaisesKeyError(headers, name) then Err(HeaderKeyError(name))
      else
        match TraceLabelsAsWritten(headers, names[1..])
        case Err(e) => Err(e)
        case Ok(rest) =>
          if Truthy(Get(headers.attributes, name)) then Ok(rest[name := headers.entries[name]]) else Ok(rest)
  }

  /** When no Zipkin header name is an attribute of the header object (the case for
      Django's header mapping), the loop as written collects nothing, whatever headers
      the request carries. */
  lemma TraceLabelsAsWrittenIgnoresEntries(headers: Headers, names: seq<string>)
    requires forall k :: k in names ==> k !in headers.attributes
    ensures TraceLabelsAsWritten(headers, names) == Ok(map[])
  {
  }

  /** A request carrying a trace id: the intended loop labels it, the loop as written does not. */
  lemma TraceLabelsAsWrittenDropsTraceId()
    ensures var h := Headers(map["X-B3-TraceId" := "463ac35c9f6413ad"], map[]);
      && TraceLabelsAsWritten(h, ZipkinHeaders) == Ok(map[])
      && TraceLabels(h) == map["X-B3-TraceId" := "463ac35c9f6413ad"]
  {
  }

  /** Both Zipkin names are attributes but neither is an entry: the loop as written
      raises on the first name it tries. */
  lemma TraceLabelsAsWrittenRaisesOnFirst()
    ensures var h := Headers(map[], map["X-B3-TraceId" := "a", "X-B3-SpanId" := "b"]);
      TraceLabelsAsWritten(h, ZipkinHeaders) == Err(HeaderKeyError("X-B3-TraceId"))
  {
  }

  // ---------------------------------------------------------------------------
  // Request enrichment (ECSRequestFormatter.get_event, after the loop)
  // ---------------------------------------------------------------------------

  /** `_get_ip_address`: the looked-up client IP, or "Unknown". */
  function ClientIp(request: Request): (ip: string)
    ensures Truthy(request.clientIp) ==> ip == request.clientIp.value
    ensures request.clientIp == None || request.clientIp == Some("") ==> ip == "Unknown"
  {
    OrUnknown(request.clientIp)
  }

  /** The raw user-agent string: `headers.user_agent` (an attribute read), and when that
      is missing or empty, `META["HTTP_USER_AGENT"]` if present. */
  function UserAgentString(request: Request): (ua: Option<string>)
    ensures Truthy(Get(request.headers.attributes, "user_agent")) ==> ua == Get(request.headers.attributes, "user_agent")
    ensures !Truthy(Get(request.headers.attributes, "user_agent")) && "HTTP_USER_AGENT" in request.meta
      ==> ua == Some(request.meta["HTTP_USER_AGENT"])
    ensures !Truthy(Get(request.headers.attributes, "user_agent")) && "HTTP_USER_AGENT" !in request.meta
      ==> ua == Get(request.headers.attributes, "user_agent")
  {
    var fromHeaders := Get(request.headers.attributes, "user_agent");
    if !Truthy(fromHeaders) && "HTTP_USER_AGENT" in request.meta then Some(request.meta["HTTP_USER_AGENT"])
    else fromHeaders
  }

  /** The `user_agent` group: full detail when a parsed user agent is attached, only
      `original` when there is merely a non-empty raw string, and no group otherwise. */
  function UserAgentGroupOf(request: Request): (g: Option<UserAgentGroup>)
    ensures g.Some? <==> request.userAgent.Some? || Truthy(UserAgentString(request))
    ensures g.Some? ==> g.value.original == UserAgentString(request)
    ensures request.userAgent.Some? ==>
      && g.Some?
      && g.value.deviceName == Some(request.userAgent.value.deviceFamily)
      && g.value.name == Some(request.userAgent.value.browserFamily)
      && g.value.version == Some(request.userAgent.value.browserVersion)
    ensures request.userAgent.None? && g.Some? ==>
      g.value.deviceName.None? && g.value.name.None? && g.value.version.None?
  {
    var original := UserAgentString(request);
    match request.userAgent
    case Some(ua) =>
      Some(UserAgentGroup(Some(ua.deviceFamily), Some(ua.browserFamily), original, Some(ua.browserVersion)))
    case None =>
      if Truthy(original) then Some(UserAgentGroup(None, None, original, None)) else None
  }

  /** The `user` group and its privacy gate: without the flag only the id is written. */
  function UserGroupOf(user: Option<User>, logSensitiveUserData: Option<string>): (g: Option<UserGroup>)
    ensures g.Some? <==> user.Some?
    ensures g.Some? ==> g.value.id == user.value.id
    ensures g.Some? && !IsTruthyFlag(logSensitiveUserData) ==>
      g.value.email.None? && g.value.fullName.None? && g.value.name.None?
    ensures g.Some? && IsTruthyFlag(logSensitiveUserData) ==>
      g.value.email == user.value.email && g.value.fullName == user.value.fullName
      && g.value.name == user.value.username
  {
    match user
    case None => None
    case Some(u) =>
      if IsTruthyFlag(logSensitiveUserData) then Some(UserGroup(u.email, u.fullName, u.username, u.id))
      else Some(UserGroup(None, None, None, u.id))
  }

  /** The request fields agree with each other and with the request: one byte count,
      one IP, one host name. */
  predicate RequestFieldsConsistent(d: Document, request: Request) {
    && d.url.Some? && d.source.Some? && d.client.Some? && d.httpRequest.Some?
    && d.client.value.bytes == d.httpRequest.value.bodyBytes == |request.body|
    && d.source.value.ip == d.client.value.ip == d.client.value.address == ClientIp(request)
    && d.client.value.domain == d.url.value.domain == request.parsedUrl.hostname
    && d.client.value.port == request.parsedUrl.port
    && d.url.value.path == request.parsedUrl.path
    && d.httpRequest.value.bodyContent == request.body
    && d.httpRequest.value.httpMethod == request.httpMethod
  }

  /** `ECSRequestFormatter.get_event`. */
  function RequestEvent(record: LogRecord, env: Env): (r: Result<Document, FormatError>)
    ensures r.Err? <==> record.request.None?
    ensures r.Err? ==> r.error == MissingRequest
    ensures r.Ok? ==> var d := r.value; var req := record.request.value;
      && d.event.category == EventCategory(record.name)
      && d.event.action == record.name && d.event.message == record.message
      && d.event.labels == BaseLabels(env, TraceLabels(req.headers))
      && d.host.architecture == env.machine
      && RequestFieldsConsistent(d, req)
      && d.httpResponse == Some(HttpResponseGroup(record.statusCode))
      && d.userAgent == UserAgentGroupOf(req)
      && d.user == UserGroupOf(req.user, env.logSensitiveUserData)
      && d.severity.None?
  {
    match record.request
    case None => Err(MissingRequest)
    case Some(req) =>
      var base := EventBase(record, env, TraceLabels(req.headers));
      var ip := ClientIp(req);
      var bytes := |req.body|;
      var url := req.parsedUrl;
      Ok(base.(
        url := Some(UrlGroup(url.path, url.hostname)),
        source := Some(SourceGroup(ClientIp(req))),
        httpResponse := Some(HttpResponseGroup(record.statusCode)),
        client := Some(ClientGroup(ip, bytes, url.hostname, ip, url.port)),
        httpRequest := Some(HttpRequestGroup(bytes, req.body, req.httpMethod)),
        userAgent := UserAgentGroupOf(req),
        user := UserGroupOf(req.user, env.logSensitiveUserData)))
  }

  /** The labels of a request event are `application`, `env` and trace headers only. */
  lemma RequestLabelKeys(record: LogRecord, env: Env)
    requires RequestEvent(record, env).Ok?
    ensures forall k :: k in RequestEvent(record, env).value.event.labels ==>
      k == "application" || k == "env" || k in ZipkinHeaders
  {
  }

  // ---------------------------------------------------------------------------
  // Severity and dispatch (ECS_FORMATTERS, ECSFormatter)
  // ---------------------------------------------------------------------------

  /** The level name that maps to each severity. */
  function LevelName(s: Severity): (level: string)
    ensures level in {"DEBUG", "INFO", "WARNING", "ERROR", "CRITICAL"}
  {
    match s
    case Debug => "DEBUG"
    case Info => "INFO"
    case Warning => "WARNING"
    case Error => "ERROR"
    case Critical => "CRITICAL"
  }

  /** `_get_severity`: exact match on the five level names, nothing otherwise. */
  function SeverityOf(level: string): (s: Option<Severity>)
    ensures s.Some? <==> level in {"DEBUG", "INFO", "WARNING", "ERROR", "CRITICAL"}
    ensures s.Some? ==> LevelName(s.value) == level
  {
    if level == "DEBUG" then Some(Debug)
    else if level == "INFO" then Some(Info)
    else if level == "WARNING" then Some(Warning)
    else if level == "ERROR" then Some(Error)
    else if level == "CRITICAL" then Some(Critical)
    else None
  }

  /** Every severity is reached from exactly its own level name. */
  lemma SeverityRoundTrip(s: Severity, level: string)
    ensures SeverityOf(LevelName(s)) == Some(s)
    ensures SeverityOf(level) == Some(s) <==> level == LevelName(s)
  {
  }

  lemma SeverityIsCaseSensitive()
    ensures SeverityOf("debug") == None && SeverityOf("Info") == None && SeverityOf("WARN") == None
  {
  }

  datatype FormatterVariant = SystemFormatter | DbFormatter | RequestFormatter

  /** `ECS_FORMATTERS`. */
  const EcsFormatters: map<string, FormatterVariant> := map[
    "root" := SystemFormatter,
    "django.request" := RequestFormatter,
    "django.db.backends" := SystemFormatter]

  /** The lookup in `ECSFormatter.format`: exact key, System by default. */
  function SelectFormatter(name: string): (v: FormatterVariant)
    ensures name in EcsFormatters ==> v == EcsFormatters[name]
    ensures v == RequestFormatter <==> name == "django.request"
    ensures v != DbFormatter
  {
    if name in EcsFormatters then EcsFormatters[name] else SystemFormatter
  }

  /** `get_event` of the chosen variant. */
  function GetEvent(variant: FormatterVariant, record: LogRecord, env: Env): (r: Result<Document, FormatError>)
    ensures r.Ok? ==> r.value.event.category == EventCategory(record.name)
    ensures r.Ok? ==> r.value.event.action == record.name && r.value.event.message == record.message
    ensures r.Err? <==> variant == RequestFormatter && record.request.None?
    ensures variant != RequestFormatter ==> r.Ok? && OnlyBaseGroups(r.value)
    ensures variant != RequestFormatter ==> r.value.event.labels == BaseLabels(env, map[])
    ensures variant == RequestFormatter ==> r == RequestEvent(record, env)
  {
    match variant
    case SystemFormatter => Ok(SystemEvent(record, env))
    case DbFormatter => Ok(DbEvent(record, env))
    case RequestFormatter => RequestEvent(record, env)
  }

  /** `ECSFormatter.format`, up to the serialisation of the document. */
  function Format(record: LogRecord, env: Env): (r: Result<Document, FormatError>)
    ensures r.Err? <==> record.name == "django.request" && record.request.None?
    ensures r.Ok? ==> r.value.severity == SeverityOf(record.levelName)
    ensures r.Ok? ==> r.value.event.category == EventCategory(record.name)
    ensures r.Ok? ==> r.value.event.action == record.name && r.value.event.message == record.message
    ensures record.name != "django.request" ==>
      && r.Ok? && OnlyBaseGroups(r.value)
      && r.value.event.labels == BaseLabels(env, map[])
      && r.value.host.architecture == env.machine
    ensures record.name == "django.request" && r.Ok? ==>
      && r.value == RequestEvent(record, env).value.(severity := SeverityOf(record.levelName))
      && RequestFieldsConsistent(r.value, record.request.value)
      && r.value.user == UserGroupOf(record.request.value.user, env.logSensitiveUserData)
      && r.value.userAgent == UserAgentGroupOf(record.request.value)
  {
    match GetEvent(SelectFormatter(record.name), record, env)
    case Err(e) => Err(e)
    case Ok(d) => Ok(d.(severity := SeverityOf(record.levelName)))
  }

  /** A logger below the database prefix is routed to the system variant, yet its
      category is still `database`. */
  lemma DatabaseChildLogger(env: Env, message: string, level: string)
    ensures var record := LogRecord("django.db.backends.schema", message, level, None, None);
      && SelectFormatter(record.name) == SystemFormatter
      && Format(record, env).Ok?
      && Format(record, env).value.event.category == Database
  {
  }
}
