/** What the formatter reads: the log record, the request attached to it, the user
    attached to the request, and the process environment. Every attribute that the
    source reads with `getattr(..., None)` is an `Option`; attributes it reads
    directly are plain fields. */
module LogInput {
  import opened Wrappers

  newtype byte = x: int | 0 <= x < 256

  /** A request's header object. `entries` is what subscription (`headers[k]`) reaches;
      `attributes` is what `getattr(headers, k, None)` reaches. For Django's header
      mapping the two differ: headers are entries, not attributes. Keys are compared
      exactly (no case folding). */
  datatype Headers = Headers(entries: map<string, string>, attributes: map<string, string>)

  /** What `urlparse(request.build_absolute_uri())` yields for the request. */
  datatype ParsedUrl = ParsedUrl(path: string, hostname: Option<string>, port: Option<int>)

  /** The parsed user agent that django-user-agents attaches as `request.user_agent`. */
  datatype UserAgentInfo = UserAgentInfo(deviceFamily: string, browserFamily: string, browserVersion: string)

  /** The user attached as `request.user`. `fullName` is what `get_full_name()` returns;
      it is `None` when the accessor is missing, when it raises `AttributeError`, or when
      it returns `None`. */
  datatype User = User(email: Option<string>, username: Option<string>, id: Option<int>, fullName: Option<string>)

  /** The request attached to a record. `parsedUrl` and `clientIp` are the results of
      the URL parser and of the IP lookup for this request, taken as given. */
  datatype Request = Request(
    headers: Headers,
    body: seq<byte>,
    httpMethod: string,
    meta: map<string, string>,
    parsedUrl: ParsedUrl,
    clientIp: Option<string>,
    userAgent: Option<UserAgentInfo>,
    user: Option<User>)

  /** A log record: logger name, rendered message, level name, and the optional
      `status_code` and `request` attributes. */
  datatype LogRecord = LogRecord(
    name: string,
    message: string,
    levelName: string,
    statusCode: Option<int>,
    request: Option<Request>)

  /** The environment variables the formatter reads, and the machine architecture. */
  datatype Env = Env(
    appName: Option<string>,             // DLFE_APP_NAME
    settingsModule: Option<string>,      // DJANGO_SETTINGS_MODULE
    logSensitiveUserData: Option<string>, // DLFE_LOG_SENSITIVE_USER_DATA
    machine: string)                     // platform.machine()
}
