/** The Elastic Common Schema event the formatter produces, as a value: one optional
    group per ECS field set the formatter writes. A group that is `None` is absent
    from the document; a field that is `None` is null or omitted. */
module EcsDocument {
  import opened Wrappers
  import opened LogInput

  datatype Category = Web | Database | Process

  datatype Severity = Debug | Info | Warning | Error | Critical

  /** Event labels: `application` may be null, every other label is a string. */
  type Labels = map<string, Option<string>>

  datatype EventGroup = EventGroup(category: Category, action: string, message: string, labels: Labels)
  datatype HostGroup = HostGroup(architecture: string)
  datatype UrlGroup = UrlGroup(path: string, domain: Option<string>)
  datatype SourceGroup = SourceGroup(ip: string)
  datatype HttpResponseGroup = HttpResponseGroup(statusCode: Option<int>)
  datatype ClientGroup = ClientGroup(address: string, bytes: nat, domain: Option<string>, ip: string, port: Option<int>)
  datatype HttpRequestGroup = HttpRequestGroup(bodyBytes: nat, bodyContent: seq<byte>, httpMethod: string)
  datatype UserAgentGroup = UserAgentGroup(deviceName: Option<string>, name: Option<string>, original: Option<string>, version: Option<string>)
  datatype UserGroup = UserGroup(email: Option<string>, fullName: Option<string>, name: Option<string>, id: Option<int>)

  datatype Document = Document(
    event: EventGroup,
    host: HostGroup,
    url: Option<UrlGroup>,
    source: Option<SourceGroup>,
    httpResponse: Option<HttpResponseGroup>,
    client: Option<ClientGroup>,
    httpRequest: Option<HttpRequestGroup>,
    userAgent: Option<UserAgentGroup>,
    user: Option<UserGroup>,
    severity: Option<Severity>)

  /** The ECS category value as it appears in the document. */
  function CategoryName(c: Category): (s: string)
    ensures c == Web <==> s == "web"
    ensures c == Database <==> s == "database"
    ensures c == Process <==> s == "process"
  {
    match c
    case Web => "web"
    case Database => "database"
    case Process => "process"
  }

  /** Only the groups every formatter variant writes: event and host. */
  predicate OnlyBaseGroups(d: Document) {
    && d.url.None? && d.source.None? && d.httpResponse.None? && d.client.None?
    && d.httpRequest.None? && d.userAgent.None? && d.user.None?
  }
}
