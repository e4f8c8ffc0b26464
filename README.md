# django-log-formatter-ecs, modelled in Dafny

`django_log_formatter_ecs` is a logging formatter for Django. It turns one log record
into one Elastic Common Schema (ECS) event:
- routing by logger name chooses one of three formatter variants;
- every variant writes the event category, action, message, labels and host architecture;
- the request variant also writes URL, source, client, HTTP request/response, user-agent and user fields
  from the request attached to the record.

The model represents the ECS document as a value (`EcsDocument.Document`), with one optional
group per ECS field set. Record, request, user and environment are datatypes with
`Option` fields (`LogInput`), and a `getattr(..., None)` that finds nothing is `None`.
The formatter is a set of functions (`EcsFormatter`). The trace-header loop is also written as a
method, `CollectTraceLabels`, which is proved equal to its specification function.

Modules:
- `Wrappers` (wrappers.dfy): `Option`, `Result`, a map lookup.
- `LogInput` (log_input.dfy): the inputs. These are:
  - the environment variables `DLFE_APP_NAME`, `DJANGO_SETTINGS_MODULE` and `DLFE_LOG_SENSITIVE_USER_DATA`;
  - `platform.machine()`;
  - for each request, what `urlparse(request.build_absolute_uri())` and the IP lookup return for it.
- `EcsDocument` (ecs_document.dfy): the document.
- `EcsFormatter` (ecs_formatter.dfy): everything in `django_log_formatter_ecs/__init__.py`.
- `EcsScenarios` (ecs_scenarios.dfy): the scenarios of the repository's tests, stated as lemmas.

`ECSFormatterBase` stores `self.record` once, in its constructor, and never changes it. So the
variants are functions of the record, not a class.

Notes on what the code does, and how the model treats it:
- A record named `django.request` without a `request` attribute makes the code raise
  `AttributeError`, because it reads `self.record.request` without probing. The model returns
  `Err(MissingRequest)` for it. It does not skip the enrichment.
- `ECSDBFormatter` exists, but `ECS_FORMATTERS` sends `django.db.backends` to the system
  variant. So `SelectFormatter` never returns `DbFormatter`. The two variants write the same fields anyway.
- `http_response` is always written for a request, with a null status code when the record has none.
- The IP lookup is called twice, and both call sites pass the same request. The model takes one lookup result per request, so both give one value.
- The request variant does not collect its trace labels the way the code does. It uses the corrected probe, `TraceLabels`, which reads header entries. The code's loop reads attributes of the header object (see "## Findings"). The loop as written is modelled separately, as `TraceLabelsAsWritten`. For a request whose headers hold `X-B3-TraceId` as an entry, the model's `RequestEvent` and `Format` write that label, and the code as written writes none.

## Model

| member | source | states |
|---|---|---|
| `EcsDocument.CategoryName` | django_log_formatter_ecs/__init__.py:11-14 | each category has its own value: `Web` is "web", `Database` is "database", `Process` is "process" |
| `EcsFormatter.TruthyFlagIsExact` | django_log_formatter_ecs/__init__.py:16 | a flag is on exactly for "True", "true" or "1"; other spellings and an unset variable are off |
| `EcsFormatter.EventCategory` | django_log_formatter_ecs/__init__.py:51-57 | `web` exactly for the two web logger names; every name with the `django.db.backends` prefix is `database`; `process` exactly when neither rule applies |
| `EcsFormatter.OrUnknown` | django_log_formatter_ecs/__init__.py:64 | a present non-empty value is kept, otherwise "Unknown"; the result is never empty |
| `EcsFormatter.Environment` | django_log_formatter_ecs/__init__.py:59-64 | the env label is DJANGO_SETTINGS_MODULE when it is set and non-empty, and "Unknown" when it is unset or empty |
| `EcsFormatter.BaseLabels` | django_log_formatter_ecs/__init__.py:31-44 | the label keys are `application`, `env` and the extra keys; extra labels win on a clash; otherwise application is DLFE_APP_NAME (null when unset) and env is the environment label |
| `EcsFormatter.EventBase` | django_log_formatter_ecs/__init__.py:31-49 | category from the name, action is the name, message is the rendered message, labels as above, host architecture is the machine; no other group and no severity |
| `EcsFormatter.SystemEvent` | django_log_formatter_ecs/__init__.py:67-71 | the system variant writes only event and host, with exactly the two base labels |
| `EcsFormatter.DbEvent` | django_log_formatter_ecs/__init__.py:74-79 | the database variant writes only event and host, with exactly the two base labels |
| `EcsFormatter.SystemAndDbVariantsAgree` | django_log_formatter_ecs/__init__.py:67-79 | the system and database variants give the same document for every record |
| `EcsFormatter.TraceLabels` | django_log_formatter_ecs/__init__.py:84-92 | a key is present exactly when it is one of the two Zipkin header names and the request carries that header with a non-empty value; its value is the header's value |
| `EcsFormatter.CollectTraceLabels` | django_log_formatter_ecs/__init__.py:84-92 | the loop over the Zipkin header names yields exactly `TraceLabels` |
| `EcsFormatter.TraceLabelsAsWritten` | django_log_formatter_ecs/__init__.py:84-92 | the loop as written raises a key error exactly when some name is a truthy attribute with no entry behind it, and the error names the first such name; otherwise the labels are exactly the names that are truthy attributes, each with its entry's value |
| `EcsFormatter.TraceLabelsAsWrittenRaisesOnFirst` | django_log_formatter_ecs/__init__.py:88-92 | with both Zipkin names as attributes and no entries, the loop as written raises on `X-B3-TraceId`, the first name it tries |
| `EcsFormatter.TraceLabelsAsWrittenIgnoresEntries` | django_log_formatter_ecs/__init__.py:88-92 | when no Zipkin name is an attribute of the header object, the loop as written yields no labels, whatever header entries the request has |
| `EcsFormatter.TraceLabelsAsWrittenDropsTraceId` | django_log_formatter_ecs/__init__.py:88-92 | a request carrying X-B3-TraceId gets the label from the intended loop but not from the loop as written |
| `EcsFormatter.ClientIp` | django_log_formatter_ecs/__init__.py:183-186 | the looked-up IP when it is non-empty, otherwise "Unknown" |
| `EcsFormatter.UserAgentString` | django_log_formatter_ecs/__init__.py:125-130 | the raw string is `headers.user_agent` when truthy, else `META["HTTP_USER_AGENT"]` when present, else whatever `headers.user_agent` held |
| `EcsFormatter.UserAgentGroupOf` | django_log_formatter_ecs/__init__.py:125-145 | the group exists exactly when the request has a parsed user agent or a non-empty raw string; `original` is the raw string; device, browser name and version come from the parsed agent, and are absent without one |
| `EcsFormatter.UserGroupOf` | django_log_formatter_ecs/__init__.py:147-170 | the group exists exactly when a user is attached; `id` is always the user's; without the flag, email, full name and name are absent; with it, they are the user's email, `get_full_name()` result (null when missing) and username |
| `EcsFormatter.RequestEvent` | django_log_formatter_ecs/__init__.py:83-172 | fails exactly when the record has no request; otherwise the base fields use the trace labels of the corrected probe (`TraceLabels`, see "## Findings"), byte count, IP and host name agree across url/source/client/http_request, status code comes from the record, plus the user-agent and user groups above |
| `EcsFormatter.RequestLabelKeys` | django_log_formatter_ecs/__init__.py:84-96 | a request event's labels hold only `application`, `env` and Zipkin header names |
| `EcsFormatter.LevelName` | django_log_formatter_ecs/__init__.py:214-224 | every severity has one of the five upper-case level names |
| `EcsFormatter.SeverityOf` | django_log_formatter_ecs/__init__.py:214-224 | a severity exactly for the five level names, and it is the one whose level name is the input |
| `EcsFormatter.SeverityRoundTrip` | django_log_formatter_ecs/__init__.py:214-224 | a level name maps to a severity exactly when it is that severity's name |
| `EcsFormatter.SeverityIsCaseSensitive` | django_log_formatter_ecs/__init__.py:214-224 | "debug", "Info" and "WARN" give no severity |
| `EcsFormatter.SelectFormatter` | django_log_formatter_ecs/__init__.py:189-201 | exact-key lookup in the table, System otherwise; the request variant exactly for `django.request`; the database variant never |
| `EcsFormatter.GetEvent` | django_log_formatter_ecs/__init__.py:203-204 | whichever variant runs, category comes from the name alone and action and message come from the record; only the request variant can fail, and only when no request is attached; the request variant is `RequestEvent`; the others write only event and host, with the base labels |
| `EcsFormatter.Format` | django_log_formatter_ecs/__init__.py:196-210 | fails exactly for a `django.request` record without a request; severity is the mapped level; category follows the name; any other name yields only event and host with the base labels and the machine's architecture; a `django.request` record yields `RequestEvent`'s document with the severity added, so the trace labels come from the corrected probe (see "## Findings"), the request fields are consistent, and the user and user-agent groups are those of `UserGroupOf` and `UserAgentGroupOf` |
| `EcsFormatter.DatabaseChildLogger` | django_log_formatter_ecs/__init__.py:189-201 | `django.db.backends.schema` is routed to System and still gets the `database` category |
| `EcsScenarios.RequestVariantFields` | tests/test_django_log_formatter.py:43-53 | the request variant on a bodiless GET to test-server:1234 from 111.1.1.1 gives that action, method, domain, port and source IP, with 0 bytes |
| `EcsScenarios.SensitiveUserDataDefault` | tests/test_django_log_formatter.py:110-114 | with DLFE_LOG_SENSITIVE_USER_DATA unset, the user group is only the id |
| `EcsScenarios.SensitiveUserDataOn` | django_log_formatter_ecs/__init__.py:147-166 | with DLFE_LOG_SENSITIVE_USER_DATA set to "True", the user group holds the email, the full name "John Test", the username and the id |
| `EcsScenarios.EnvironmentLabels` | tests/test_django_log_formatter.py:131-140 | for a `django.request` record with a request, env is "Unknown" when DJANGO_SETTINGS_MODULE is unset, and its value when set |
| `EcsScenarios.ApplicationLabel` | django_log_formatter_ecs/__init__.py:33 | for a `django.request` record with a request, application is null when DLFE_APP_NAME is unset, and its value when set |
| `EcsScenarios.UserAgentFromMeta` | django_log_formatter_ecs/__init__.py:129-145 | a user agent found only in META gives a group holding only `original` |

## Left out

- The event builder and its serialiser are foreign. So are `BaseSchema().dump` and `json.dumps`. The document is the value the builder would be filled with. The choice between omitting a null field and writing it is the serialiser's, and it is not modelled.
- The IP lookup (`ipware.get_client_ip`) and the `patch` decorators around it are foreign calls. The model takes the lookup's result as `Request.clientIp`, and keeps only the `or "Unknown"` fallback.
- `urlparse`, `build_absolute_uri`, `platform.machine()` and `os.getenv` are foreign or environment reads. They are inputs (`Request.parsedUrl`, `Env`).
- The `logging.Formatter` base class and the host logging plumbing are not modelled.
- Django's header mapping compares keys without regard to case. `Headers` compares them exactly.
- An exception other than `AttributeError` raised inside `get_full_name()` is not modelled. An exception raised while reading other attributes is not modelled either. `User.fullName` is `None` when the accessor is missing, when it raises `AttributeError`, or when it returns `None`.
- User ids are modelled as integers. Other id types pass through the source unchanged, and are not modelled.
- The extra-labels parameter of `_get_event_base` is only ever given the trace labels or `{}`. The model manages without a mutable default.

## Findings

| source | as written | input that shows it | evidently intended | confidence | as-written member | corrected member |
|---|---|---|---|---|---|---|
| django_log_formatter_ecs/__init__.py:88-92 | the probe `getattr(self.record.request.headers, zipkin_header, None)` reads an attribute of the header object; Django's header mapping holds headers as entries, and has no attribute named `X-B3-TraceId` | a request sent with header `X-B3-TraceId: 463ac35c9f6413ad`: no trace label is written | the probe reads the header entry (`headers.get(zipkin_header)`), so the label is written whenever the header is present and non-empty | medium, not executed | `EcsFormatter.TraceLabelsAsWritten` (shown by `EcsFormatter.TraceLabelsAsWrittenDropsTraceId`) | `EcsFormatter.TraceLabels` (computed by `EcsFormatter.CollectTraceLabels`, used by `EcsFormatter.RequestEvent`) |
