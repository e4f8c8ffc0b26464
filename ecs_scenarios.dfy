/** The scenarios the repository's tests describe, stated over the model. */
module EcsScenarios {
  import opened Wrappers
  import opened LogInput
  import opened EcsDocument
  import opened EcsFormatter

  /** A bodiless GET to `/` on host `test-server`, port 1234, from 111.1.1.1. */
  function TestServerRequest(user: Option<User>): Request {
    Request(
      Headers(map[], map[]), [], "GET", map["REMOTE_ADDR" := "111.1.1.1"],
      ParsedUrl("/", Some("test-server"), Some(1234)), Some("111.1.1.1"), None, user)
  }

  function JohnTest(): User {
    User(Some("test@test.com"), Some("johntest"), Some(1), Some("John Test"))
  }

  function NoSettings(): Env {
    Env(None, None, None, "x86_64")
  }

  /** The request variant applied directly to a record named "testing-123". */
  lemma RequestVariantFields()
    ensures var r := RequestEvent(LogRecord("testing-123", "Message", "INFO", None, Some(TestServerRequest(None))), NoSettings());
      && r.Ok?
      && r.value.event.action == "testing-123"
      && r.value.httpRequest.value.httpMethod == "GET"
      && r.value.client.value.domain == Some("test-server")
      && r.value.client.value.port == Some(1234)
      && r.value.source.value.ip == "111.1.1.1"
      && r.value.client.value.bytes == 0 && r.value.httpRequest.value.bodyBytes == 0
      && r.value.userAgent.None? && r.value.user.None?
  {
  }

  /** With DLFE_LOG_SENSITIVE_USER_DATA unset, an attached user is reduced to its id. */
  lemma SensitiveUserDataDefault()
    ensures var r := Format(LogRecord("django.request", "Request test", "ERROR", None, Some(TestServerRequest(Some(JohnTest())))), NoSettings());
      && r.Ok?
      && r.value.user == Some(UserGroup(None, None, None, Some(1)))
  {
  }

  /** With DLFE_LOG_SENSITIVE_USER_DATA set to "True", an attached user gives all four fields. */
  lemma SensitiveUserDataOn()
    ensures var r := Format(LogRecord("django.request", "Request test", "ERROR", None, Some(TestServerRequest(Some(JohnTest())))), NoSettings().(logSensitiveUserData := Some("True")));
      && r.Ok?
      && r.value.user == Some(UserGroup(Some("test@test.com"), Some("John Test"), Some("johntest"), Some(1)))
  {
  }

  /** A request record logged through `django.request`: the env label follows
      DJANGO_SETTINGS_MODULE, "Unknown" when it is unset. */
  lemma EnvironmentLabels()
    ensures var record := LogRecord("django.request", "Request test", "ERROR", None, Some(TestServerRequest(None)));
      && Format(record, NoSettings()).Ok?
      && Format(record, NoSettings()).value.event.labels["env"] == Some("Unknown")
      && Format(record, NoSettings().(settingsModule := Some("settings.Test"))).value.event.labels["env"] == Some("settings.Test")
  {
  }

  /** The application label is DLFE_APP_NAME, null when it is unset. */
  lemma ApplicationLabel()
    ensures var record := LogRecord("django.request", "Request test", "ERROR", None, Some(TestServerRequest(None)));
      && Format(record, NoSettings()).Ok?
      && Format(record, NoSettings()).value.event.labels["application"] == None
      && Format(record, NoSettings().(appName := Some("TestApp"))).value.event.labels["application"] == Some("TestApp")
  {
  }

  /** A user-agent string found only in META gives a group with only `original`. */
  lemma UserAgentFromMeta()
    ensures var req := TestServerRequest(None).(meta := map["HTTP_USER_AGENT" := "curl/8.0"]);
      UserAgentGroupOf(req) == Some(UserAgentGroup(None, None, Some("curl/8.0"), None))
  {
  }
}
