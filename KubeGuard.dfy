/** The KubeGuard controller of main.py: the configuration it holds, the two
    classifiers for shell access and port forwarding, the alert it renders,
    the Mattermost payload it posts, and the controller object whose
    `ProcessAdmissionRequest` ties them together. */
module KubeGuard {
  import opened Wrappers
  import opened Text

  // ---------------------------------------------------------------------
  // Configuration (`config_data`)
  // ---------------------------------------------------------------------

  datatype MattermostConfig = MattermostConfig(webhookUrl: Option<string>, channel: Option<string>)

  datatype NotificationToggles = NotificationToggles(shellAccess: Option<bool>, portForward: Option<bool>)

  /** The controller's `config_data` dictionary; every key may be missing. */
  datatype ConfigData = ConfigData(
    mattermost: Option<MattermostConfig>,
    monitoredNamespace: Option<string>,
    notifications: Option<NotificationToggles>)

  const DefaultNamespace: string := "my-namespace"
  const DefaultChannel: string := "alerts"
  const BotName: string := "KubeGuard"
  const IconEmoji: string := ":warning:"

  /** The empty dictionary the controller starts from before loading. */
  const EmptyConfig: ConfigData := ConfigData(None, None, None)

  /** `monitored_namespace`, defaulting to "my-namespace". */
  function MonitoredNamespace(cfg: ConfigData): string {
    cfg.monitoredNamespace.GetOr(DefaultNamespace)
  }

  /** `mattermost.webhook_url`, absent when either key is missing. */
  function WebhookUrl(cfg: ConfigData): Option<string> {
    match cfg.mattermost
    case None => None
    case Some(m) => m.webhookUrl
  }

  /** `mattermost.channel`, defaulting to "alerts". */
  function Channel(cfg: ConfigData): string {
    match cfg.mattermost
    case None => DefaultChannel
    case Some(m) => m.channel.GetOr(DefaultChannel)
  }

  /** The configuration `load_config` falls back to when the ConfigMap cannot
      be read; `webhookEnv` and `channelEnv` are the values of the
      MATTERMOST_WEBHOOK_URL and MATTERMOST_CHANNEL environment variables. */
  function FallbackConfig(webhookEnv: Option<string>, channelEnv: Option<string>): (cfg: ConfigData)
    ensures WebhookUrl(cfg) == Some(webhookEnv.GetOr(""))
    ensures Channel(cfg) == channelEnv.GetOr(DefaultChannel)
    ensures MonitoredNamespace(cfg) == DefaultNamespace
    ensures NotificationEnabled(cfg, ShellAccess) && NotificationEnabled(cfg, PortForward)
  {
    ConfigData(
      Some(MattermostConfig(Some(webhookEnv.GetOr("")), Some(channelEnv.GetOr(DefaultChannel)))),
      Some(DefaultNamespace),
      Some(NotificationToggles(Some(true), Some(true))))
  }

  /** The configuration after `load_config`: the parsed ConfigMap when it
      could be read (`loaded`), the fallback otherwise. */
  function LoadedConfig(loaded: Option<ConfigData>, webhookEnv: Option<string>, channelEnv: Option<string>): ConfigData {
    match loaded
    case Some(cfg) => cfg
    case None => FallbackConfig(webhookEnv, channelEnv)
  }

  // ---------------------------------------------------------------------
  // Admission requests
  // ---------------------------------------------------------------------

  /** The `kind` object of a request; only its `kind` member is read. */
  datatype GroupVersionKind = GroupVersionKind(kind: Option<string>)

  datatype UserInfo = UserInfo(username: Option<string>, groups: Option<seq<string>>)

  /** The `request` object of an admission review, reduced to the fields the
      controller reads. */
  datatype AdmissionRequest = AdmissionRequest(
    uid: Option<string>,
    kind: Option<GroupVersionKind>,
    namespace: Option<string>,
    name: Option<string>,
    userInfo: Option<UserInfo>)

  const ExecKind: string := "PodExecOptions"
  const PortForwardKind: string := "PodPortForwardOptions"

  /** `kind.kind`, absent when either level is missing. */
  function KindOf(req: AdmissionRequest): Option<string> {
    match req.kind
    case None => None
    case Some(k) => k.kind
  }

  /** `namespace`, defaulting to the empty string. */
  function NamespaceOf(req: AdmissionRequest): string {
    req.namespace.GetOr("")
  }

  /** `name`, defaulting to "unknown". */
  function PodNameOf(req: AdmissionRequest): string {
    req.name.GetOr("unknown")
  }

  datatype Operation = ShellAccess | PortForward

  /** The operation a request kind stands for, independently of any namespace. */
  function OperationOfKind(kind: string): Option<Operation> {
    if kind == ExecKind then Some(ShellAccess)
    else if kind == PortForwardKind then Some(PortForward)
    else None
  }

  /** Whether the request lies in the single monitored namespace. */
  predicate InMonitoredNamespace(cfg: ConfigData, req: AdmissionRequest) {
    NamespaceOf(req) == MonitoredNamespace(cfg)
  }

  /** The monitored operation a request performs, if any: a reference
      definition of what the two classifiers below decide together. */
  function MonitoredOperation(cfg: ConfigData, req: AdmissionRequest): Option<Operation> {
    match KindOf(req)
    case None => None
    case Some(k) => if InMonitoredNamespace(cfg, req) then OperationOfKind(k) else None
  }

  /** `is_shell_access`: the kind is PodExecOptions and the namespace is the
      monitored one. */
  predicate IsShellAccess(cfg: ConfigData, req: AdmissionRequest)
    ensures IsShellAccess(cfg, req) <==> MonitoredOperation(cfg, req) == Some(ShellAccess)
  {
    if KindOf(req) != Some(ExecKind) then false
    else NamespaceOf(req) == MonitoredNamespace(cfg)
  }

  /** `is_port_forward`: the kind is PodPortForwardOptions and the namespace is
      the monitored one. */
  predicate IsPortForward(cfg: ConfigData, req: AdmissionRequest)
    ensures IsPortForward(cfg, req) <==> MonitoredOperation(cfg, req) == Some(PortForward)
  {
    if KindOf(req) != Some(PortForwardKind) then false
    else NamespaceOf(req) == MonitoredNamespace(cfg)
  }

  /** No request is both shell access and port forwarding. */
  lemma ClassifiersExclusive(cfg: ConfigData, req: AdmissionRequest)
    ensures !(IsShellAccess(cfg, req) && IsPortForward(cfg, req))
  {
  }

  /** A request outside the monitored namespace, or of any other kind, is
      neither shell access nor port forwarding. */
  lemma UnmonitoredIsNeither(cfg: ConfigData, req: AdmissionRequest)
    requires !InMonitoredNamespace(cfg, req) || KindOf(req) !in {Some(ExecKind), Some(PortForwardKind)}
    ensures !IsShellAccess(cfg, req) && !IsPortForward(cfg, req)
  {
  }

  /** Whether the notification toggle for `op` is on; a missing toggle is on. */
  predicate NotificationEnabled(cfg: ConfigData, op: Operation) {
    match cfg.notifications
    case None => true
    case Some(t) =>
      match op
      case ShellAccess => t.shellAccess.GetOr(true)
      case PortForward => t.portForward.GetOr(true)
  }

  datatype UserIdentity = UserIdentity(username: string, groups: seq<string>)

  /** `get_user_info`: the user name and groups, "unknown" and [] when absent. */
  function GetUserInfo(req: AdmissionRequest): (id: UserIdentity)
    ensures (req.userInfo.None? || req.userInfo.value.username.None?) ==> id.username == "unknown"
    ensures req.userInfo.Some? && req.userInfo.value.username.Some? ==>
              id.username == req.userInfo.value.username.value
    ensures (req.userInfo.None? || req.userInfo.value.groups.None?) ==> id.groups == []
    ensures req.userInfo.Some? && req.userInfo.value.groups.Some? ==>
              id.groups == req.userInfo.value.groups.value
  {
    var info := req.userInfo.GetOr(UserInfo(None, None));
    UserIdentity(info.username.GetOr("unknown"), info.groups.GetOr([]))
  }

  // ---------------------------------------------------------------------
  // Alert messages
  // ---------------------------------------------------------------------

  /** What an alert reports; `time` is the formatted timestamp. */
  datatype Alert = Alert(op: Operation, user: string, namespace: string, pod: string, time: string)

  function Header(op: Operation): string {
    match op
    case ShellAccess => ":warning: **Shell Access Alert**"
    case PortForward => ":warning: **Port Forward Alert**"
  }

  function ActionLine(op: Operation): string {
    match op
    case ShellAccess => "Action: Shell access (kubectl exec)"
    case PortForward => "Action: Port forwarding"
  }

  /** The six lines of an alert, in order. */
  function AlertLines(a: Alert): seq<string> {
    [ Header(a.op),
      "User: `" + a.user + "`",
      "Namespace: `" + a.namespace + "`",
      "Pod: `" + a.pod + "`",
      ActionLine(a.op),
      "Time: " + a.time + " UTC" ]
  }

  /** An alert whose reported values each fit on one line. */
  predicate WellFormedAlert(a: Alert) {
    IsLine(a.user) && IsLine(a.namespace) && IsLine(a.pod) && IsLine(a.time)
  }

  /** Text `prefix + inner + suffix` is one line when each part is. */
  lemma FieldLine(prefix: string, inner: string, suffix: string)
    requires IsLine(prefix) && IsLine(inner) && IsLine(suffix)
    ensures IsLine(prefix + inner + suffix)
  {
    ConcatLine(prefix, inner);
    ConcatLine(prefix + inner, suffix);
  }

  lemma AlertLinesAreLines(a: Alert)
    requires WellFormedAlert(a)
    ensures AllLines(AlertLines(a))
  {
    FieldLine("User: `", a.user, "`");
    FieldLine("Namespace: `", a.namespace, "`");
    FieldLine("Pod: `", a.pod, "`");
    FieldLine("Time: ", a.time, " UTC");
    HeaderIsLine(a.op);
    ActionLineIsLine(a.op);
    var lines := AlertLines(a);
    forall i | 0 <= i < |lines| ensures IsLine(lines[i]) {
    }
  }

  lemma HeaderIsLine(op: Operation)
    ensures IsLine(Header(op))
  {
    match op
    case ShellAccess => assert IsLine(":warning: **Shell Access Alert**");
    case PortForward => assert IsLine(":warning: **Port Forward Alert**");
  }

  lemma ActionLineIsLine(op: Operation)
    ensures IsLine(ActionLine(op))
  {
    match op
    case ShellAccess => assert IsLine("Action: Shell access (kubectl exec)");
    case PortForward => assert IsLine("Action: Port forwarding");
  }

  /** The message text of an alert: its lines joined by newlines. */
  function RenderAlert(a: Alert): (msg: string)
    ensures |msg| > 0
    ensures WellFormedAlert(a) ==> SplitLines(msg) == AlertLines(a)
  {
    var lines := AlertLines(a);
    if WellFormedAlert(a) then
      AlertLinesAreLines(a);
      SplitJoinLines(lines);
      JoinLines(lines)
    else
      JoinLines(lines)
  }

  /** `line` without `prefix` and `suffix`, if it has both. */
  function StripAffixes(line: string, prefix: string, suffix: string): (inner: Option<string>)
    ensures inner.Some? ==> prefix + inner.value + suffix == line
  {
    if |prefix| + |suffix| <= |line|
       && line[..|prefix|] == prefix
       && line[|line| - |suffix|..] == suffix
    then
      var mid := line[|prefix|..|line| - |suffix|];
      assert line == line[..|prefix|] + mid + line[|line| - |suffix|..];
      Some(mid)
    else None
  }

  lemma StripAffixesOf(prefix: string, inner: string, suffix: string)
    ensures StripAffixes(prefix + inner + suffix, prefix, suffix) == Some(inner)
  {
  }

  function OperationOfHeader(line: string): Option<Operation> {
    if line == Header(ShellAccess) then Some(ShellAccess)
    else if line == Header(PortForward) then Some(PortForward)
    else None
  }

  /** Reads an alert back from its message text: the inverse of RenderAlert. */
  function ParseAlert(msg: string): Option<Alert> {
    var lines := SplitLines(msg);
    if |lines| != 6 then None
    else
      match OperationOfHeader(lines[0])
      case None => None
      case Some(op) =>
        var user := StripAffixes(lines[1], "User: `", "`");
        var ns := StripAffixes(lines[2], "Namespace: `", "`");
        var pod := StripAffixes(lines[3], "Pod: `", "`");
        var time := StripAffixes(lines[5], "Time: ", " UTC");
        if user.Some? && ns.Some? && pod.Some? && time.Some? && lines[4] == ActionLine(op)
        then Some(Alert(op, user.value, ns.value, pod.value, time.value))
        else None
  }

  /** Every well-formed alert can be read back from its message, so the
      message determines the operation, user, namespace, pod and time. */
  lemma ParseRenderAlert(a: Alert)
    requires WellFormedAlert(a)
    ensures ParseAlert(RenderAlert(a)) == Some(a)
  {
    var lines := AlertLines(a);
    assert SplitLines(RenderAlert(a)) == lines;
    assert OperationOfHeader(lines[0]) == Some(a.op);
    StripAffixesOf("User: `", a.user, "`");
    StripAffixesOf("Namespace: `", a.namespace, "`");
    StripAffixesOf("Pod: `", a.pod, "`");
    StripAffixesOf("Time: ", a.time, " UTC");
  }

  /** Distinct well-formed alerts give distinct messages. */
  lemma RenderAlertInjective(a: Alert, b: Alert)
    requires WellFormedAlert(a) && WellFormedAlert(b)
    requires RenderAlert(a) == RenderAlert(b)
    ensures a == b
  {
    ParseRenderAlert(a);
    ParseRenderAlert(b);
  }

  /** The alert `process_admission_request` builds for a request: only for a
      monitored operation whose toggle is on, and the shell-access branch is
      decided first. */
  function AlertFor(cfg: ConfigData, req: AdmissionRequest, time: string): Option<Alert> {
    if IsShellAccess(cfg, req) then
      if NotificationEnabled(cfg, ShellAccess)
      then Some(Alert(ShellAccess, GetUserInfo(req).username, NamespaceOf(req), PodNameOf(req), time))
      else None
    else if IsPortForward(cfg, req) then
      if NotificationEnabled(cfg, PortForward)
      then Some(Alert(PortForward, GetUserInfo(req).username, NamespaceOf(req), PodNameOf(req), time))
      else None
    else None
  }

  /** The message `process_admission_request` sends, if any. */
  function MessageFor(cfg: ConfigData, req: AdmissionRequest, time: string): Option<string> {
    match AlertFor(cfg, req, time)
    case None => None
    case Some(a) => Some(RenderAlert(a))
  }

  /** A message is built exactly when the request is a monitored operation
      whose toggle is on. */
  lemma MessageIffMonitoredAndEnabled(cfg: ConfigData, req: AdmissionRequest, time: string)
    ensures MessageFor(cfg, req, time).Some? <==>
              exists op :: MonitoredOperation(cfg, req) == Some(op) && NotificationEnabled(cfg, op)
  {
  }

  /** Turning the shell-access toggle off silences a shell-access request
      instead of letting it fall through to the port-forward branch. */
  lemma ShellToggleOffMeansNoMessage(cfg: ConfigData, req: AdmissionRequest, time: string)
    requires IsShellAccess(cfg, req) && !NotificationEnabled(cfg, ShellAccess)
    ensures MessageFor(cfg, req, time) == None
  {
  }

  /** The message reports the operation, the requesting user, the monitored
      namespace, the pod name (or "unknown") and the given time. */
  lemma MessageReportsRequest(cfg: ConfigData, req: AdmissionRequest, time: string, msg: string)
    requires MessageFor(cfg, req, time) == Some(msg)
    requires IsLine(GetUserInfo(req).username) && IsLine(NamespaceOf(req)) && IsLine(PodNameOf(req)) && IsLine(time)
    ensures ParseAlert(msg) == Some(Alert(MonitoredOperation(cfg, req).value, GetUserInfo(req).username,
                                          MonitoredNamespace(cfg), PodNameOf(req), time))
  {
    var a := AlertFor(cfg, req, time).value;
    assert msg == RenderAlert(a);
    ParseRenderAlert(a);
  }

  // ---------------------------------------------------------------------
  // Sending to Mattermost
  // ---------------------------------------------------------------------

  /** The JSON payload posted to the Mattermost incoming webhook. */
  datatype Payload = Payload(channel: string, username: string, text: string, iconEmoji: string)

  /** One HTTP POST of a payload to a webhook URL. */
  datatype Post = Post(url: string, payload: Payload)

  /** The POST `send_mattermost_notification` makes for a message, or None
      when no webhook URL is configured (missing or empty). */
  function PostFor(cfg: ConfigData, message: string, username: string): (p: Option<Post>)
    ensures p.None? <==> WebhookUrl(cfg) == None || WebhookUrl(cfg) == Some("")
    ensures p.Some? ==> p.value.url == WebhookUrl(cfg).value && p.value.url != ""
    ensures p.Some? ==> p.value.payload == Payload("#" + Channel(cfg), username, message, IconEmoji)
  {
    match WebhookUrl(cfg)
    case None => None
    case Some(url) =>
      if url == "" then None
      else Some(Post(url, Payload("#" + Channel(cfg), username, message, IconEmoji)))
  }

  /** The POSTs one admission request causes: at most one, and one exactly
      when a message is built and a webhook URL is configured. */
  function PostsFor(cfg: ConfigData, req: AdmissionRequest, time: string): (posts: seq<Post>)
    ensures |posts| <= 1
    ensures |posts| == 1 <==> MessageFor(cfg, req, time).Some? && WebhookUrl(cfg) !in {None, Some("")}
    ensures |posts| == 1 ==>
              posts[0].payload.text == MessageFor(cfg, req, time).value && posts[0].payload.username == BotName
  {
    match MessageFor(cfg, req, time)
    case None => []
    case Some(msg) =>
      match PostFor(cfg, msg, BotName)
      case None => []
      case Some(p) => [p]
  }

  /** With the fallback configuration and a webhook URL in the environment, a
      shell-access request in "my-namespace" is posted to that URL and channel. */
  lemma FallbackReportsExecInDefaultNamespace(webhookEnv: string, channelEnv: Option<string>,
                                              req: AdmissionRequest, time: string)
    requires webhookEnv != ""
    requires KindOf(req) == Some(ExecKind) && req.namespace == Some(DefaultNamespace)
    ensures var posts := PostsFor(FallbackConfig(Some(webhookEnv), channelEnv), req, time);
            |posts| == 1 && posts[0].url == webhookEnv
            && posts[0].payload.channel == "#" + channelEnv.GetOr(DefaultChannel)
  {
  }

  /** A request outside the monitored namespace, or of another kind, causes
      no POST whatever the toggles and the webhook URL. */
  lemma OutOfScopeCausesNoPost(cfg: ConfigData, req: AdmissionRequest, time: string)
    requires !InMonitoredNamespace(cfg, req) || KindOf(req) !in {Some(ExecKind), Some(PortForwardKind)}
    ensures PostsFor(cfg, req, time) == []
  {
  }

  const ScenarioRequest: AdmissionRequest :=
    AdmissionRequest(Some("uid-1"), Some(GroupVersionKind(Some(ExecKind))), Some("my-namespace"),
                     Some("web-app-123"), Some(UserInfo(Some("john.doe@company.com"), None)))

  /** The lines of the alert for the request of the scenario below. */
  lemma ExecScenarioLines(time: string)
    ensures AlertLines(Alert(ShellAccess, "john.doe@company.com", "my-namespace", "web-app-123", time))
            == [ ":warning: **Shell Access Alert**",
                 "User: `john.doe@company.com`",
                 "Namespace: `my-namespace`",
                 "Pod: `web-app-123`",
                 "Action: Shell access (kubectl exec)",
                 "Time: " + time + " UTC" ]
  {
    QuotedField("User: `", "john.doe@company.com", "User: `john.doe@company.com`");
    QuotedField("Namespace: `", "my-namespace", "Namespace: `my-namespace`");
    QuotedField("Pod: `", "web-app-123", "Pod: `web-app-123`");
  }

  /** A key, a value in back-quotes, spelled out as one literal. */
  lemma QuotedField(key: string, value: string, line: string)
    requires |line| == |key| + |value| + 1
    requires line[..|key|] == key && line[|key|..|line| - 1] == value && line[|line| - 1] == '`'
    ensures key + value + "`" == line
  {
    assert line == line[..|key|] + line[|key|..|line| - 1] + [line[|line| - 1]];
  }

  /** A shell-access request by john.doe@company.com on pod web-app-123 in the
      monitored namespace, with every toggle at its default, posts exactly
      this text to the configured channel. */
  lemma ExecScenario(url: string, time: string)
    requires url != ""
    ensures var cfg := ConfigData(Some(MattermostConfig(Some(url), None)), None, None);
            PostsFor(cfg, ScenarioRequest, time) ==
              [Post(url, Payload("#alerts", "KubeGuard",
                                 JoinLines([ ":warning: **Shell Access Alert**",
                                             "User: `john.doe@company.com`",
                                             "Namespace: `my-namespace`",
                                             "Pod: `web-app-123`",
                                             "Action: Shell access (kubectl exec)",
                                             "Time: " + time + " UTC" ]),
                                 ":warning:"))]
  {
    var cfg := ConfigData(Some(MattermostConfig(Some(url), None)), None, None);
    var a := Alert(ShellAccess, "john.doe@company.com", "my-namespace", "web-app-123", time);
    assert AlertFor(cfg, ScenarioRequest, time) == Some(a);
    ExecScenarioLines(time);
    var msg := RenderAlert(a);
    assert MessageFor(cfg, ScenarioRequest, time) == Some(msg);
    assert "#" + Channel(cfg) == "#alerts";
    assert PostFor(cfg, msg, BotName) == Some(Post(url, Payload("#alerts", "KubeGuard", msg, ":warning:")));
  }

  /** The same request with the shell-access toggle off causes no POST. */
  lemma ExecToggleOffScenario(url: string, time: string)
    ensures var cfg := ConfigData(Some(MattermostConfig(Some(url), None)), None,
                                  Some(NotificationToggles(Some(false), None)));
            PostsFor(cfg, ScenarioRequest, time) == []
  {
  }

  /** What became of one attempt to notify Mattermost; the controller never
      looks at it. */
  datatype SendOutcome = Skipped | Delivered | Failed

  // ---------------------------------------------------------------------
  // The controller
  // ---------------------------------------------------------------------

  /** `KubeGuardController`: its configuration and, standing for the network,
      the sequence of every POST it has attempted. */
  class KubeGuardController {
    var configData: ConfigData
    var outbox: seq<Post>

    /** `__init__`: start from the empty dictionary, then `load_config`.
        `loaded` is the parsed ConfigMap, None when reading it failed. */
    constructor (loaded: Option<ConfigData>, webhookEnv: Option<string>, channelEnv: Option<string>)
      ensures configData == LoadedConfig(loaded, webhookEnv, channelEnv)
      ensures outbox == []
    {
      configData := EmptyConfig;
      outbox := [];
      new;
      LoadConfig(loaded, webhookEnv, channelEnv);
    }

    /** `load_config`: adopt the ConfigMap's configuration, or the fallback. */
    method LoadConfig(loaded: Option<ConfigData>, webhookEnv: Option<string>, channelEnv: Option<string>)
      modifies this`configData
      ensures configData == LoadedConfig(loaded, webhookEnv, channelEnv)
    {
      match loaded {
        case Some(cfg) =>
          configData := cfg;
        case None =>
          configData := FallbackConfig(webhookEnv, channelEnv);
      }
    }

    /** `send_mattermost_notification`: skip when no webhook URL is set,
        otherwise post once; `delivered` stands for whether the POST
        succeeded, and a failure is absorbed into the outcome. */
    method SendMattermostNotification(message: string, username: string, delivered: bool)
      returns (outcome: SendOutcome)
      modifies this`outbox
      ensures PostFor(configData, message, username).None? ==>
                outcome == Skipped && outbox == old(outbox)
      ensures PostFor(configData, message, username).Some? ==>
                outcome == (if delivered then Delivered else Failed)
                && outbox == old(outbox) + [PostFor(configData, message, username).value]
    {
      var url := WebhookUrl(configData);
      var channel := Channel(configData);
      if url.None? || url.value == "" {
        return Skipped;
      }
      var payload := Payload("#" + channel, username, message, IconEmoji);
      outbox := outbox + [Post(url.value, payload)];
      if delivered {
        outcome := Delivered;
      } else {
        outcome := Failed;
      }
    }

    /** `process_admission_request`: build the message step by step and send
        it if there is one. Nothing is returned and nothing can fail; the
        outbox grows by exactly the POSTs the request calls for. */
    method ProcessAdmissionRequest(req: AdmissionRequest, time: string, delivered: bool)
      modifies this`outbox
      ensures outbox == old(outbox) + PostsFor(configData, req, time)
      ensures |outbox| <= |old(outbox)| + 1
    {
      var identity := GetUserInfo(req);
      var namespace := NamespaceOf(req);
      var message: Option<string> := None;

      if IsShellAccess(configData, req) {
        if NotificationEnabled(configData, ShellAccess) {
          var podName := PodNameOf(req);
          message := Some(RenderAlert(Alert(ShellAccess, identity.username, namespace, podName, time)));
        }
      } else if IsPortForward(configData, req) {
        if NotificationEnabled(configData, PortForward) {
          var podName := PodNameOf(req);
          message := Some(RenderAlert(Alert(PortForward, identity.username, namespace, podName, time)));
        }
      }

      assert message == MessageFor(configData, req, time);
      if message.Some? {
        var _ := SendMattermostNotification(message.value, BotName, delivered);
      }
    }
  }
}
