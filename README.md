# kube-guard admission pipeline in Dafny

kube-guard is a Kubernetes admission webhook that watches two sensitive pod
operations: shell access (`kubectl exec`, request kind `PodExecOptions`) and
port forwarding (request kind `PodPortForwardOptions`). When one of them
happens in the monitored namespace, it posts an alert to a Mattermost incoming
webhook. It never blocks anything. Every well-formed admission review is
answered with `allowed = true`, and the request's `uid` is echoed back.

This project models the decision pipeline of `main.py`:

- `Wrappers.dfy`: the `Option` type for the optional fields of requests and
  configuration.
- `Text.dfy`: joining lines with `\n` and splitting on `\n`, with the proof
  that splitting undoes joining.
- `Base64.dfy`: the base64 encoder of section 4 of RFC 4648. The mutating
  webhook uses it for its empty JSON patch.
- `KubeGuard.dfy`: the controller's configuration (`config_data`) with its
  defaults, the fallback configuration of `load_config`, the admission
  request, and the two classifiers `is_shell_access` and `is_port_forward`.
  It also holds `get_user_info`, the alert message, the Mattermost payload,
  and the class `KubeGuardController`. That class has a `configData` field and
  an `outbox` field. The outbox stands for the network: it records every POST
  the controller attempts.
- `Webhook.dfy`: the replies of `/validate` and `/mutate`, and the two
  endpoint methods. Each method hands the request to the controller and then
  answers.

The controller object is passed to the endpoint methods as a parameter. In
the source it is a module-level global.

Two things that the source gets from its environment are parameters here:

- The clock reading `time`. This is the `%Y-%m-%d %H:%M:%S` part of the
  timestamp; the message adds ` UTC` after it.
- The outcome of the HTTP POST, `delivered`.

The admission reply does not depend on either of them. `Webhook.Validate`
and `Webhook.Mutate` return exactly `ValidateReply(body)` and
`MutateReply(body)`. Those two functions read only the review body. They do
not see the configuration, the clock, or the outcome of the send. This is the
fail-open property.

Nothing in `ProcessAdmissionRequest` can fail. A malformed nested field is
modelled as an absent one. So the method has no error path to propagate, and
it adds at most one POST to the outbox per request.

On these points the model follows `main.py`:

- Requests are matched on `kind.kind`, not on a subresource field.
- `monitored_namespace` is a single string compared with `==`, not a set of
  namespaces.
- The header is `:warning: **Shell Access Alert**` or
  `:warning: **Port Forward Alert**`. The user, namespace and pod values are
  in back-quotes.
- A missing or empty webhook URL makes every send a no-op. It does not stop
  the controller from starting.
- `/mutate` answers a body without `request` with a 500 reply, not a 400.

Because every operation is a function of its inputs and the timestamp, the
same inputs always give the same message.

## Model

| member | source | states |
|---|---|---|
| KubeGuard.FallbackConfig | main.py:53-66 | the fallback configuration has the webhook URL from the environment (or `''`), the channel from the environment (or `'alerts'`), monitored namespace `'my-namespace'`, and both toggles on |
| KubeGuard.KubeGuardController.constructor | main.py:18-21 | a new controller holds the loaded configuration (ConfigMap or fallback) and has sent nothing yet |
| KubeGuard.KubeGuardController.LoadConfig | main.py:38-66 | the configuration becomes the ConfigMap's when it could be read, and the fallback otherwise |
| KubeGuard.IsShellAccess | main.py:91-98 | true iff `kind.kind` is `PodExecOptions` and the request namespace (default `''`) equals the monitored namespace (default `'my-namespace'`) |
| KubeGuard.IsPortForward | main.py:100-107 | true iff `kind.kind` is `PodPortForwardOptions` and the request namespace equals the monitored namespace |
| KubeGuard.ClassifiersExclusive | main.py:91-107 | no request is both shell access and port forwarding |
| KubeGuard.UnmonitoredIsNeither | main.py:91-107 | a request outside the monitored namespace, or of any other kind, matches neither classifier |
| KubeGuard.GetUserInfo | main.py:109-114 | username is `'unknown'` when `userInfo` or its `username` is absent, and is passed through otherwise; groups are `[]` when absent, and are passed through otherwise |
| KubeGuard.RenderAlert | main.py:127-143 | the message is never empty, and when every reported value fits on one line it splits into exactly the six alert lines (header, User, Namespace, Pod, Action, Time) |
| KubeGuard.ParseRenderAlert | main.py:127-143 | the operation, user, namespace, pod and time can be read back from the rendered message |
| KubeGuard.RenderAlertInjective | main.py:127-143 | distinct alerts with one-line values render to distinct messages |
| KubeGuard.MessageIffMonitoredAndEnabled | main.py:123-143 | a message is built iff the request is a monitored operation whose toggle is on; a missing toggle counts as on |
| KubeGuard.ShellToggleOffMeansNoMessage | main.py:125-136 | with the shell-access toggle off, a shell-access request gets no message; it does not fall through to the port-forward branch |
| KubeGuard.MessageReportsRequest | main.py:119-143 | a built message reports the classified operation, the user from `get_user_info`, the monitored namespace, the pod name (default `'unknown'`) and the given time |
| KubeGuard.PostFor | main.py:68-82 | nothing is posted iff the webhook URL is missing or empty; otherwise one POST goes to that URL with channel `'#' + channel`, the given username, the message as text, and icon `:warning:` |
| KubeGuard.PostsFor | main.py:123-146 | a request causes at most one POST; there is one iff a message is built and a webhook URL is set, and it carries that message as username `KubeGuard` |
| KubeGuard.FallbackReportsExecInDefaultNamespace | main.py:56-66 | under the fallback configuration with a webhook URL set, a `PodExecOptions` request in `my-namespace` is posted once, to that URL and channel |
| KubeGuard.OutOfScopeCausesNoPost | main.py:125-146 | a request outside the monitored namespace, or of any other kind, causes no POST |
| KubeGuard.ExecScenario | main.py:125-146 | john.doe@company.com opening a shell on pod web-app-123 in `my-namespace`, with default toggles and no channel set, posts exactly the six-line shell-access alert to `#alerts` under the name `KubeGuard` |
| KubeGuard.ExecToggleOffScenario | main.py:125-126 | the same request with `notifications.shell_access: false` posts nothing |
| KubeGuard.KubeGuardController.SendMattermostNotification | main.py:68-89 | with no webhook URL the outcome is Skipped and the outbox is unchanged; otherwise exactly one POST is appended, and a failed POST only changes the outcome |
| KubeGuard.KubeGuardController.ProcessAdmissionRequest | main.py:116-149 | the outbox grows by exactly the POSTs the request calls for (at most one), the configuration is unchanged, and no failure reaches the caller |
| Base64.Encode | main.py:209 | base64 text uses only the alphabet of section 4 of RFC 4648 and `=`, and has no padding exactly when it is 4/3 as long as its input |
| Base64.DecodeEncode | main.py:209 | decoding the base64 text gives back exactly the encoded bytes, so the text encodes those bytes and no others |
| Base64.EncodeLength | main.py:209 | the encoded length is four characters per group of three bytes, counting a final short group as a full one |
| Webhook.EmptyPatch | main.py:209 | the base64 of the JSON text `[]` is `W10=` |
| Webhook.ValidateReply | main.py:164-192 | the reply is a 400 `Invalid admission review` when the body is empty or has no `request`, and a 500 with the AttributeError text when `request` is null; otherwise it is an `admission.k8s.io/v1` AdmissionReview with `allowed = true`, the request's `uid` and no patch |
| Webhook.MutateReply | main.py:194-220 | the reply is a 500 iff the body has no `request` object (with the AttributeError text when `request` is null); otherwise it is an allowing AdmissionReview with the request's `uid`, `patchType` `JSONPatch` and patch `W10=` |
| Webhook.EndpointsAgreeOnDecision | main.py:179-210 | both endpoints allow every request they answer, and they echo the same uid |
| Webhook.Validate | main.py:164-192 | the reply is `ValidateReply(body)` whatever the configuration, clock or send outcome; the outbox grows, by exactly the POSTs the request calls for, only when the body has a request object |
| Webhook.Mutate | main.py:194-220 | the reply is `MutateReply(body)` whatever the configuration, clock or send outcome; the outbox grows, by exactly the POSTs the request calls for, only when the body has a request object |

## Left out

- Flask routing, HTTP plumbing other than the 400/500/allow replies, the constant `/healthz` and `/readyz` endpoints, the listening port, and TLS (`ssl_context='adhoc'`). These are transport.
- `requests.post`, its 10-second timeout and `raise_for_status`. The POST is an entry appended to the outbox, and `delivered` is an arbitrary success flag that the controller ignores.
- `load_kubernetes_config`, `read_namespaced_config_map`, YAML parsing and `os.getenv`. These are foreign calls and environment access. The parsed ConfigMap comes in as `loaded: Option<ConfigData>`, and the two environment variables come in as options.
- A ConfigMap whose YAML is empty or is not a mapping, and config values of unexpected types (a list for `monitored_namespace`, a non-boolean toggle, a null channel). The model's configuration fields are typed.
- An empty YAML makes `config_data` `None` in the source. A request of one of the two monitored kinds then raises when its classifier reads the configuration (main.py:98, main.py:107), and the exception is swallowed. A request of any other kind returns from both classifiers before the configuration is read (main.py:94-95, main.py:103-104), so it does not raise. Either way no message is sent. The model has no `None` configuration.
- `datetime.now().strftime(...)`: the wall clock. The formatted time is the parameter `time`. The source labels local time as "UTC", and the model does not decide which zone the parameter is in.
- Logging and Python's exception mechanics. Request fields are either present with the right type or absent. A JSON null or a wrong-typed field is not modelled, and the source treats it differently from an absent one:
  - A null or non-object `kind` or `userInfo` makes `process_admission_request` raise, and the exception is swallowed, so no message is sent. A null `userInfo` would be read by the model as an absent one, so such a request would get a message with user `unknown`.
  - A null `name` or `userInfo.username` is passed through by `dict.get` (main.py:112, main.py:127, main.py:137) and printed as ``Pod: `None` `` or ``User: `None` ``. The model has no null here; the same text comes out when the string `"None"` is passed as the field, while an absent field gives `unknown`.
  - A null `namespace` never equals the monitored namespace. The model reads it as `''`, which differs only when the monitored namespace is itself `''`.
- Request bodies that are JSON values other than an object or null, and `request` members that are neither an object nor null (a list, a string). In the source, `validate` and `mutate` pass such a `request` to the controller, which swallows the error, and then answer 500 from `admission_request.get('uid')` (main.py:180, main.py:190-192). The model covers only the null `request`, which takes that same path.
- `GetUserInfo` also returns the groups, but `process_admission_request` does not use them. The model does the same.
