# zabbix-lld-ws, modelled in Dafny

zabbix-lld-ws is a small command-line tool. It reads a list of URLs, each
paired with a Zabbix host. The list comes from a text file of `host|url`
rows, or from Zabbix items whose keys look like `<mask>[<url>]`. For every
URL, the tool makes sure that Zabbix has:

- a monitoring item;
- a web scenario that fetches the page;
- a trigger.

Each of the three is created only when a lookup shows it is missing. Names
and expressions come from configured templates: `${HOST}` and `${URL}` are
placeholders, and item templates mark the URL with `{}`.

This project models that core and proves properties of the model:

- the template engine (`Template`);
- the two URL-source parsers (`FileSource`, `ZabbixSource`);
- the reconciliation loop (`Reconcile`, with `ReconcileProperties` for what
  it guarantees);
- host resolution (`Hosts`);
- the older request builders and create-if-missing helpers (`Envelope`,
  `Service`, `LegacyWebScenarios`, `LegacyTriggers`).

`Strings` defines Rust's `str::replace`, `str::split` and `starts_with`
within the limits the source uses them in: `Replace` takes a non-empty
pattern only, and `Split` a one-character separator only. `ZabbixApi` stands in for the Zabbix server.

## How the model is built

The Zabbix server is the value `ZabbixApi.Server`. It holds:

- the known host ids by host name;
- the sets of item keys, web-scenario names and trigger descriptions;
- the log of create calls made;
- an optional request that the server refuses.

`ZabbixApi.ZabbixClient` is a class over that state. Its lookups are
methods that change nothing. Its create methods change the state exactly as
the corresponding `Server` function says.

The reconciliation has two forms:

- `Reconcile.GenerateWebScenariosAndTriggers`, a method with the source's
  loop, which runs against the client;
- `Reconcile.Generate`, a function on `Server` values.

The method is proved to leave the client in the state `Generate` describes
and to return the same result. The properties of the run are proved about
`Generate` in `ReconcileProperties`:

- idempotence;
- abort on the first failure;
- host-id carry-over;
- exactly which create calls are made.

The file parser and the Zabbix provider are also loops, over a `seq` of
rows or items. Each is proved equal to a function that judges one row or
one item and concatenates the results in order.

The source iterates a `HashMap` of template variables, so the order of
replacement is unspecified. `Template.Vars` is therefore an explicit
sequence of pairs, applied first to last. Independence of that order is
proved only for the shape of the source's own example
(`Template.ExampleResolvedEitherOrder`).

The older helpers send their requests over HTTP. Here the HTTP call is a
function parameter `send`. Its reply is either `Unparseable` or a parsed
object with optional `result` and `error` members. Where the source only
logs whether a create was sent, the model returns an
`Envelope.Attempt(sent, result)` so that this can be stated.

## Model

| member | source | states |
|---|---|---|
| Template.ProcessTemplateString | src/template.rs:6-15 | the result is each variable's `${KEY}` replaced in turn, every occurrence; no variables, or no `${` in the input, leaves the input unchanged |
| Template.SubstituteEveryOccurrence | src/template.rs:10-11 | a placeholder occurring several times is replaced at every occurrence, not only the first |
| Template.SubstituteWithoutPlaceholders | src/template.rs:7-14 | an input without `${` comes back unchanged, whatever the variables |
| Template.SubstituteKeepsPlainPrefix | src/template.rs:9-12 | text before the first `$` is never altered by any substitution |
| Template.TemplateVars | src/template.rs:17-22 | exactly two bindings, with distinct keys |
| Template.TemplateVarsLookup | src/template.rs:17-22 | HOST is bound to the host, URL to the url, and no other key is bound |
| Template.SubstituteHostThenUrl | src/template.rs:9-12 | a text with a HOST and then a URL placeholder gets both values when HOST is applied first |
| Template.SubstituteUrlThenHost | src/template.rs:9-12 | the same text gives the same result when URL is applied first |
| Template.SubstituteHostOnly | src/template.rs:47-58 | with only HOST bound, the URL placeholder is kept verbatim |
| Template.ExampleResolved | src/template.rs:30-45 | the example template `this is a ${HOST}, url check ${URL}.` becomes `this is a <host>, url check <url>.` for every `$`-free host and url |
| Template.ExampleResolvedEitherOrder | src/template.rs:9-12 | for the example template, the map's iteration order does not change the result |
| Template.ExampleUnknownKeyKept | src/template.rs:47-58 | with only HOST bound, the example keeps `${URL}` verbatim |
| Template.Substitute | src/template.rs:6-15 | definition, no contract: each binding in turn replaces every occurrence of its placeholder in the running text; properties in Template.ProcessTemplateString, Template.SubstituteEveryOccurrence, Template.SubstituteWithoutPlaceholders, Template.SubstituteHostThenUrl |
| Strings.ReplaceEveryOccurrence | src/command/generate/items.rs:56 | `replace` substitutes every non-overlapping occurrence of the pattern |
| Strings.SplitJoin | src/source/file.rs:32 | splitting loses nothing: joining the parts with the separator gives the text back |
| Strings.JoinSplit | src/source/file.rs:32 | splitting parts joined by a separator they do not contain gives the parts back |
| Strings.SplitCount | src/source/file.rs:38-40 | splitting gives one more part than there are separators |
| Strings.SplitPartsFree | src/source/file.rs:38 | no part of a split holds the separator |
| Strings.Replace | src/template.rs:11 | definition, no contract: leftmost, non-overlapping replacement of a non-empty pattern; properties in Strings.ReplaceEveryOccurrence |
| Strings.Split | src/source/file.rs:32 | a split always has at least one part; further properties in Strings.SplitJoin, Strings.JoinSplit, Strings.SplitCount, Strings.SplitPartsFree |
| FileSource.GetUrlSources | src/source/file.rs:26-58 | a read failure is the error `unable to read url source file` around the cause; otherwise the sources of the `\n`-separated rows, in row order |
| FileSource.ParseRowAccepts | src/source/file.rs:38-40 | a row is accepted iff it holds exactly one pipe character and does not start with `#` |
| FileSource.ParseRowParts | src/source/file.rs:41-47 | an accepted row is its host, a pipe character, and its url, untrimmed |
| FileSource.ParseRowRoundTrip | src/source/file.rs:38-47 | writing a source as host, pipe, url and parsing the row gives the source back |
| FileSource.ParsedRowsAppend | src/source/file.rs:36-56 | rows are judged one at a time and their sources concatenated in order |
| FileSource.ParsedRowsBound | src/source/file.rs:34-52 | at most one source per row |
| FileSource.ParsedRowsMember | src/source/file.rs:36-56 | a source is in the output iff some row parses to it; rejected rows are skipped without error |
| FileSource.TwoRows | src/source/file.rs:68-91 | a file of two well-formed rows yields exactly those two sources, in order |
| FileSource.ParseRow | src/source/file.rs:38-47 | definition, no contract: one row as a source or nothing; properties in FileSource.ParseRowAccepts, FileSource.ParseRowParts, FileSource.ParseRowRoundTrip |
| FileSource.ParsedRows | src/source/file.rs:34-56 | definition, no contract: the sources of the accepted rows, in row order; properties in FileSource.ParsedRowsAppend, FileSource.ParsedRowsBound, FileSource.ParsedRowsMember, FileSource.GetUrlSources |
| ZabbixSource.GetUrlSources | src/source/zabbix.rs:29-93 | a failed login, item lookup or host lookup is an error with its own context and no sources; the host lookup is for the items' host ids; otherwise the sources of the items, in item order |
| ZabbixSource.HostIds | src/source/zabbix.rs:44-45 | the items' host ids, one per item, in item order |
| ZabbixSource.FindHost | src/source/zabbix.rs:79 | the first host carrying the id; none iff no host carries it |
| ZabbixSource.MatchKeyShape | src/source/zabbix.rs:65-76 | a matching key is the mask, `[`, the captured url and `]` |
| ZabbixSource.MatchKeyRoundTrip | src/source/zabbix.rs:65-76 | `<mask>[<url>]` gives back the url, inner `]` included, unless the url holds a line break |
| ZabbixSource.MatchKeyNeedsMask | src/source/zabbix.rs:65-73 | a key that does not start with the mask never matches |
| ZabbixSource.ItemSourcesBound | src/source/zabbix.rs:70-92 | at most one source per item |
| ZabbixSource.ItemSourcesAppend | src/source/zabbix.rs:70-90 | items are handled one at a time and their sources concatenated in order |
| ZabbixSource.ItemSourcesMember | src/source/zabbix.rs:70-90 | a source is produced iff an item's key matches with that url and the first host with the item's host id has that name |
| ZabbixSource.MatchKey | src/source/zabbix.rs:65-76 | definition, no contract: the URL captured by the key pattern, or nothing; properties in ZabbixSource.MatchKeyShape, ZabbixSource.MatchKeyRoundTrip, ZabbixSource.MatchKeyNeedsMask |
| ZabbixSource.ItemSource | src/source/zabbix.rs:73-88 | definition, no contract: one item as a source when its key matches and its host is known; properties in ZabbixSource.ItemSourcesMember |
| ZabbixSource.ItemSources | src/source/zabbix.rs:63-90 | definition, no contract: the sources of the items, in item order; properties in ZabbixSource.ItemSourcesAppend, ZabbixSource.ItemSourcesBound, ZabbixSource.ItemSourcesMember, ZabbixSource.GetUrlSources |
| Hosts.HostRequest | src/zabbix/host.rs:12-16 | the filter names exactly the one host given |
| Hosts.FindZabbixHostId | src/zabbix/host.rs:6-33 | the lookup fails iff the server refuses it, with the error passed back; otherwise it gives the host's id when the host is known, and none, not an error, when it is not |
| Hosts.FindZabbixHostIdStable | src/zabbix/host.rs:18-32 | the answer depends only on the known hosts, so creates do not change it |
| Hosts.FindHostId | src/zabbix/host.rs:6-33 | the lookup through the client: one `host.get` call filtered on the name, then the first host's id; equal to `Hosts.FindZabbixHostId` on the client's state, and used by both host lookups of the run |
| ZabbixApi.Server.HostsNamedAppend | src/zabbix/host.rs:12-18 | the hosts found for a list of names are those found for each name, in the order the names are given |
| ZabbixApi.Server.Login | src/command/generate/items.rs:30 | the login fails iff it is refused, and otherwise gives the session token |
| ZabbixApi.Server.HostsNamed | src/zabbix/host.rs:18 | the hosts found are known hosts among the names asked; a single name finds nothing iff it is unknown |
| ZabbixApi.CreatesAreSeenByLookups | src/command/generate/items.rs:62 | after an accepted create, the lookup for the created key, name or description is no longer empty |
| ZabbixApi.CreateItemEffect | src/command/generate/items.rs:78 | a refused create changes nothing; an accepted one adds its key and logs exactly that call |
| ZabbixApi.ZabbixClient.GetAuthSession | src/command/generate/items.rs:30 | the client answers the login as the server state does |
| ZabbixApi.ZabbixClient.GetHosts | src/zabbix/host.rs:18 | the client answers `host.get` from its own fields, one name at a time, exactly as `Server.GetHosts` does: the refused lookup is an error, otherwise the known hosts among the names, in order |
| ZabbixApi.ZabbixClient.GetItems | src/command/generate/items.rs:58-60 | the client answers the item lookup as the server state does |
| ZabbixApi.ZabbixClient.GetWebScenarios | src/command/generate/items.rs:89-91 | the client answers the web-scenario lookup as the server state does |
| ZabbixApi.ZabbixClient.GetTriggers | src/command/generate/items.rs:115-117 | the client answers the trigger lookup as the server state does |
| ZabbixApi.ZabbixClient.CreateItem | src/command/generate/items.rs:78 | the new client state is the server's state after the create |
| ZabbixApi.ZabbixClient.CreateWebScenario | src/command/generate/items.rs:107 | the new client state is the server's state after the create |
| ZabbixApi.ZabbixClient.CreateTrigger | src/command/generate/items.rs:136 | the new client state is the server's state after the create |
| Requests.Error.RootCause | src/source/file.rs:89 | the root cause is under no context: a context-wrapped error's root cause is its cause's root cause, and an error with no context is its own root cause |
| Reconcile.GenerateWebScenariosAndTriggers | src/command/generate/items.rs:19-149 | the client ends in the state, and the run returns the result, that the run's specification gives for the old state |
| Reconcile.HandleSource | src/command/generate/items.rs:40-146 | one pass of the loop body leaves the client as the one-source specification says, and passes on its host id |
| Reconcile.EnsureItem | src/command/generate/items.rs:56-82 | the item lookup and the create when it is empty, as the item stage specifies |
| Reconcile.EnsureWebScenario | src/command/generate/items.rs:84-111 | the scenario lookup and the create when it is empty, with the create error wrapped in `unable to create web-scenario` |
| Reconcile.EnsureTrigger | src/command/generate/items.rs:113-140 | the trigger lookup and the create when it is empty, as the trigger stage specifies |
| Reconcile.ResolveHostIdPerSource | src/command/generate/items.rs:43-51 | corrected resolution: without a target host, the id is this source's host id, or empty when the host is unknown, whatever earlier sources resolved |
| Reconcile.Generate | src/command/generate/items.rs:19-149 | definition, no contract: login, target host lookup, then the loop over the sources; properties in Reconcile.GenerateWebScenariosAndTriggers, ReconcileProperties.TargetRunCoversEverySource, ReconcileProperties.SecondRunCreatesNothing, ReconcileProperties.NothingBeforeLogin, ReconcileProperties.MissingTargetSkipsEverySource, ReconcileProperties.RunFailsOnlyOnRefusal |
| Reconcile.InitialHostId | src/command/generate/items.rs:32-38 | definition, no contract: the target host's id when a target is named and found, empty when none is named or it is not found, and a failed lookup is the error; properties in ReconcileProperties.MissingTargetSkipsEverySource, ReconcileProperties.TargetRunCoversEverySource |
| Reconcile.ProcessSources | src/command/generate/items.rs:40-146 | definition, no contract: the loop over the sources, stopping at the first failure; properties in ReconcileProperties.ProcessSourcesAppend, ReconcileProperties.ProcessSourcesEffect, ReconcileProperties.ProcessSourcesStable, ReconcileProperties.NoHostSkipsEverySource |
| Reconcile.ProcessSource | src/command/generate/items.rs:41-145 | definition, no contract: one pass of the loop; properties in Reconcile.HandleSource, ReconcileProperties.ProcessSourceEffect, ReconcileProperties.SourceCreatesWhatIsMissing, ReconcileProperties.SourceStopsAtFirstFailure, ReconcileProperties.ProcessSourceStable |
| Reconcile.ResolveHostId | src/command/generate/items.rs:43-51 | definition, no contract: as written, the host id carried into a source; properties in ReconcileProperties.ResolveHostIdCarriesOver, ReconcileProperties.UnknownHostUsesPreviousHostId |
| Reconcile.HostName | src/command/generate/items.rs:43-51 | definition, no contract: the target host name when one is named, otherwise the source's host; used for the template variables in Reconcile.ProcessSource |
| Reconcile.ItemStage | src/command/generate/items.rs:56-82 | definition, no contract: look the item up by key, create it when missing; properties in Reconcile.EnsureItem, ReconcileProperties.ItemStageEffect |
| Reconcile.ScenarioStage | src/command/generate/items.rs:84-111 | definition, no contract: look the scenario up by name, create it when missing; properties in Reconcile.EnsureWebScenario, ReconcileProperties.ScenarioStageEffect |
| Reconcile.TriggerStage | src/command/generate/items.rs:113-140 | definition, no contract: look the trigger up by description, create it when missing; properties in Reconcile.EnsureTrigger, ReconcileProperties.TriggerStageEffect |
| ReconcileProperties.CreateRequestsContents | src/command/generate/items.rs:63-134 | the item carries the filled templates, the host id and the configured fields unchanged; the scenario has one step named like it, number "1"; the trigger's texts are all templated, its priority and recovery mode copied, and it has no dependencies or tags |
| ReconcileProperties.ItemKeyFillsEverySlot | src/command/generate/items.rs:56 | every `{}` of the key template is replaced by the url |
| ReconcileProperties.ItemStageEffect | src/command/generate/items.rs:56-82 | the item is created iff its key is missing; after success it is known; on failure nothing changed and the error is the refused request |
| ReconcileProperties.ScenarioStageEffect | src/command/generate/items.rs:84-111 | the web scenario is created iff its templated name is missing; after success it is known; on failure nothing changed |
| ReconcileProperties.TriggerStageEffect | src/command/generate/items.rs:113-140 | the trigger is created iff its templated description is missing; after success it is known; on failure nothing changed |
| ReconcileProperties.ResolveHostIdCarriesOver | src/command/generate/items.rs:43-51 | with a target host the id is kept; otherwise it is the source host's id, and the previous id when the host is unknown |
| ReconcileProperties.ProcessSourceEffect | src/command/generate/items.rs:40-146 | a source only adds to the server, and fails only on the refused request |
| ReconcileProperties.StagesCreateWhatIsMissing | src/command/generate/items.rs:55-140 | against a server refusing nothing, the three stages create exactly the missing item, scenario and trigger, in that order |
| ReconcileProperties.SourceCreatesWhatIsMissing | src/command/generate/items.rs:43-144 | a source with a resolved id gets exactly its missing creates; one left without an id changes nothing |
| ReconcileProperties.UnknownHostUsesPreviousHostId | src/command/generate/items.rs:43-55 | as written, a source whose host is unknown gets its item created on the host id left by an earlier source |
| ReconcileProperties.SourceStopsAtFirstFailure | src/command/generate/items.rs:60-117 | a source stops at its first failing call: a failing item stage leaves the server as it was and returns that error; a failing scenario stage keeps only the item's create and the step is exactly the scenario stage's server and error, so the trigger stage never runs |
| ReconcileProperties.PerSourceLoopResolvesPerSource | src/command/generate/items.rs:43-51 | the corrected loop resolves each source's host id as the corrected resolution says |
| ReconcileProperties.PerSourceLoopIgnoresUnknownHost | src/command/generate/items.rs:40-146 | in the corrected loop without a target host, a source whose host is unknown has no effect: the run's server and result are those of the run without it |
| ReconcileProperties.ProcessSourcesPerSource | src/command/generate/items.rs:40-146 | definition, no contract: the corrected loop, which resolves each source's host afresh; properties in ReconcileProperties.PerSourceLoopResolvesPerSource, ReconcileProperties.PerSourceLoopIgnoresUnknownHost |
| ReconcileProperties.UnknownHostSkippedPerSource | src/command/generate/items.rs:43-55 | with the corrected resolution, such a source gets no id and is skipped without change |
| ReconcileProperties.ProcessSourcesAppend | src/command/generate/items.rs:40-146 | sources are handled in order, and the first failure ends the loop |
| ReconcileProperties.ProcessSourcesEffect | src/command/generate/items.rs:40-146 | the loop only adds to the server, and fails only on the refused request |
| ReconcileProperties.NoHostSkipsEverySource | src/command/generate/items.rs:32-55 | with a target host and no host id, every source is skipped |
| ReconcileProperties.TargetRunCoversEverySource | src/command/generate/items.rs:40-146 | after a successful run with a target host, every source has its item, scenario and trigger, named after the target host |
| ReconcileProperties.ProcessSourceStable | src/command/generate/items.rs:62-119 | handling a source again, against a server holding what the first pass left, creates nothing |
| ReconcileProperties.ProcessSourcesStable | src/command/generate/items.rs:40-146 | running the loop again over the same sources creates nothing |
| ReconcileProperties.SecondRunCreatesNothing | src/command/generate/items.rs:19-149 | a second run after a successful one makes no create call and succeeds |
| ReconcileProperties.RepeatedSourceCreatesNothing | src/command/generate/items.rs:62-119 | a source listed twice in a row is handled once |
| ReconcileProperties.TargetKeepsHostId | src/command/generate/items.rs:43-51 | with a target host named, the host id is never changed by the loop |
| ReconcileProperties.LaterRepeatCreatesNothing | src/command/generate/items.rs:40-146 | a source repeated later in the list, after any other sources, creates nothing the second time, when a target host is named or the source's own host is known |
| ReconcileProperties.NothingBeforeLogin | src/command/generate/items.rs:26-30 | a provider or login error ends the run before any lookup or create |
| ReconcileProperties.MissingTargetSkipsEverySource | src/command/generate/items.rs:34-38 | a target host the server does not know skips every source, and the run succeeds |
| ReconcileProperties.RunFailsOnlyOnRefusal | src/command/generate/items.rs:19-149 | a run fails only on the refused request, and a server refusing nothing gives a successful run |
| Envelope.NewRequest | src/zabbix/mod.rs:26-35 | the envelope has jsonrpc "2.0" and id 1, and copies method, params and token verbatim |
| Envelope.NewRequestRoundTrip | src/zabbix/mod.rs:26-35 | every well-formed envelope is the one built from its own method, params and token |
| Service.UsernameField | src/zabbix/service.rs:105-108 | Zabbix 6 takes the user name as `username`, Zabbix 5 as `user`, and neither is `password` |
| Service.GetParams | src/zabbix/service.rs:102-114 | exactly two entries: the user name under the version's field, the password under `password` |
| Service.LoginRequest | src/zabbix/service.rs:36-42 | jsonrpc "2.0", method `user.login`, id 1, no auth, and the login params |
| Service.LoginParamsByVersion | src/zabbix/service.rs:102-114 | the login params for each API version, written out |
| Service.GetSession | src/zabbix/service.rs:35-51 | the session is the reply's `result` string; a transport failure is a communication error and a reply without one an authentication error |
| Service.CreateWebScenario | src/zabbix/service.rs:53-85 | succeeds iff the transport does, the reply body unread; a failure is wrapped in `unable to create web scenario` |
| LegacyWebScenarios.ScenarioCreateRequestContents | src/zabbix/webscenarios/create.rs:51-71 | `httptest.create` of one scenario, named by the template with HOST bound to the host id, with one `Get page` step number 1 on the url, the configured status code, delay and retries |
| LegacyWebScenarios.CreateWebScenario | src/zabbix/webscenarios/create.rs:40-77 | succeeds iff the transport does; a failure is wrapped in `unable to create web scenario` |
| LegacyWebScenarios.FindByName | src/zabbix/webscenarios/create.rs:21-22 | finds a scenario iff one with exactly that name is listed |
| LegacyWebScenarios.CreateWebScenarioIfDoesNotExists | src/zabbix/webscenarios/create.rs:15-38 | a create is sent iff no scenario named `Check index page '<url>'` is listed; its error is returned as is; with none sent the result is success |
| LegacyWebScenarios.RerunSkipsOnlyOnCheckName | src/zabbix/webscenarios/create.rs:19-52 | after a create, a rerun skips iff the created name is the name checked |
| LegacyWebScenarios.RerunResendsCreate | src/zabbix/webscenarios/create.rs:19-52 | as written, name template `web ${URL}`: the rerun sends the same create again |
| LegacyWebScenarios.CreateWebScenarioIfMissing | src/zabbix/webscenarios/create.rs:15-38 | corrected check: a create is sent iff no scenario with the name the create would give is listed |
| LegacyWebScenarios.RerunSendsNothing | src/zabbix/webscenarios/create.rs:15-38 | with the corrected check, a rerun after a create sends nothing |
| LegacyTriggers.TriggerCreateRequestContents | src/zabbix/triggers/create.rs:63-80 | `trigger.create`, the description and expression templated with HOST and URL, priority "4", the url untemplated |
| LegacyTriggers.CreateTrigger | src/zabbix/triggers/create.rs:55-99 | succeeds iff the reply arrives, parses and has no `error` member; each failure has its own error |
| LegacyTriggers.CreateTriggerIfDoesNotExists | src/zabbix/triggers/create.rs:26-53 | always success; a create is sent iff the lookup by the templated name succeeds and finds nothing |
| LegacyTriggers.RerunSendsNothing | src/zabbix/triggers/create.rs:26-53 | the lookup uses the name the create gives, so once the trigger exists a rerun sends nothing |

## Left out

- The Windows line ending (`\r\n`, src/source/file.rs:8-9) is not modelled. Only the `\n` build is.
- Reading the URL file is not modelled. `FileSource.GetUrlSources` takes the outcome of the read as a parameter.
- The item-key pattern is modelled as a literal mask followed by a bracketed capture, not as a general regular expression:
  - a mask holding regex metacharacters is read literally;
  - the `invalid regular expressions` error cannot arise;
  - the `unable to get pattern group` error is unreachable once the pattern matches.
- HTTP transport and JSON encoding are not modelled:
  - `send` is a function parameter, and its reply is abstracted to `Envelope.Reply`;
  - serialisation of the request bodies is left out.
- The `zabbix_api` crate is not part of this model. In the reconciliation, its client is the in-memory `ZabbixApi.ZabbixClient`:
  - lookups match exactly one key, name, description or host name;
  - lookups return only that key or name;
  - the session token is not checked on later calls.
- Lookups are global, not scoped to a host. This follows the source, whose item, scenario and trigger lookups carry no host filter. A design that scopes existence to the target host is not what the code does.
- In the Zabbix URL provider, the login, item lookup and host lookup are function parameters. The provider's configuration is reduced to the mask and the credentials.
- `find_zabbix_trigger` (src/zabbix/triggers/find.rs) is not part of this model. It is the parameter `find` of `LegacyTriggers.CreateTriggerIfDoesNotExists`, and what it returns is not inspected further.
- Logging (including `log_zabbix_error`), command-line handling and configuration loading are not modelled. The configuration records are plain datatypes:
  - `Config.LegacyScenarioConfig` and `Config.LegacyTriggerConfig` carry the fields the older helpers read;
  - the target host name is empty when unset, its configuration default (src/config/mod.rs:30), and `Reconcile.Job` reads an empty name as no override.
- The template variables are a sequence applied in a single fixed order (HOST, then URL), not a `HashMap` with unspecified iteration order. In the program every `HashMap::from` (src/template.rs:17) gets its own hash keys, so two maps may iterate in different orders even within one run. When a host or url holds the other placeholder, or a template such as `${${URL}OST}` is used, the two orders give different text. The properties below assume that every map iterates in the same order:
- ReconcileProperties.SecondRunCreatesNothing holds only if both runs substitute HOST and URL in the same order; otherwise the second run can compute other names and create again.
- ReconcileProperties.ProcessSourcesStable rests on the same fixed substitution order, for every source of both loops.
- ReconcileProperties.ProcessSourceStable rests on it too: the second pass over a source builds a new map (src/command/generate/items.rs:84), whose order can differ from the first pass.
- ReconcileProperties.RepeatedSourceCreatesNothing covers a source repeated right after itself, and assumes the repeat's new map iterates in the same order as the first. With no target host, in `[A, B, A]` where A's host is unknown and B's is known, the second `A` is created on B's host, because the host id carries over (see Findings).
- ReconcileProperties.LaterRepeatCreatesNothing assumes the same fixed order for the repeat's map, and needs a target host or a known host for the repeated source; the `[A, B, A]` case above is the one it excludes.
- LegacyTriggers.RerunSendsNothing assumes one order for two maps: the name looked up comes from the map built at src/zabbix/triggers/create.rs:29, the description created from the one built at line 63. With name template `${URL}`, url `${HOST}` and host `h`, one order gives `${HOST}` and the other `h`, so the lookup can miss the existing trigger and every rerun creates it again.
- The loop body of the reconciliation is split into `Reconcile.HandleSource` and the three `Ensure` methods. The calls they make are the same, in the same order.
- LegacyTriggers.CreateTriggerIfDoesNotExists: the create's own outcome is only logged in the source. The model states that it is discarded (the result is always success), not what was logged.

## Findings

| source | as written | input that shows it | evidently intended | confidence | as-written member | corrected member |
|---|---|---|---|---|---|---|
| src/zabbix/webscenarios/create.rs:19-52 | the existence check looks for `Check index page '<url>'`, but the scenario is created under the configured name template | name template `web ${URL}`, url `u`: the first call creates `web u`, and every rerun sends `httptest.create` again | check for the name the create gives the scenario | medium, not executed | LegacyWebScenarios.RerunResendsCreate | LegacyWebScenarios.RerunSendsNothing |
| src/command/generate/items.rs:43-51 | with no target host, `host_id` is declared before the loop and only overwritten when a source's host is found | sources (`a`, u1) then (`b`, u2) with host `a` known and `b` unknown: the item, scenario and trigger for u2 are created on host `a` | skip a source whose host is not found, as the warning at line 143 says | medium, not executed | ReconcileProperties.UnknownHostUsesPreviousHostId | ReconcileProperties.PerSourceLoopIgnoresUnknownHost |

For each row, both behaviours are in the model:

- The loop method `Reconcile.GenerateWebScenariosAndTriggers` and the helper `LegacyWebScenarios.CreateWebScenarioIfDoesNotExists` follow the code as written.
- The corrected definitions are `LegacyWebScenarios.CreateWebScenarioIfMissing`, and `Reconcile.ResolveHostIdPerSource` with the loop that uses it, `ReconcileProperties.ProcessSourcesPerSource`. The intended property is proved about each: `LegacyWebScenarios.RerunSendsNothing` for the first, and for the second `ReconcileProperties.UnknownHostSkippedPerSource` for one source and `ReconcileProperties.PerSourceLoopIgnoresUnknownHost` for the whole loop.
