/** What the reconciliation guarantees, proved on its specification. */
module ReconcileProperties {
  import opened Wrappers
  import opened Strings
  import opened UrlSources
  import opened Requests
  import opened ZabbixApi
  import opened Template
  import opened Hosts
  import opened Reconcile

  /** `t` is `s` after some creates: `s.Below(t)` and `s`'s log is a prefix of `t`'s. */
  predicate Extends(s: Server, t: Server)
  {
    s.Below(t) && s.created <= t.created
  }

  // ---- Item keys ----

  /** Every `{}` of the key template is replaced by the url, not only the first. */
  lemma ItemKeyFillsEverySlot(cfg: Config.ItemConfig, parts: seq<string>, url: string)
    requires |parts| > 0 && cfg.keyTemplate == Join(parts, UrlSlot)
    requires forall i :: 0 <= i < |parts| ==> !Contains(parts[i] + "{", UrlSlot)
    ensures ItemKey(cfg, url) == Join(parts, url)
  {
    assert UrlSlot[..|UrlSlot| - 1] == "{";
    ReplaceEveryOccurrence(parts, UrlSlot, url);
  }

  /** What the create calls carry. The item: the templates with every `{}`
      filled, the host id, and the configured type, value type, interface,
      delay and tags unchanged. The web scenario: the templated name, the
      host id, and one step named like the scenario, on the url, with the
      configured status code, number "1". The trigger: every text templated
      with the same variables, priority and recovery mode copied, no
      dependencies and no tags. */
  lemma CreateRequestsContents(job: Job, hostId: string, url: string, vars: Vars)
    ensures var item := ItemRequest(job.item, hostId, url);
      item.name == Replace(job.item.nameTemplate, "{}", url) && item.key == Replace(job.item.keyTemplate, "{}", url)
      && item.hostId == hostId && item.itemType == job.item.itemType && item.valueType == job.item.valueType
      && item.interfaceId == job.item.interfaceId && item.delay == job.item.delay && item.tags == job.item.tags
    ensures var scenario := ScenarioRequest(job.scenario, hostId, url, vars);
      scenario.name == Substitute(job.scenario.nameTemplate, vars) && scenario.hostId == hostId
      && scenario.steps == [ScenarioStep(scenario.name, url, job.scenario.expectStatusCode, "1")]
    ensures var trigger := TriggerRequest(job.trigger, vars);
      trigger.description == Substitute(job.trigger.name, vars)
      && trigger.expression == Substitute(job.trigger.problemExpression, vars)
      && trigger.recoveryExpression == Substitute(job.trigger.recoveryExpression, vars)
      && trigger.url == Substitute(job.trigger.url, vars) && trigger.eventName == Substitute(job.trigger.eventName, vars)
      && trigger.priority == job.trigger.priority && trigger.recoveryMode == job.trigger.recoveryMode
      && trigger.dependencies == [] && trigger.tags == []
  {
  }

  // ---- Stages ----

  /** A stage either fails on a request the server refuses, changing nothing
      but possibly wrapping the error, or succeeds having created exactly the
      missing object; afterwards the object is known to the server. */
  lemma ItemStageEffect(s: Server, cfg: Config.ItemConfig, hostId: string, url: string)
    ensures var o := ItemStage(s, cfg, hostId, url);
      Extends(s, o.server)
      && (o.result.Failure? ==> o.server == s && s.failure.Some?
                                && o.result.error.RootCause() == ApiError(s.failure.value))
      && (o.result.Success? ==>
            ItemKey(cfg, url) in o.server.itemKeys
            && o.server.itemKeys == s.itemKeys + {ItemKey(cfg, url)}
            && o.server.scenarioNames == s.scenarioNames
            && o.server.triggerDescriptions == s.triggerDescriptions
            && o.server.created == s.created + (if ItemKey(cfg, url) in s.itemKeys then []
                                                else [ItemCreate(ItemRequest(cfg, hostId, url))]))
  {
  }

  lemma ScenarioStageEffect(s: Server, cfg: Config.WebScenarioConfig, hostId: string, url: string, vars: Vars)
    ensures var o := ScenarioStage(s, cfg, hostId, url, vars);
      Extends(s, o.server)
      && (o.result.Failure? ==> o.server == s && s.failure.Some?
                                && o.result.error.RootCause() == ApiError(s.failure.value))
      && (o.result.Success? ==>
            o.server.scenarioNames == s.scenarioNames + {ScenarioName(cfg, vars)}
            && o.server.itemKeys == s.itemKeys
            && o.server.triggerDescriptions == s.triggerDescriptions
            && o.server.created == s.created + (if ScenarioName(cfg, vars) in s.scenarioNames then []
                                                else [WebScenarioCreate(ScenarioRequest(cfg, hostId, url, vars))]))
  {
  }

  lemma TriggerStageEffect(s: Server, cfg: Config.TriggerConfig, vars: Vars)
    ensures var o := TriggerStage(s, cfg, vars);
      Extends(s, o.server)
      && (o.result.Failure? ==> o.server == s && s.failure.Some?
                                && o.result.error.RootCause() == ApiError(s.failure.value))
      && (o.result.Success? ==>
            o.server.triggerDescriptions == s.triggerDescriptions + {TriggerDescription(cfg, vars)}
            && o.server.itemKeys == s.itemKeys
            && o.server.scenarioNames == s.scenarioNames
            && o.server.created == s.created + (if TriggerDescription(cfg, vars) in s.triggerDescriptions then []
                                                else [TriggerCreate(TriggerRequest(cfg, vars))]))
  {
  }

  // ---- One source ----

  /** Host resolution: a target host pins the id; otherwise the source's
      host id when the host is known, and the previous id when it is not. */
  lemma ResolveHostIdCarriesOver(s: Server, job: Job, hostId: string, source: UrlSource)
    requires !s.Refuses(HostGet(HostRequest(source.zabbixHost)))
    ensures ResolveHostId(s, job, hostId, source)
         == Success(if job.targetHostname != "" then hostId
                    else if source.zabbixHost in s.hostIds then s.hostIds[source.zabbixHost]
                    else hostId)
  {
  }

  /** Handling a source only adds to the server, and fails only on the
      refused request. */
  lemma ProcessSourceEffect(s: Server, job: Job, hostId: string, source: UrlSource)
    ensures var st := ProcessSource(s, job, hostId, source);
      Extends(s, st.server)
      && (st.result.Failure? ==> s.failure.Some? && st.result.error.RootCause() == ApiError(s.failure.value))
  {
    var st := ProcessSource(s, job, hostId, source);
    var resolved := ResolveHostId(s, job, hostId, source);
    if resolved.Success? && resolved.value != "" {
      var vars := TemplateVars(HostName(job, source), source.url);
      var item := ItemStage(s, job.item, resolved.value, source.url);
      ItemStageEffect(s, job.item, resolved.value, source.url);
      if item.result.Success? {
        var scenario := ScenarioStage(item.server, job.scenario, resolved.value, source.url, vars);
        ScenarioStageEffect(item.server, job.scenario, resolved.value, source.url, vars);
        if scenario.result.Success? {
          TriggerStageEffect(scenario.server, job.trigger, vars);
        }
      }
    }
  }

  /** The create calls a source with host id `id` needs against `s`: its
      item, its web scenario and its trigger, each only when missing, in
      that order. */
  function MissingCalls(s: Server, job: Job, id: string, source: UrlSource): seq<Request>
  {
    var vars := TemplateVars(HostName(job, source), source.url);
    (if ItemKey(job.item, source.url) in s.itemKeys then []
     else [ItemCreate(ItemRequest(job.item, id, source.url))])
    + (if ScenarioName(job.scenario, vars) in s.scenarioNames then []
       else [WebScenarioCreate(ScenarioRequest(job.scenario, id, source.url, vars))])
    + (if TriggerDescription(job.trigger, vars) in s.triggerDescriptions then []
       else [TriggerCreate(TriggerRequest(job.trigger, vars))])
  }

  /** The three stages in a row, against a server that refuses nothing. */
  lemma StagesCreateWhatIsMissing(s: Server, job: Job, id: string, source: UrlSource)
    requires s.failure == None
    ensures var vars := TemplateVars(HostName(job, source), source.url);
      var item := ItemStage(s, job.item, id, source.url);
      var scenario := ScenarioStage(item.server, job.scenario, id, source.url, vars);
      var trigger := TriggerStage(scenario.server, job.trigger, vars);
      item.result.Success? && scenario.result.Success? && trigger.result.Success?
      && trigger.server.created == s.created + MissingCalls(s, job, id, source)
  {
    var vars := TemplateVars(HostName(job, source), source.url);
    var item := ItemStage(s, job.item, id, source.url);
    ItemStageEffect(s, job.item, id, source.url);
    var scenario := ScenarioStage(item.server, job.scenario, id, source.url, vars);
    ScenarioStageEffect(item.server, job.scenario, id, source.url, vars);
    TriggerStageEffect(scenario.server, job.trigger, vars);
    var itemCalls := if ItemKey(job.item, source.url) in s.itemKeys then []
                     else [ItemCreate(ItemRequest(job.item, id, source.url))];
    var scenarioCalls := if ScenarioName(job.scenario, vars) in s.scenarioNames then []
                         else [WebScenarioCreate(ScenarioRequest(job.scenario, id, source.url, vars))];
    var triggerCalls := if TriggerDescription(job.trigger, vars) in s.triggerDescriptions then []
                        else [TriggerCreate(TriggerRequest(job.trigger, vars))];
    assert s.created + itemCalls + scenarioCalls + triggerCalls
        == s.created + (itemCalls + scenarioCalls + triggerCalls);
  }

  /** Against a server that refuses nothing, a source whose host id resolves
      to a non-empty id gets exactly its missing calls, item first, then
      scenario, then trigger; a source left without a host id changes nothing. */
  lemma SourceCreatesWhatIsMissing(s: Server, job: Job, hostId: string, source: UrlSource)
    requires s.failure == None
    ensures ResolveHostId(s, job, hostId, source).Success?
    ensures var id := ResolveHostId(s, job, hostId, source).value;
      var st := ProcessSource(s, job, hostId, source);
      st.result == Success(()) && st.hostId == id
      && st.server.created == s.created + (if id == "" then [] else MissingCalls(s, job, id, source))
  {
    var id := ResolveHostId(s, job, hostId, source).value;
    if id != "" {
      StagesCreateWhatIsMissing(s, job, id, source);
    }
  }

  /** As written, a source whose host is unknown is not skipped once an
      earlier source resolved an id: its missing item, scenario and trigger
      are created on that earlier host, the item first. */
  lemma UnknownHostUsesPreviousHostId(s: Server, job: Job, hostId: string, source: UrlSource)
    requires s.failure == None && job.targetHostname == "" && hostId != ""
    requires source.zabbixHost !in s.hostIds && ItemKey(job.item, source.url) !in s.itemKeys
    ensures var st := ProcessSource(s, job, hostId, source);
      st.result == Success(()) && st.hostId == hostId
      && |st.server.created| > |s.created|
      && st.server.created[|s.created|] == ItemCreate(ItemRequest(job.item, hostId, source.url))
  {
    SourceCreatesWhatIsMissing(s, job, hostId, source);
  }

  /** With the per-source resolution the same source is skipped: the id it
      gets is empty, and a source with an empty id changes nothing. */
  lemma UnknownHostSkippedPerSource(s: Server, job: Job, hostId: string, source: UrlSource)
    requires job.targetHostname == "" && source.zabbixHost !in s.hostIds
    requires !s.Refuses(HostGet(HostRequest(source.zabbixHost)))
    ensures ResolveHostIdPerSource(s, job, hostId, source) == Success("")
    ensures ProcessSource(s, job, "", source) == Step(s, "", Success(()))
  {
  }

  /** A source stops at its first failing call. When the item stage fails,
      the server is left as it was; when the scenario stage fails, only the
      item's create (if the item was missing) is kept, the step is exactly
      the scenario stage's server and error, and the trigger is neither
      looked up nor created. */
  lemma SourceStopsAtFirstFailure(s: Server, job: Job, hostId: string, source: UrlSource)
    requires ResolveHostId(s, job, hostId, source).Success?
    requires ResolveHostId(s, job, hostId, source).value != ""
    ensures var id := ResolveHostId(s, job, hostId, source).value;
      ItemStage(s, job.item, id, source.url).result.Failure? ==>
        ProcessSource(s, job, hostId, source) == Step(s, id, ItemStage(s, job.item, id, source.url).result)
    ensures var id := ResolveHostId(s, job, hostId, source).value;
      var item := ItemStage(s, job.item, id, source.url);
      var vars := TemplateVars(HostName(job, source), source.url);
      var st := ProcessSource(s, job, hostId, source);
      item.result.Success? && ScenarioStage(item.server, job.scenario, id, source.url, vars).result.Failure? ==>
        st.result.Failure?
        && st.server.created == s.created + (if ItemKey(job.item, source.url) in s.itemKeys then []
                                             else [ItemCreate(ItemRequest(job.item, id, source.url))])
        && st.server.scenarioNames == s.scenarioNames
        && st.server.triggerDescriptions == s.triggerDescriptions
    ensures var id := ResolveHostId(s, job, hostId, source).value;
      var item := ItemStage(s, job.item, id, source.url);
      var vars := TemplateVars(HostName(job, source), source.url);
      var scenario := ScenarioStage(item.server, job.scenario, id, source.url, vars);
      item.result.Success? && scenario.result.Failure? ==>
        ProcessSource(s, job, hostId, source) == Step(scenario.server, id, scenario.result)
  {
    var id := ResolveHostId(s, job, hostId, source).value;
    var vars := TemplateVars(HostName(job, source), source.url);
    ItemStageEffect(s, job.item, id, source.url);
    var item := ItemStage(s, job.item, id, source.url);
    if item.result.Success? {
      ScenarioStageEffect(item.server, job.scenario, id, source.url, vars);
    }
  }

  // ---- All sources ----

  /** Sources are handled in order and the first failure ends the loop:
      the sources after it are never looked at. */
  lemma {:induction false} ProcessSourcesAppend(s: Server, job: Job, hostId: string, a: seq<UrlSource>, b: seq<UrlSource>)
    ensures var st := ProcessSources(s, job, hostId, a);
      ProcessSources(s, job, hostId, a + b)
      == if st.result.Failure? then st else ProcessSources(st.server, job, st.hostId, b)
    decreases |a|
  {
    if a == [] {
      assert a + b == b;
    } else {
      assert (a + b)[0] == a[0] && (a + b)[1..] == a[1..] + b;
      var first := ProcessSource(s, job, hostId, a[0]);
      if first.result.Success? {
        ProcessSourcesAppend(first.server, job, first.hostId, a[1..], b);
      }
    }
  }

  lemma {:induction false} ProcessSourcesEffect(s: Server, job: Job, hostId: string, sources: seq<UrlSource>)
    ensures var st := ProcessSources(s, job, hostId, sources);
      Extends(s, st.server)
      && (st.result.Failure? ==> s.failure.Some? && st.result.error.RootCause() == ApiError(s.failure.value))
    decreases |sources|
  {
    if sources != [] {
      var first := ProcessSource(s, job, hostId, sources[0]);
      ProcessSourceEffect(s, job, hostId, sources[0]);
      if first.result.Success? {
        ProcessSourcesEffect(first.server, job, first.hostId, sources[1..]);
      }
    }
  }

  /** Without a host id and with a target host set, every source is skipped. */
  lemma {:induction false} NoHostSkipsEverySource(s: Server, job: Job, sources: seq<UrlSource>)
    requires job.targetHostname != ""
    ensures ProcessSources(s, job, "", sources) == Step(s, "", Success(()))
    decreases |sources|
  {
    if sources != [] {
      NoHostSkipsEverySource(s, job, sources[1..]);
    }
  }

  /** With a target host and a successful loop, every source has its item,
      its scenario and its trigger, named after the target host. */
  lemma {:induction false} TargetRunCoversEverySource(s: Server, job: Job, hostId: string, sources: seq<UrlSource>)
    requires job.targetHostname != "" && hostId != ""
    requires ProcessSources(s, job, hostId, sources).result.Success?
    ensures var t := ProcessSources(s, job, hostId, sources).server;
      forall source :: source in sources ==>
        var vars := TemplateVars(job.targetHostname, source.url);
        ItemKey(job.item, source.url) in t.itemKeys
        && ScenarioName(job.scenario, vars) in t.scenarioNames
        && TriggerDescription(job.trigger, vars) in t.triggerDescriptions
    decreases |sources|
  {
    if sources != [] {
      var source := sources[0];
      var first := ProcessSource(s, job, hostId, source);
      var vars := TemplateVars(job.targetHostname, source.url);
      var item := ItemStage(s, job.item, hostId, source.url);
      ItemStageEffect(s, job.item, hostId, source.url);
      var scenario := ScenarioStage(item.server, job.scenario, hostId, source.url, vars);
      ScenarioStageEffect(item.server, job.scenario, hostId, source.url, vars);
      TriggerStageEffect(scenario.server, job.trigger, vars);
      assert first.hostId == hostId;
      TargetRunCoversEverySource(first.server, job, hostId, sources[1..]);
      ProcessSourcesEffect(first.server, job, hostId, sources[1..]);
    }
  }

  /** The loop with host resolution per source (`ResolveHostIdPerSource`):
      without a target host every source starts from an empty id, so no id
      carries over from one source to the next. */
  function ProcessSourcesPerSource(s: Server, job: Job, hostId: string, sources: seq<UrlSource>): Step
    decreases |sources|
  {
    if sources == [] then Step(s, hostId, Success(()))
    else
      var first := ProcessSource(s, job, if job.targetHostname == "" then "" else hostId, sources[0]);
      if first.result.Failure? then first
      else ProcessSourcesPerSource(first.server, job, hostId, sources[1..])
  }

  /** Each source of the per-source loop is resolved as `ResolveHostIdPerSource` says. */
  lemma PerSourceLoopResolvesPerSource(s: Server, job: Job, hostId: string, source: UrlSource)
    ensures ResolveHostId(s, job, if job.targetHostname == "" then "" else hostId, source)
         == ResolveHostIdPerSource(s, job, hostId, source)
  {
  }

  /** In the per-source loop, a source whose host is unknown has no effect
      on the run: the server and the result are those of the same run
      without it. */
  lemma {:induction false} PerSourceLoopIgnoresUnknownHost(s: Server, job: Job, hostId: string,
                                                           a: seq<UrlSource>, b: UrlSource, c: seq<UrlSource>)
    requires job.targetHostname == "" && b.zabbixHost !in s.hostIds
    requires !s.Refuses(HostGet(HostRequest(b.zabbixHost)))
    ensures var with := ProcessSourcesPerSource(s, job, hostId, a + [b] + c);
      var without := ProcessSourcesPerSource(s, job, hostId, a + c);
      with.server == without.server && with.result == without.result
    decreases |a|
  {
    if a == [] {
      assert a + [b] + c == [b] + c && ([b] + c)[0] == b && ([b] + c)[1..] == c;
      assert a + c == c;
    } else {
      assert (a + [b] + c)[0] == a[0] && (a + c)[0] == a[0];
      assert (a + [b] + c)[1..] == a[1..] + [b] + c;
      assert (a + c)[1..] == a[1..] + c;
      var first := ProcessSource(s, job, "", a[0]);
      if first.result.Success? {
        ProcessSourceEffect(s, job, "", a[0]);
        PerSourceLoopIgnoresUnknownHost(first.server, job, hostId, a[1..], b, c);
      }
    }
  }

  // ---- Idempotence ----

  /** Handling a source again against a server that holds what the first
      handling left, with the same host id, creates nothing. */
  lemma ProcessSourceStable(s: Server, t: Server, job: Job, hostId: string, otherHostId: string, source: UrlSource)
    requires ProcessSource(s, job, hostId, source).result.Success?
    requires ProcessSource(s, job, hostId, source).server.Below(t)
    requires ResolveHostId(t, job, otherHostId, source) == Success(ProcessSource(s, job, hostId, source).hostId)
    ensures ProcessSource(t, job, otherHostId, source) == Step(t, ProcessSource(s, job, hostId, source).hostId, Success(()))
  {
    var st := ProcessSource(s, job, hostId, source);
    var id := st.hostId;
    ProcessSourceEffect(s, job, hostId, source);
    if id != "" {
      var vars := TemplateVars(HostName(job, source), source.url);
      var item := ItemStage(s, job.item, id, source.url);
      ItemStageEffect(s, job.item, id, source.url);
      var scenario := ScenarioStage(item.server, job.scenario, id, source.url, vars);
      ScenarioStageEffect(item.server, job.scenario, id, source.url, vars);
      TriggerStageEffect(scenario.server, job.trigger, vars);
      assert ItemStage(t, job.item, id, source.url) == Outcome(t, Success(()));
      assert ScenarioStage(t, job.scenario, id, source.url, vars) == Outcome(t, Success(()));
      assert TriggerStage(t, job.trigger, vars) == Outcome(t, Success(()));
    }
  }

  lemma {:induction false} ProcessSourcesStable(s: Server, t: Server, job: Job, hostId: string, sources: seq<UrlSource>)
    requires ProcessSources(s, job, hostId, sources).result.Success?
    requires ProcessSources(s, job, hostId, sources).server.Below(t)
    ensures ProcessSources(t, job, hostId, sources)
         == Step(t, ProcessSources(s, job, hostId, sources).hostId, Success(()))
    decreases |sources|
  {
    if sources != [] {
      var first := ProcessSource(s, job, hostId, sources[0]);
      ProcessSourceEffect(s, job, hostId, sources[0]);
      ProcessSourcesEffect(first.server, job, first.hostId, sources[1..]);
      FindZabbixHostIdStable(s, t, sources[0].zabbixHost);
      ProcessSourceStable(s, t, job, hostId, hostId, sources[0]);
      ProcessSourcesStable(first.server, t, job, first.hostId, sources[1..]);
    }
  }

  /** A second run after a successful one makes no create call and succeeds. */
  lemma SecondRunCreatesNothing(s: Server, user: string, password: string,
                                sources: Result<seq<UrlSource>, Error>, job: Job)
    requires Generate(s, user, password, sources, job).result.Success?
    ensures var t := Generate(s, user, password, sources, job).server;
      Generate(t, user, password, sources, job) == Outcome(t, Success(()))
  {
    var t := Generate(s, user, password, sources, job).server;
    var hostId := InitialHostId(s, job).value;
    ProcessSourcesEffect(s, job, hostId, sources.value);
    FindZabbixHostIdStable(s, t, job.targetHostname);
    ProcessSourcesStable(s, t, job, hostId, sources.value);
  }

  /** A source listed twice in a row is handled once: the repeat creates nothing. */
  lemma RepeatedSourceCreatesNothing(s: Server, job: Job, hostId: string, source: UrlSource)
    requires ProcessSource(s, job, hostId, source).result.Success?
    ensures ProcessSources(s, job, hostId, [source, source]) == ProcessSources(s, job, hostId, [source])
  {
    var st := ProcessSource(s, job, hostId, source);
    ProcessSourceEffect(s, job, hostId, source);
    FindZabbixHostIdStable(s, st.server, source.zabbixHost);
    ProcessSourceStable(s, st.server, job, hostId, st.hostId, source);
    assert [source, source][1..] == [source];
    assert [source][1..] == [];
  }

  /** With a target host the host id never changes from source to source. */
  lemma {:induction false} TargetKeepsHostId(s: Server, job: Job, hostId: string, sources: seq<UrlSource>)
    requires job.targetHostname != ""
    ensures ProcessSources(s, job, hostId, sources).hostId == hostId
    decreases |sources|
  {
    if sources != [] {
      TargetKeepsHostId(ProcessSource(s, job, hostId, sources[0]).server, job, hostId, sources[1..]);
    }
  }

  /** A source repeated later in the list, after any other sources, creates
      nothing the second time, provided its host id is its own: a target host
      is named, or the source's host is known to the server. */
  lemma LaterRepeatCreatesNothing(s: Server, job: Job, hostId: string, source: UrlSource, middle: seq<UrlSource>)
    requires ProcessSources(s, job, hostId, [source] + middle).result.Success?
    requires job.targetHostname != "" || source.zabbixHost in s.hostIds
    ensures var st := ProcessSources(s, job, hostId, [source] + middle);
      var again := ProcessSources(s, job, hostId, [source] + middle + [source]);
      again.server == st.server && again.result == Success(())
  {
    var first := ProcessSource(s, job, hostId, source);
    assert [source][0] == source && [source][1..] == [];
    ProcessSourcesAppend(s, job, hostId, [source], middle);
    var st := ProcessSources(first.server, job, first.hostId, middle);
    ProcessSourcesAppend(s, job, hostId, [source] + middle, [source]);
    ProcessSourceEffect(s, job, hostId, source);
    ProcessSourcesEffect(first.server, job, first.hostId, middle);
    if job.targetHostname != "" {
      TargetKeepsHostId(first.server, job, first.hostId, middle);
    } else {
      FindZabbixHostIdStable(s, st.server, source.zabbixHost);
    }
    ProcessSourceStable(s, st.server, job, hostId, st.hostId, source);
  }

  // ---- The run ----

  /** The sources are fetched and the login made before anything else: when
      either fails the server is untouched. */
  lemma NothingBeforeLogin(s: Server, user: string, password: string,
                           sources: Result<seq<UrlSource>, Error>, job: Job)
    requires sources.Failure? || s.Refuses(UserLogin(user, password))
    ensures Generate(s, user, password, sources, job).server == s
    ensures Generate(s, user, password, sources, job).result
         == Failure(if sources.Failure? then sources.error else ApiError(UserLogin(user, password)))
  {
  }

  /** A target host the server does not know: every source is skipped and
      the run succeeds without any create. */
  lemma MissingTargetSkipsEverySource(s: Server, user: string, password: string,
                                      sources: seq<UrlSource>, job: Job)
    requires job.targetHostname != "" && job.targetHostname !in s.hostIds
    requires !s.Refuses(UserLogin(user, password)) && !s.Refuses(HostGet(HostRequest(job.targetHostname)))
    ensures Generate(s, user, password, Success(sources), job) == Outcome(s, Success(()))
  {
    NoHostSkipsEverySource(s, job, sources);
  }

  /** A run fails only on the request the server refuses, or on the provider's
      error; a server refusing nothing gives a successful run. */
  lemma RunFailsOnlyOnRefusal(s: Server, user: string, password: string,
                              sources: seq<UrlSource>, job: Job)
    ensures var o := Generate(s, user, password, Success(sources), job);
      Extends(s, o.server)
      && (o.result.Failure? ==> s.failure.Some? && o.result.error.RootCause() == ApiError(s.failure.value))
  {
    var o := Generate(s, user, password, Success(sources), job);
    var init := InitialHostId(s, job);
    if s.Login(user, password).Success? && init.Success? {
      ProcessSourcesEffect(s, job, init.value, sources);
    }
  }
}
