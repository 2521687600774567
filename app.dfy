/**
 * The application object (main.py): it owns the configuration, the one
 * record-store client, the stream client with its event handler and the
 * configuration watcher, and decides on a reload whether the stream must
 * be rebuilt.
 *
 * Creating the SDK's stream client is a call into code outside the model:
 * it is given as an input that may fail.  Reading the configuration file is
 * `LoadConfig` over a file map, an environment and a parse function.
 */
module App {
  import opened Values
  import opened Config
  import opened Cache
  import opened Spreadsheet
  import opened StreamClient
  import opened ConfigWatch

  predicate AnyApproval(a: Approval) { true }
  predicate AnyHrmEvent(h: HrmEvent) { true }

  /** `{a.template_id: a for a in config.approvals}`: every rule, enabled or not. */
  function ApprovalsByTemplate(c: Config): map<string, Approval> {
    IndexBy(c.approvals, TemplateIdOf, AnyApproval)
  }

  /** `{e.change_type: e for e in config.hrm_events}`: every rule, enabled or not. */
  function HrmEventsByType(c: Config): map<int, HrmEvent> {
    IndexBy(c.hrmEvents, ChangeTypeOf, AnyHrmEvent)
  }

  /** The reload's restart test: either rule map differs by value. */
  predicate RulesDiffer(a: Config, b: Config) {
    ApprovalsByTemplate(a) != ApprovalsByTemplate(b) || HrmEventsByType(a) != HrmEventsByType(b)
  }

  /**
   * Any change to the rule that is in force for a template id, including a
   * disabled rule or just its `enabled` flag, restarts the stream.
   */
  lemma ChangedApprovalRestarts(a: Config, b: Config, j: int, x: Approval)
    requires 0 <= j < |a.approvals| && b.approvals == a.approvals[j := x]
    requires x.templateId == a.approvals[j].templateId && x != a.approvals[j]
    requires forall i :: j < i < |a.approvals| ==> a.approvals[i].templateId != x.templateId
    ensures RulesDiffer(a, b)
  {
    var k := x.templateId;
    IndexByLastWins(a.approvals, TemplateIdOf, AnyApproval, k);
    IndexByLastWins(b.approvals, TemplateIdOf, AnyApproval, k);
    assert KeptAt(a.approvals, TemplateIdOf, AnyApproval, j, k);
    assert KeptAt(b.approvals, TemplateIdOf, AnyApproval, j, k);
    assert forall i :: j < i < |a.approvals| ==> !KeptAt(a.approvals, TemplateIdOf, AnyApproval, i, k);
    assert forall i :: j < i < |b.approvals| ==> !KeptAt(b.approvals, TemplateIdOf, AnyApproval, i, k);
    assert ApprovalsByTemplate(a)[k] != ApprovalsByTemplate(b)[k];
  }

  /** The same for the HR rule in force for a change type. */
  lemma ChangedHrmEventRestarts(a: Config, b: Config, j: int, x: HrmEvent)
    requires 0 <= j < |a.hrmEvents| && b.hrmEvents == a.hrmEvents[j := x]
    requires x.changeType == a.hrmEvents[j].changeType && x != a.hrmEvents[j]
    requires forall i :: j < i < |a.hrmEvents| ==> a.hrmEvents[i].changeType != x.changeType
    ensures RulesDiffer(a, b)
  {
    var k := x.changeType;
    IndexByLastWins(a.hrmEvents, ChangeTypeOf, AnyHrmEvent, k);
    IndexByLastWins(b.hrmEvents, ChangeTypeOf, AnyHrmEvent, k);
    assert KeptAt(a.hrmEvents, ChangeTypeOf, AnyHrmEvent, j, k);
    assert KeptAt(b.hrmEvents, ChangeTypeOf, AnyHrmEvent, j, k);
    assert forall i :: j < i < |a.hrmEvents| ==> !KeptAt(a.hrmEvents, ChangeTypeOf, AnyHrmEvent, i, k);
    assert forall i :: j < i < |b.hrmEvents| ==> !KeptAt(b.hrmEvents, ChangeTypeOf, AnyHrmEvent, i, k);
    assert HrmEventsByType(a)[k] != HrmEventsByType(b)[k];
  }

  /** A rule for a template id the old configuration does not mention restarts the stream. */
  lemma NewTemplateRestarts(a: Config, b: Config, j: int)
    requires 0 <= j < |b.approvals|
    requires forall i :: 0 <= i < |a.approvals| ==> a.approvals[i].templateId != b.approvals[j].templateId
    ensures RulesDiffer(a, b)
  {
    var k := b.approvals[j].templateId;
    IndexByLastWins(a.approvals, TemplateIdOf, AnyApproval, k);
    IndexByLastWins(b.approvals, TemplateIdOf, AnyApproval, k);
    assert KeptAt(b.approvals, TemplateIdOf, AnyApproval, j, k);
    assert k in ApprovalsByTemplate(b) && k !in ApprovalsByTemplate(a);
  }

  /**
   * Only the rule lists are compared: new credentials, record-store
   * settings, execution policy or logging alone do not restart the stream.
   */
  lemma OtherSettingsNoRestart(a: Config, b: Config)
    requires a.approvals == b.approvals && a.hrmEvents == b.hrmEvents
    ensures !RulesDiffer(a, b)
  {
  }

  /** A stream client: the credential it connects with and the handler registered on it. */
  datatype StreamSession = StreamSession(credential: DingTalkConfig, handler: UnifiedEventHandler)

  /** How a reload failed: loading raised, or building the new stream client did. */
  datatype ReloadError = LoadFailure(cause: LoadError) | RestartFailure(error: Error)

  datatype ReloadResult = Reloaded(restarted: bool) | ReloadFailed(error: ReloadError)

  class Application {
    const configPath: string
    var config: Config
    const spreadsheetClient: SpreadsheetClient
    const caches: CacheRegistry
    var streamClient: Option<StreamSession>
    /** The stream client `start` listens on: the one created at launch. */
    var listening: Option<StreamSession>
    var eventHandler: UnifiedEventHandler?
    var configWatcher: ConfigWatcher?
    var running: bool
    var streamStarted: bool

    /** The stream counts as started only while the application runs. */
    ghost predicate Valid()
      reads this, configWatcher
    {
      (streamStarted ==> running) && (configWatcher != null ==> configWatcher.Valid())
    }

    /**
     * `__init__` once the configuration has loaded: the caches with their
     * default policies (the configuration has no cache section) and one
     * record-store client for the application's lifetime.
     */
    constructor (configPath: string, config: Config, service: (nat, Request) -> Response)
      ensures this.configPath == configPath && this.config == config
      ensures fresh(spreadsheetClient) && spreadsheetClient.config == config.spreadsheet
      ensures spreadsheetClient.appKey == config.dingtalk.appKey && spreadsheetClient.appSecret == config.dingtalk.appSecret
      ensures spreadsheetClient.accessToken == Null && spreadsheetClient.requests == []
      ensures fresh(caches) && caches.accessTokenCache != null && caches.accessTokenCache.Limits() == Policy(7200, 10)
      ensures caches.userInfoCache != null && caches.userInfoCache.Limits() == Policy(600, 1000)
      ensures caches.deptInfoCache != null && caches.deptInfoCache.Limits() == Policy(1800, 500)
      ensures streamClient == None && listening == None && eventHandler == null && configWatcher == null
      ensures !running && !streamStarted
      ensures Valid()
    {
      this.configPath := configPath;
      this.config := config;
      var registry := new CacheRegistry();
      registry.InitCache(None);
      caches := registry;
      spreadsheetClient := new SpreadsheetClient(config.spreadsheet, config.dingtalk.appKey, config.dingtalk.appSecret, service);
      streamClient := None;
      listening := None;
      eventHandler := null;
      configWatcher := null;
      running := false;
      streamStarted := false;
    }

    /** `create_stream_client`: the SDK client with a handler of its own registered on it. */
    method CreateStreamClient(c: Config) returns (s: StreamSession)
      ensures s.credential == c.dingtalk && fresh(s.handler)
      ensures s.handler.config == c && s.handler.spreadsheet == spreadsheetClient && s.handler.sleeps == []
    {
      var handler := new UnifiedEventHandler(c, spreadsheetClient);
      s := StreamSession(c.dingtalk, handler);
    }

    /**
     * `_restart_stream_client`: nothing unless the stream was started;
     * otherwise a new stream client and a new event handler from `newConfig`.
     * `streamError` is the exception building the SDK client raises, if any.
     * The new client is not started: the client being listened on stays the
     * one created at launch, with the handler built from the old rules.
     */
    method RestartStreamClient(newConfig: Config, streamError: Option<Error>) returns (r: Outcome)
      requires Valid()
      modifies this
      ensures Valid()
      ensures config == old(config) && configWatcher == old(configWatcher) && listening == old(listening)
      ensures running == old(running) && streamStarted == old(streamStarted)
      ensures !old(streamStarted) || streamError.Some? ==>
                streamClient == old(streamClient) && eventHandler == old(eventHandler)
      ensures r == if old(streamStarted) && streamError.Some? then Raised(streamError.value) else Done
      ensures old(streamStarted) && streamError.None? ==>
                streamClient.Some? && fresh(streamClient.value.handler)
                && streamClient.value.credential == newConfig.dingtalk && streamClient.value.handler.config == newConfig
                && eventHandler != null && fresh(eventHandler) && eventHandler.config == newConfig
                && eventHandler.spreadsheet == spreadsheetClient
                && (listening.Some? ==> listening != streamClient && listening.value.handler != eventHandler)
    {
      if !streamStarted {
        return Done;
      }
      if streamError.Some? {
        return Raised(streamError.value);
      }
      var session := CreateStreamClient(newConfig);
      streamClient := Some(session);
      eventHandler := new UnifiedEventHandler(newConfig, spreadsheetClient);
      r := Done;
    }

    /**
     * `_reload_config`: load the file again; restart the stream when the rule
     * maps differ, before the new configuration replaces the old one; on any
     * failure keep the old configuration and raise.
     */
    method ReloadConfig(files: map<string, string>, env: map<string, string>, parse: string -> Result<Config>,
                        streamError: Option<Error>)
      returns (r: ReloadResult)
      requires Valid()
      modifies this
      ensures Valid()
      ensures configWatcher == old(configWatcher) && running == old(running) && streamStarted == old(streamStarted)
      ensures listening == old(listening)
      ensures var loaded := LoadConfig(configPath, files, env, parse);
              loaded.LoadFailed? ==>
                r == ReloadFailed(LoadFailure(loaded.error)) && config == old(config)
                && streamClient == old(streamClient) && eventHandler == old(eventHandler)
      ensures var loaded := LoadConfig(configPath, files, env, parse);
              loaded.Loaded? && RulesDiffer(old(config), loaded.config) && old(streamStarted) && streamError.Some? ==>
                r == ReloadFailed(RestartFailure(streamError.value)) && config == old(config)
                && streamClient == old(streamClient) && eventHandler == old(eventHandler)
      ensures var loaded := LoadConfig(configPath, files, env, parse);
              loaded.Loaded? && RulesDiffer(old(config), loaded.config) && old(streamStarted) && streamError.None? ==>
                r == Reloaded(true) && config == loaded.config
                && streamClient.Some? && fresh(streamClient.value.handler) && streamClient.value.handler.config == loaded.config
                && eventHandler != null && fresh(eventHandler) && eventHandler.config == loaded.config
      ensures var loaded := LoadConfig(configPath, files, env, parse);
              loaded.Loaded? && !(RulesDiffer(old(config), loaded.config) && old(streamStarted)) ==>
                r == Reloaded(false) && config == loaded.config
                && streamClient == old(streamClient) && eventHandler == old(eventHandler)
    {
      var loaded := LoadConfig(configPath, files, env, parse);
      if loaded.LoadFailed? {
        return ReloadFailed(LoadFailure(loaded.error));
      }
      var newConfig := loaded.config;
      var restarted := false;
      if RulesDiffer(config, newConfig) {
        var restart := RestartStreamClient(newConfig, streamError);
        if restart.Raised? {
          return ReloadFailed(RestartFailure(restart.error));
        }
        restarted := streamStarted;
      }
      config := newConfig;
      r := Reloaded(restarted);
    }

    /**
     * `start` up to the blocking listen: the stream client and the event
     * handler from the current configuration, the watcher started on the
     * configuration file, and both flags set.
     */
    method Launch(fileExists: bool)
      modifies this
      ensures config == old(config)
      ensures streamClient.Some? && fresh(streamClient.value.handler) && streamClient.value.handler.config == config
      ensures eventHandler != null && fresh(eventHandler) && eventHandler.config == config
      ensures configWatcher != null && fresh(configWatcher) && configWatcher.configPath == configPath
      ensures configWatcher.running == fileExists
      ensures listening == streamClient
      ensures running && streamStarted
      ensures Valid()
    {
      var session := CreateStreamClient(config);
      streamClient := Some(session);
      listening := streamClient;
      eventHandler := new UnifiedEventHandler(config, spreadsheetClient);
      var watcher := new ConfigWatcher(configPath);
      configWatcher := watcher;
      watcher.Start(fileExists);
      running := true;
      streamStarted := true;
    }

    /** `stop`: nothing when not running; otherwise both flags cleared and the watcher stopped. */
    method Stop()
      requires Valid()
      modifies this, configWatcher
      ensures Valid() && !running && !streamStarted
      ensures config == old(config) && streamClient == old(streamClient) && eventHandler == old(eventHandler)
      ensures configWatcher == old(configWatcher) && listening == old(listening)
      ensures !old(running) ==> streamStarted == old(streamStarted)
                                && (configWatcher != null ==> configWatcher.running == old(configWatcher.running)
                                                              && configWatcher.cancelled == old(configWatcher.cancelled))
      ensures old(running) && configWatcher != null ==> !configWatcher.running
    {
      if !running {
        return;
      }
      running := false;
      streamStarted := false;
      if configWatcher != null {
        configWatcher.Stop();
      }
    }

    /** `start` as a whole: launch, listen until the stream returns, then `stop`. */
    method Start(fileExists: bool)
      modifies this
      ensures config == old(config) && !running && !streamStarted
      ensures streamClient.Some? && streamClient.value.handler.config == config && listening == streamClient
      ensures eventHandler != null && eventHandler.config == config
      ensures configWatcher != null && !configWatcher.running
      ensures Valid()
    {
      Launch(fileExists);
      Stop();
    }
  }
}
