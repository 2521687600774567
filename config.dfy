/**
 * The configuration snapshot (src/config.py): the rule tables, the execution
 * policy and the connection settings, the defaults that apply to omitted
 * fields, the `${NAME}` environment-variable substitution that runs over the
 * file's text before it is parsed, and the missing-file check of loading.
 */
module Config {
  import opened Values

  datatype DingTalkConfig = DingTalkConfig(appKey: string, appSecret: string)

  datatype SpreadsheetConfig = SpreadsheetConfig(
    baseId: Option<string>,
    defaultSheetId: Option<string>,
    defaultOperatorId: Option<string>)

  /** Which record to update: the record-store column and the form field that supplies its value. */
  datatype FindBy = FindBy(fieldName: string, formField: string)

  /** One field to write: its column and where the value comes from. */
  datatype UpdateField = UpdateField(
    fieldName: string,
    formField: Option<string>,
    value: Option<string>,
    timestamp: bool)

  datatype Action = Action(
    actionType: string,
    baseId: Option<string>,
    sheetId: Option<string>,
    findBy: Option<FindBy>,
    updates: seq<UpdateField>)

  datatype Approval = Approval(name: string, templateId: string, enabled: bool, actions: seq<Action>)

  datatype HrmEvent = HrmEvent(name: string, changeType: int, enabled: bool, actions: seq<Action>)

  datatype Execution = Execution(timeout: int, retryTimes: int, retryInterval: int)

  datatype LoggingConfig = LoggingConfig(level: string, file: string, rotation: string, retention: string)

  datatype Config = Config(
    dingtalk: DingTalkConfig,
    spreadsheet: SpreadsheetConfig,
    approvals: seq<Approval>,
    hrmEvents: seq<HrmEvent>,
    execution: Execution,
    logging: LoggingConfig)

  function OrDefault<T>(o: Option<T>, d: T): T {
    if o.Some? then o.value else d
  }

  /*
   * Validation with defaults: each optional parameter is a field that the
   * file may omit (None); an omitted field takes the model's default.
   */

  function MakeExecution(timeout: Option<int>, retryTimes: Option<int>, retryInterval: Option<int>): (e: Execution)
    ensures timeout.None? ==> e.timeout == 300
    ensures retryTimes.None? ==> e.retryTimes == 2
    ensures retryInterval.None? ==> e.retryInterval == 5
    ensures timeout.Some? ==> e.timeout == timeout.value
    ensures retryTimes.Some? ==> e.retryTimes == retryTimes.value
    ensures retryInterval.Some? ==> e.retryInterval == retryInterval.value
  {
    Execution(OrDefault(timeout, 300), OrDefault(retryTimes, 2), OrDefault(retryInterval, 5))
  }

  function MakeUpdateField(fieldName: string, formField: Option<string>, value: Option<string>, timestamp: Option<bool>): (u: UpdateField)
    ensures u.fieldName == fieldName && u.formField == formField && u.value == value
    ensures u.timestamp <==> timestamp == Some(true)
  {
    UpdateField(fieldName, formField, value, OrDefault(timestamp, false))
  }

  function MakeAction(actionType: string, baseId: Option<string>, sheetId: Option<string>,
                      findBy: Option<FindBy>, updates: Option<seq<UpdateField>>): (a: Action)
    ensures a.actionType == actionType && a.baseId == baseId && a.sheetId == sheetId && a.findBy == findBy
    ensures updates.None? ==> a.updates == []
    ensures updates.Some? ==> a.updates == updates.value
  {
    Action(actionType, baseId, sheetId, findBy, OrDefault(updates, []))
  }

  function MakeApproval(name: string, templateId: string, enabled: Option<bool>, actions: Option<seq<Action>>): (a: Approval)
    ensures a.name == name && a.templateId == templateId
    ensures enabled.None? ==> a.enabled
    ensures enabled.Some? ==> a.enabled == enabled.value
    ensures actions.None? ==> a.actions == []
    ensures actions.Some? ==> a.actions == actions.value
  {
    Approval(name, templateId, OrDefault(enabled, true), OrDefault(actions, []))
  }

  function MakeHrmEvent(name: string, changeType: int, enabled: Option<bool>, actions: Option<seq<Action>>): (h: HrmEvent)
    ensures h.name == name && h.changeType == changeType
    ensures enabled.None? ==> h.enabled
    ensures enabled.Some? ==> h.enabled == enabled.value
    ensures actions.None? ==> h.actions == []
    ensures actions.Some? ==> h.actions == actions.value
  {
    HrmEvent(name, changeType, OrDefault(enabled, true), OrDefault(actions, []))
  }

  function MakeSpreadsheetConfig(baseId: Option<string>, defaultSheetId: Option<string>, defaultOperatorId: Option<string>): (s: SpreadsheetConfig)
    ensures s.baseId == baseId && s.defaultSheetId == defaultSheetId && s.defaultOperatorId == defaultOperatorId
  {
    SpreadsheetConfig(baseId, defaultSheetId, defaultOperatorId)
  }

  function MakeLoggingConfig(level: Option<string>, file: Option<string>, rotation: Option<string>, retention: Option<string>): (l: LoggingConfig)
    ensures level.None? ==> l.level == "INFO"
    ensures file.None? ==> l.file == "./logs/app.log"
    ensures rotation.None? ==> l.rotation == "100 MB"
    ensures retention.None? ==> l.retention == "30 days"
    ensures level.Some? ==> l.level == level.value
    ensures file.Some? ==> l.file == file.value
    ensures rotation.Some? ==> l.rotation == rotation.value
    ensures retention.Some? ==> l.retention == retention.value
  {
    LoggingConfig(OrDefault(level, "INFO"), OrDefault(file, "./logs/app.log"),
                  OrDefault(rotation, "100 MB"), OrDefault(retention, "30 days"))
  }

  /** Omitted sections: an empty spreadsheet section, no rules, default policy and logging. */
  function MakeConfig(dingtalk: DingTalkConfig, spreadsheet: Option<SpreadsheetConfig>,
                      approvals: Option<seq<Approval>>, hrmEvents: Option<seq<HrmEvent>>,
                      execution: Option<Execution>, logging: Option<LoggingConfig>): (c: Config)
    ensures c.dingtalk == dingtalk
    ensures spreadsheet.None? ==> c.spreadsheet == SpreadsheetConfig(None, None, None)
    ensures approvals.None? ==> c.approvals == []
    ensures hrmEvents.None? ==> c.hrmEvents == []
    ensures execution.None? ==> c.execution == Execution(300, 2, 5)
    ensures logging.None? ==> c.logging == LoggingConfig("INFO", "./logs/app.log", "100 MB", "30 days")
    ensures spreadsheet.Some? ==> c.spreadsheet == spreadsheet.value
    ensures approvals.Some? ==> c.approvals == approvals.value
    ensures hrmEvents.Some? ==> c.hrmEvents == hrmEvents.value
    ensures execution.Some? ==> c.execution == execution.value
    ensures logging.Some? ==> c.logging == logging.value
  {
    Config(dingtalk,
           OrDefault(spreadsheet, MakeSpreadsheetConfig(None, None, None)),
           OrDefault(approvals, []),
           OrDefault(hrmEvents, []),
           OrDefault(execution, MakeExecution(None, None, None)),
           OrDefault(logging, MakeLoggingConfig(None, None, None, None)))
  }

  // ---------------------------------------------------------------------
  // Environment-variable substitution: one left-to-right pass of the
  // pattern \$\{([A-Z0-9_]+)\} over the text.
  // ---------------------------------------------------------------------

  predicate IsNameChar(c: char) {
    ('A' <= c <= 'Z') || ('0' <= c <= '9') || c == '_'
  }

  /** A placeholder name: one or more characters of [A-Z0-9_]. */
  predicate IsName(n: string) {
    n != [] && forall i :: 0 <= i < |n| ==> IsNameChar(n[i])
  }

  /** The length of the run of name characters that starts `s`. */
  function NameRun(s: string): (n: nat)
    ensures n <= |s|
    ensures forall i :: 0 <= i < n ==> IsNameChar(s[i])
    ensures n < |s| ==> !IsNameChar(s[n])
  {
    if s == [] || !IsNameChar(s[0]) then 0 else 1 + NameRun(s[1..])
  }

  /** The name of the placeholder that starts `s`, if one does. */
  function PlaceholderAt(s: string): Option<string> {
    if |s| >= 2 && s[0] == '$' && s[1] == '{' then
      var n := NameRun(s[2..]);
      if n > 0 && 2 + n < |s| && s[2 + n] == '}' then Some(s[2..2 + n]) else None
    else None
  }

  /** `${NAME}` as text. */
  function Placeholder(n: string): string {
    "${" + n + "}"
  }

  /**
   * The placeholder matcher agrees with the pattern: `s` starts with a match
   * exactly when it begins with `${`, a non-empty run of [A-Z0-9_] and `}`.
   */
  lemma PlaceholderAtMatches(s: string, n: string)
    ensures PlaceholderAt(s) == Some(n) <==> IsName(n) && |n| + 3 <= |s| && s[..|n| + 3] == Placeholder(n)
  {
    if IsName(n) && |n| + 3 <= |s| && s[..|n| + 3] == Placeholder(n) {
      assert s[0] == '$' && s[1] == '{' && s[|n| + 2] == '}';
      forall i | 0 <= i < |n| ensures s[2..][i] == n[i] {
        assert s[2 + i] == Placeholder(n)[2 + i];
      }
      NameRunOfName(s[2..], n);
      assert s[2..2 + |n|] == n;
    }
    if PlaceholderAt(s) == Some(n) {
      var k := NameRun(s[2..]);
      assert n == s[2..2 + k];
      assert s[..|n| + 3] == Placeholder(n);
    }
  }

  /** Above a name followed by a non-name character, the run is exactly the name. */
  lemma NameRunOfName(s: string, n: string)
    requires IsName(n) && |n| < |s| && s[..|n|] == n && !IsNameChar(s[|n|])
    ensures NameRun(s) == |n|
  {
    assert forall i :: 0 <= i < |n| ==> IsNameChar(s[i]) by {
      forall i | 0 <= i < |n| ensures IsNameChar(s[i]) {
        assert s[..|n|][i] == n[i];
      }
    }
  }

  /**
   * `_replace_env_vars`: every placeholder whose name is set in `env` is
   * replaced by its value, every other one is kept verbatim, and the
   * scanning resumes after the placeholder, so inserted text is never
   * scanned again.
   */
  function ReplaceEnvVars(s: string, env: map<string, string>): (r: string)
    ensures env == map[] ==> r == s
    decreases |s|
  {
    if s == [] then []
    else
      match PlaceholderAt(s)
      case Some(name) =>
        assert s[..|name| + 3] + s[|name| + 3..] == s;
        (if name in env then env[name] else s[..|name| + 3]) + ReplaceEnvVars(s[|name| + 3..], env)
      case None =>
        assert [s[0]] + s[1..] == s;
        [s[0]] + ReplaceEnvVars(s[1..], env)
  }

  /** Some placeholder in `s` names a variable that is set in `env`. */
  ghost predicate MentionsSetVariable(s: string, env: map<string, string>) {
    exists i :: SetAt(s, i, env)
  }

  /** A placeholder naming a set variable starts at position `i` of `s`. */
  ghost predicate SetAt(s: string, i: int, env: map<string, string>) {
    0 <= i < |s| && PlaceholderAt(s[i..]).Some? && PlaceholderAt(s[i..]).value in env
  }

  /**
   * Text in which no placeholder names a set variable comes back unchanged;
   * in particular text with no placeholder at all, and any text when the
   * environment is empty.
   */
  lemma {:induction false} UnsetPlaceholdersKept(s: string, env: map<string, string>)
    requires !MentionsSetVariable(s, env)
    ensures ReplaceEnvVars(s, env) == s
    decreases |s|
  {
    if s != [] {
      var k := UnsetStep(s, env);
      UnsetPlaceholdersKept(s[k..], env);
      assert s[..k] + s[k..] == s;
    }
  }

  /** The first step of the scan over text whose leading placeholder, if any, is unset. */
  lemma UnsetStep(s: string, env: map<string, string>) returns (k: nat)
    requires s != [] && !MentionsSetVariable(s, env)
    ensures 0 < k <= |s| && ReplaceEnvVars(s, env) == s[..k] + ReplaceEnvVars(s[k..], env)
    ensures !MentionsSetVariable(s[k..], env)
  {
    assert s[0..] == s;
    assert !SetAt(s, 0, env);
    k := if PlaceholderAt(s).Some? then |PlaceholderAt(s).value| + 3 else 1;
    NoMentionInSuffix(s, k, env);
  }

  lemma NoMentionInSuffix(s: string, k: nat, env: map<string, string>)
    requires k <= |s| && !MentionsSetVariable(s, env)
    ensures !MentionsSetVariable(s[k..], env)
  {
    var rest := s[k..];
    forall i | 0 <= i < |rest|
      ensures !SetAt(rest, i, env)
    {
      assert rest[i..] == s[k + i..];
      assert !SetAt(s, k + i, env);
    }
  }

  /**
   * A leading set placeholder is replaced by its value and scanning resumes
   * after it: the value is copied literally, whatever it contains.
   */
  lemma ReplacedValueNotRescanned(n: string, rest: string, env: map<string, string>)
    requires IsName(n) && n in env
    ensures ReplaceEnvVars(Placeholder(n) + rest, env) == env[n] + ReplaceEnvVars(rest, env)
  {
    var s := Placeholder(n) + rest;
    assert s[..|n| + 3] == Placeholder(n);
    PlaceholderAtMatches(s, n);
    assert s[|n| + 3..] == rest;
  }

  /**
   * A single `${n}` whose body holds no `$` or `}`: it is replaced exactly when
   * `n` is a name (non-empty, [A-Z0-9_] only) that is set; otherwise, and so
   * for `${}` and lower-case names, it is kept verbatim.
   */
  lemma SinglePlaceholder(n: string, env: map<string, string>)
    requires forall i :: 0 <= i < |n| ==> n[i] != '$' && n[i] != '}'
    ensures ReplaceEnvVars(Placeholder(n), env) == if IsName(n) && n in env then env[n] else Placeholder(n)
  {
    var s := Placeholder(n);
    if IsName(n) && n in env {
      ReplacedValueNotRescanned(n, "", env);
      assert s + "" == s;
    } else {
      assert forall j :: 1 <= j < |s| ==> s[j] != '$' by {
        forall j | 1 <= j < |s| ensures s[j] != '$' {
          if 2 <= j < |n| + 2 { assert s[j] == n[j - 2]; }
        }
      }
      assert forall j :: 0 <= j < |n| ==> s[2 + j] == n[j];
      forall i | 0 <= i < |s| && PlaceholderAt(s[i..]).Some?
        ensures PlaceholderAt(s[i..]).value !in env
      {
        var m := PlaceholderAt(s[i..]).value;
        PlaceholderAtMatches(s[i..], m);
        assert s[i..][0] == '$';
        assert i == 0;
        assert s[..|m| + 3] == Placeholder(m);
        assert s[|m| + 2] == '}';
        assert forall j :: 0 <= j < |m| ==> s[2 + j] == m[j];
        assert m == n;
      }
      UnsetPlaceholdersKept(s, env);
    }
  }

  /**
   * The substitution is a single pass: a set variable whose value is itself
   * a placeholder `${m}` yields `${m}` verbatim, whether or not `m` is set;
   * only a second pass would expand it.
   */
  lemma SubstitutionIsSinglePass(n: string, m: string, env: map<string, string>)
    requires IsName(n) && IsName(m) && n in env && env[n] == Placeholder(m)
    ensures ReplaceEnvVars(Placeholder(n), env) == Placeholder(m)
    ensures ReplaceEnvVars(ReplaceEnvVars(Placeholder(n), env), env) == if m in env then env[m] else Placeholder(m)
  {
    ReplacedValueNotRescanned(n, "", env);
    assert Placeholder(n) + "" == Placeholder(n);
    SinglePlaceholder(m, env);
  }

  // ---------------------------------------------------------------------
  // Loading
  // ---------------------------------------------------------------------

  datatype LoadError = FileNotFound(path: string) | Invalid(reason: string)

  datatype LoadResult = Loaded(config: Config) | LoadFailed(error: LoadError)

  /**
   * `load_config`: a missing file fails with FileNotFound; otherwise the
   * file's text has its placeholders substituted and is then handed to the
   * YAML parse and validation, given here as `parse`.
   */
  function LoadConfig(path: string, files: map<string, string>, env: map<string, string>,
                      parse: string -> Result<Config>): (r: LoadResult)
    ensures r == LoadFailed(FileNotFound(path)) <==> path !in files
    ensures r.Loaded? <==> path in files && parse(ReplaceEnvVars(files[path], env)).Ok?
    ensures r.Loaded? ==> r.config == parse(ReplaceEnvVars(files[path], env)).value
  {
    if path !in files then LoadFailed(FileNotFound(path))
    else
      match parse(ReplaceEnvVars(files[path], env))
      case Ok(c) => Loaded(c)
      case Err(_) => LoadFailed(Invalid("configuration does not validate"))
  }
}
