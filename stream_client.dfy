/**
 * The event router (src/stream_client.py): the handler that receives every
 * stream event, picks the configured rule for an HR change or an approved
 * approval, turns the event into form data, and runs the rule's
 * spreadsheet actions, retrying each one as the execution policy says.
 *
 * The handler's own state is the record-store client it drives (its cached
 * token and its request log) and the sleeps it asks for between attempts.
 * Each handler method is tied to a pure function of that state before the
 * call; the lemmas state the routing and retry rules about those functions.
 */
module StreamClient {
  import opened Values
  import opened Config
  import opened Spreadsheet

  /** Display names of the HR change types. */
  const HrmChangeTypeNames: map<int, string> :=
    map[1 := "入职", 2 := "转正", 3 := "调岗", 4 := "离职", 8 := "晋升"]

  /** Top-level event keys that are never copied into the form data. */
  const ExcludedKeys: set<string> := {"process_code", "result", "instance_id", "task_id", "formComponentValues"}

  /** A stream event: its header type and its JSON payload. */
  datatype Event = Event(eventType: string, data: map<string, Value>)

  /** The acknowledgement the handler returns for an event. */
  datatype Ack = AckOk | SystemException(error: Error)

  predicate IsUpdateAction(a: Action) {
    a.actionType == "update_spreadsheet"
  }

  // ---------------------------------------------------------------------
  // Rule tables
  // ---------------------------------------------------------------------

  function TemplateIdOf(a: Approval): string { a.templateId }
  predicate ApprovalEnabled(a: Approval) { a.enabled }
  function ChangeTypeOf(h: HrmEvent): int { h.changeType }
  predicate HrmEnabled(h: HrmEvent) { h.enabled }

  /** The enabled approval rules by template id; a later rule replaces an earlier one. */
  function ApprovalsMap(c: Config): map<string, Approval> {
    IndexBy(c.approvals, TemplateIdOf, ApprovalEnabled)
  }

  /** The enabled HR rules by change type; a later rule replaces an earlier one. */
  function HrmEventsMap(c: Config): map<int, HrmEvent> {
    IndexBy(c.hrmEvents, ChangeTypeOf, HrmEnabled)
  }

  /** Only enabled rules are indexed, each under its own key, and the last enabled rule for a key wins. */
  lemma RuleTables(c: Config, code: string, ct: int)
    ensures forall k :: k in ApprovalsMap(c) ==> ApprovalsMap(c)[k].enabled && ApprovalsMap(c)[k].templateId == k
    ensures forall k :: k in HrmEventsMap(c) ==> HrmEventsMap(c)[k].enabled && HrmEventsMap(c)[k].changeType == k
    ensures code in ApprovalsMap(c) <==> exists i :: 0 <= i < |c.approvals| && c.approvals[i].enabled && c.approvals[i].templateId == code
    ensures ct in HrmEventsMap(c) <==> exists i :: 0 <= i < |c.hrmEvents| && c.hrmEvents[i].enabled && c.hrmEvents[i].changeType == ct
    ensures forall j :: 0 <= j < |c.hrmEvents| && c.hrmEvents[j].enabled && c.hrmEvents[j].changeType == ct
                        && (forall i :: j < i < |c.hrmEvents| ==> !(c.hrmEvents[i].enabled && c.hrmEvents[i].changeType == ct))
                        ==> ct in HrmEventsMap(c) && HrmEventsMap(c)[ct] == c.hrmEvents[j]
  {
    IndexByValues(c.approvals, TemplateIdOf, ApprovalEnabled);
    IndexByValues(c.hrmEvents, ChangeTypeOf, HrmEnabled);
    IndexByLastWins(c.approvals, TemplateIdOf, ApprovalEnabled, code);
    IndexByLastWins(c.hrmEvents, ChangeTypeOf, HrmEnabled, ct);
    assert forall i :: KeptAt(c.approvals, TemplateIdOf, ApprovalEnabled, i, code) <==>
                       0 <= i < |c.approvals| && c.approvals[i].enabled && c.approvals[i].templateId == code;
    assert forall i :: KeptAt(c.hrmEvents, ChangeTypeOf, HrmEnabled, i, ct) <==>
                       0 <= i < |c.hrmEvents| && c.hrmEvents[i].enabled && c.hrmEvents[i].changeType == ct;
  }

  // ---------------------------------------------------------------------
  // Choosing the rule for an event
  // ---------------------------------------------------------------------

  /**
   * The HR rule for an event: none without a change type or without a rule
   * for it; a list or dict change type cannot be hashed and raises.
   */
  function HrmGate(data: map<string, Value>, rules: map<int, HrmEvent>): (r: Result<Option<HrmEvent>>)
    ensures Get(data, "changeType").Null? ==> r == Ok(None)
    ensures r.Err? <==> Get(data, "changeType").List? || Get(data, "changeType").Dict?
    ensures r.Err? ==> r.error == TypeError
    ensures r.Ok? && r.value.Some? ==>
              (Get(data, "changeType").Int? || Get(data, "changeType").Bool?)
              && IntKey(Get(data, "changeType")).value.value in rules
              && r.value.value == rules[IntKey(Get(data, "changeType")).value.value]
    ensures Get(data, "changeType").Int? ==>
              r == Ok(if Get(data, "changeType").i in rules then Some(rules[Get(data, "changeType").i]) else None)
    ensures Get(data, "changeType").Str? ==> r == Ok(None)
  {
    var ct := Get(data, "changeType");
    if ct.Null? then Ok(None)
    else
      match IntKey(ct)
      case Err(e) => Err(e)
      case Ok(None) => Ok(None)
      case Ok(Some(k)) => if k in rules then Ok(Some(rules[k])) else Ok(None)
  }

  /**
   * The approval rule for an event: only an approved ("agree") event with a
   * truthy process code that names a rule, and a truthy instance id, gets
   * one; a truthy list or dict code cannot be hashed and raises.
   */
  function ApprovalGate(data: map<string, Value>, rules: map<string, Approval>): (r: Result<Option<Approval>>)
    ensures Get(data, "result") != Str("agree") ==> r == Ok(None)
    ensures !Truthy(Get(data, "processCode")) ==> r == Ok(None)
    ensures r.Err? <==> Get(data, "result") == Str("agree") && Truthy(Get(data, "processCode"))
                        && (Get(data, "processCode").List? || Get(data, "processCode").Dict?)
    ensures r.Err? ==> r.error == TypeError
    ensures r.Ok? && r.value.Some? <==>
              Get(data, "result") == Str("agree") && Get(data, "processCode").Str?
              && Get(data, "processCode").s in rules && Get(data, "processCode").s != ""
              && Truthy(Get(data, "processInstanceId"))
    ensures r.Ok? && r.value.Some? ==> r.value.value == rules[Get(data, "processCode").s]
  {
    var code := Get(data, "processCode");
    if Get(data, "result") != Str("agree") || !Truthy(code) then Ok(None)
    else
      match StrKey(code)
      case Err(e) => Err(e)
      case Ok(None) => Ok(None)
      case Ok(Some(s)) =>
        if s !in rules || !Truthy(Get(data, "processInstanceId")) then Ok(None)
        else Ok(Some(rules[s]))
  }

  // ---------------------------------------------------------------------
  // Form data
  // ---------------------------------------------------------------------

  /**
   * `fd` with every key of `data` outside `skip` added, where `fd` does not
   * already have it: the existing entries are never overwritten.
   */
  function Merge(fd: map<string, Value>, data: map<string, Value>, skip: set<string>): (r: map<string, Value>)
    ensures r.Keys == fd.Keys + (data.Keys - skip)
    ensures forall k :: k in fd ==> r[k] == fd[k]
    ensures forall k :: k in data && k !in skip && k !in fd ==> r[k] == data[k]
  {
    map k | k in fd.Keys + (data.Keys - skip) :: if k in fd then fd[k] else data[k]
  }

  /** The loops that copy the event's remaining keys into the form data. */
  method FillGaps(fd: map<string, Value>, data: map<string, Value>, skip: set<string>) returns (r: map<string, Value>)
    ensures r == Merge(fd, data, skip)
  {
    r := fd;
    var todo := data.Keys;
    while todo != {}
      invariant todo <= data.Keys
      invariant r.Keys == fd.Keys + ((data.Keys - todo) - skip)
      invariant forall k :: k in r ==> r[k] == if k in fd then fd[k] else data[k]
      decreases |todo|
    {
      var key :| key in todo;
      if key !in skip && key !in r {
        r := r[key := data[key]];
      }
      todo := todo - {key};
    }
  }

  /** `HRM_CHANGE_TYPE_MAP.get(change_type, str(change_type))`. */
  function ChangeTypeName(v: Value): string
    requires v.Int? || v.Bool?
  {
    var k := IntKey(v).value.value;
    if k in HrmChangeTypeNames then HrmChangeTypeNames[k] else PyStr(v)
  }

  /**
   * The form data of an HR event: the staff id, the change type and its
   * display name, then every other key of the event.
   */
  function HrmFormData(data: map<string, Value>): (r: map<string, Value>)
    requires Get(data, "changeType").Int? || Get(data, "changeType").Bool?
    ensures r.Keys == data.Keys + {"staffId", "changeType", "changeTypeName"}
    ensures r["staffId"] == Get(data, "staffId") && r["changeType"] == Get(data, "changeType")
    ensures Get(data, "changeType").Int? && Get(data, "changeType").i in HrmChangeTypeNames ==>
              r["changeTypeName"] == Str(HrmChangeTypeNames[Get(data, "changeType").i])
    ensures Get(data, "changeType").Int? && Get(data, "changeType").i !in HrmChangeTypeNames ==>
              r["changeTypeName"] == Str(DecimalString(Get(data, "changeType").i))
    ensures forall k :: k in data && k !in {"staffId", "changeType", "changeTypeName"} ==> r[k] == data[k]
  {
    var ct := Get(data, "changeType");
    Merge(map["staffId" := Get(data, "staffId"), "changeType" := ct, "changeTypeName" := Str(ChangeTypeName(ct))], data, {})
  }

  method BuildHrmFormData(data: map<string, Value>) returns (fd: map<string, Value>)
    requires Get(data, "changeType").Int? || Get(data, "changeType").Bool?
    ensures fd == HrmFormData(data)
  {
    var ct := Get(data, "changeType");
    var seed := map["staffId" := Get(data, "staffId"), "changeType" := ct, "changeTypeName" := Str(ChangeTypeName(ct))];
    fd := FillGaps(seed, data, {});
  }

  /**
   * The entries one form component writes: its value under its name when
   * the name is a truthy string, and its ext value under `<name>_ext` when
   * both are truthy.  A truthy int or bool name is stored under a non-string
   * key, which no string lookup can reach, so only its `_ext` entry shows;
   * a list or dict name cannot be a key.
   */
  function Writes(c: map<string, Value>): (r: Result<map<string, Value>>)
    ensures !Truthy(Get(c, "name")) ==> r == Ok(map[])
    ensures r.Err? <==> Truthy(Get(c, "name")) && (Get(c, "name").List? || Get(c, "name").Dict?)
    ensures r.Err? ==> r.error == TypeError
    ensures r.Ok? && Get(c, "name").Str? && Truthy(Get(c, "name")) ==>
              Get(c, "name").s in r.value && r.value[Get(c, "name").s] == Get(c, "value")
    ensures r.Ok? && Truthy(Get(c, "name")) ==>
              (PyStr(Get(c, "name")) + "_ext" in r.value <==> Truthy(Get(c, "extValue")))
              && (Truthy(Get(c, "extValue")) ==> r.value[PyStr(Get(c, "name")) + "_ext"] == Get(c, "extValue"))
              && forall k :: k in r.value ==> (Get(c, "name").Str? && k == Get(c, "name").s) || k == PyStr(Get(c, "name")) + "_ext"
  {
    var name := Get(c, "name");
    if !Truthy(name) then Ok(map[])
    else if name.List? || name.Dict? then Err(TypeError)
    else
      var base := if name.Str? then map[name.s := Get(c, "value")] else map[];
      var ext := Get(c, "extValue");
      assert name.Str? ==> name.s != PyStr(name) + "_ext";
      if Truthy(ext) then Ok(base[PyStr(name) + "_ext" := ext]) else Ok(base)
  }

  /** One component of `formComponentValues`: `.get` needs an object. */
  function ApplyComponent(fd: map<string, Value>, c: Value): Result<map<string, Value>> {
    if !c.Dict? then Err(AttributeError)
    else
      match Writes(c.fields)
      case Err(e) => Err(e)
      case Ok(w) => Ok(fd + w)
  }

  /** The components in order; the first failing one ends the extraction. */
  function FoldComponents(fd: map<string, Value>, cs: seq<Value>): Result<map<string, Value>>
    decreases |cs|
  {
    if cs == [] then Ok(fd)
    else
      match ApplyComponent(fd, cs[0])
      case Err(e) => Err(e)
      case Ok(next) => FoldComponents(next, cs[1..])
  }

  /** Component `i` of `cs` is an object that writes key `k`. */
  ghost predicate WritesKey(cs: seq<Value>, i: int, k: string) {
    0 <= i < |cs| && cs[i].Dict? && Writes(cs[i].fields).Ok? && k in Writes(cs[i].fields).value
  }

  /** The extraction succeeds exactly when every component is an object whose name can be a key. */
  lemma {:induction false} FoldComponentsOk(fd: map<string, Value>, cs: seq<Value>)
    ensures FoldComponents(fd, cs).Ok? <==> forall i :: 0 <= i < |cs| ==> cs[i].Dict? && Writes(cs[i].fields).Ok?
    decreases |cs|
  {
    if cs != [] {
      if ApplyComponent(fd, cs[0]).Ok? {
        FoldComponentsOk(ApplyComponent(fd, cs[0]).value, cs[1..]);
        assert forall i :: 1 <= i < |cs| ==> cs[i] == cs[1..][i - 1];
      }
    }
  }

  /** A key that no component writes keeps its earlier entry, or stays absent. */
  lemma {:induction false} FoldKeeps(fd: map<string, Value>, cs: seq<Value>, k: string)
    requires FoldComponents(fd, cs).Ok?
    requires forall i :: !WritesKey(cs, i, k)
    ensures (k in FoldComponents(fd, cs).value <==> k in fd)
    ensures k in fd ==> FoldComponents(fd, cs).value[k] == fd[k]
    decreases |cs|
  {
    if cs != [] {
      assert !WritesKey(cs, 0, k);
      var next := ApplyComponent(fd, cs[0]).value;
      forall i ensures !WritesKey(cs[1..], i, k) {
        assert !WritesKey(cs, i + 1, k);
      }
      FoldKeeps(next, cs[1..], k);
    }
  }

  /** A key that some component writes holds the value of the last component that writes it. */
  lemma {:induction false} FoldLastWins(fd: map<string, Value>, cs: seq<Value>, k: string, j: int)
    requires FoldComponents(fd, cs).Ok?
    requires WritesKey(cs, j, k)
    requires forall i :: j < i < |cs| ==> !WritesKey(cs, i, k)
    ensures k in FoldComponents(fd, cs).value
    ensures FoldComponents(fd, cs).value[k] == Writes(cs[j].fields).value[k]
    decreases |cs|
  {
    var next := ApplyComponent(fd, cs[0]).value;
    if j == 0 {
      forall i ensures !WritesKey(cs[1..], i, k) {
        if 0 <= i < |cs| - 1 {
          assert !WritesKey(cs, i + 1, k);
        }
      }
      assert next == fd + Writes(cs[0].fields).value;
      FoldKeeps(next, cs[1..], k);
    } else {
      assert WritesKey(cs[1..], j - 1, k);
      forall i | j - 1 < i < |cs| - 1 ensures !WritesKey(cs[1..], i, k) {
        assert !WritesKey(cs, i + 1, k);
      }
      FoldLastWins(next, cs[1..], k, j - 1);
    }
  }

  /** The event's instance details merged over its data when they are an object. */
  function MergeDetails(data: map<string, Value>, details: Result<Option<Value>>): (r: map<string, Value>)
    ensures details.Ok? && details.value.Some? && details.value.value.Dict? ==> r == data + details.value.value.fields
    ensures !(details.Ok? && details.value.Some? && details.value.value.Dict?) ==> r == data
  {
    if details.Ok? && details.value.Some? && details.value.value.Dict? then data + details.value.value.fields else data
  }

  /**
   * `_extract_form_data`: the named form components, then the top-level keys
   * outside `ExcludedKeys` that the components did not supply.
   */
  function FormDataOf(data: map<string, Value>): Result<map<string, Value>> {
    if "formComponentValues" in data then
      match ItemsForGet(data["formComponentValues"])
      case Err(e) => Err(e)
      case Ok(cs) =>
        match FoldComponents(map[], cs)
        case Err(e) => Err(e)
        case Ok(fd) => Ok(Merge(fd, data, ExcludedKeys))
    else Ok(Merge(map[], data, ExcludedKeys))
  }

  /**
   * The form data of an approval: a component's entry beats a top-level key
   * of the same name, the last component to write a key wins, excluded keys
   * appear only when a component writes them, and every other top-level key
   * is copied.
   */
  lemma FormDataSources(data: map<string, Value>, k: string)
    requires FormDataOf(data).Ok?
    ensures var fd := FormDataOf(data).value;
            var cs := if "formComponentValues" in data then ItemsForGet(data["formComponentValues"]).value else [];
            (forall j :: WritesKey(cs, j, k) && (forall i :: j < i < |cs| ==> !WritesKey(cs, i, k))
                         ==> k in fd && fd[k] == Writes(cs[j].fields).value[k])
            && ((forall i :: !WritesKey(cs, i, k)) ==>
                  (k in fd <==> k in data && k !in ExcludedKeys) && (k in fd ==> fd[k] == data[k]))
  {
    var cs := if "formComponentValues" in data then ItemsForGet(data["formComponentValues"]).value else [];
    var comps := FoldComponents(map[], cs).value;
    assert FormDataOf(data).value == Merge(comps, data, ExcludedKeys);
    forall j | WritesKey(cs, j, k) && (forall i :: j < i < |cs| ==> !WritesKey(cs, i, k))
      ensures k in comps && comps[k] == Writes(cs[j].fields).value[k]
    {
      FoldLastWins(map[], cs, k, j);
    }
    if forall i :: !WritesKey(cs, i, k) {
      FoldKeeps(map[], cs, k);
    }
  }

  /** `_extract_form_data`. */
  method ExtractFormData(data: map<string, Value>) returns (r: Result<map<string, Value>>)
    ensures r == FormDataOf(data)
  {
    var fd: map<string, Value> := map[];
    if "formComponentValues" in data {
      var items := ItemsForGet(data["formComponentValues"]);
      if items.Err? {
        return Err(items.error);
      }
      var cs := items.value;
      var i := 0;
      while i < |cs|
        invariant 0 <= i <= |cs|
        invariant FoldComponents(map[], cs) == FoldComponents(fd, cs[i..])
      {
        var component := cs[i];
        assert cs[i..][1..] == cs[i + 1..];
        if !component.Dict? {
          return Err(AttributeError);
        }
        var name := Get(component.fields, "name");
        var value := Get(component.fields, "value");
        ghost var before := fd;
        if Truthy(name) {
          if name.List? || name.Dict? {
            return Err(TypeError);
          }
          if name.Str? {
            fd := fd[name.s := value];
          }
          var ext := Get(component.fields, "extValue");
          if Truthy(ext) {
            fd := fd[PyStr(name) + "_ext" := ext];
          }
          assert fd == before + Writes(component.fields).value;
        } else {
          assert before + map[] == before;
        }
        assert ApplyComponent(before, component) == Ok(fd);
        i := i + 1;
      }
    }
    var merged := FillGaps(fd, data, ExcludedKeys);
    r := Ok(merged);
  }

  // ---------------------------------------------------------------------
  // The operator of an approval
  // ---------------------------------------------------------------------

  /** `a or b or ...`: the first truthy operand, or the last one when none is. */
  function OrChain(vs: seq<Value>): (r: Value)
    requires vs != []
    ensures Truthy(r) <==> exists i :: 0 <= i < |vs| && Truthy(vs[i])
    ensures forall i :: 0 <= i < |vs| && Truthy(vs[i]) && (forall j :: 0 <= j < i ==> !Truthy(vs[j])) ==> r == vs[i]
    ensures (forall i :: 0 <= i < |vs| ==> !Truthy(vs[i])) ==> r == vs[|vs| - 1]
    decreases |vs|
  {
    if |vs| == 1 || Truthy(vs[0]) then vs[0]
    else
      var r := OrChain(vs[1..]);
      assert forall i :: 1 <= i < |vs| ==> vs[i] == vs[1..][i - 1];
      r
  }

  /** The operator passed to the record store: the union id, then the operator, the user id, the originator. */
  function OperatorOf(data: map<string, Value>): Value {
    OrChain([Get(data, "operatorUnionId"), Get(data, "operator"), Get(data, "userid"), Get(data, "originatorUnionId")])
  }

  // ---------------------------------------------------------------------
  // The handler
  // ---------------------------------------------------------------------

  /** The sleep log of `n` retry pauses of `interval` seconds. */
  function Repeat(interval: int, n: nat): (r: seq<int>)
    ensures |r| == n && forall i :: 0 <= i < n ==> r[i] == interval
  {
    if n == 0 then [] else Repeat(interval, n - 1) + [interval]
  }

  lemma {:induction false} RepeatAdd(interval: int, a: nat, b: nat)
    ensures Repeat(interval, a) + Repeat(interval, b) == Repeat(interval, a + b)
    decreases b
  {
    if b > 0 {
      RepeatAdd(interval, a, b - 1);
    }
  }

  /** One record-store update: where it goes and what it writes. */
  datatype UpdateCall = UpdateCall(sheetId: Option<string>, baseId: Option<string>, findBy: FindBy,
                                   updates: seq<UpdateField>, formData: map<string, Value>, operator: Value, now: string)

  /** One action: how it ended, its attempts, the client state after it and the pauses it took. */
  datatype Run = Run(outcome: Outcome, results: seq<Result<bool>>, token: Value, log: seq<Request>, sleeps: nat)

  /** A list of actions: how each ended, the client state after them and the pauses they took. */
  datatype ActionsRun = ActionsRun(outcomes: seq<Outcome>, token: Value, log: seq<Request>, sleeps: nat)

  /** A sequence that starts with `pre + [x]` starts with `pre` and holds `x` right after it. */
  lemma PrefixThen(xs: seq<Outcome>, pre: seq<Outcome>, x: Outcome)
    requires |xs| > |pre| && xs[..|pre| + 1] == pre + [x]
    ensures xs[..|pre|] == pre && xs[|pre|] == x
  {
    assert xs[..|pre|] == xs[..|pre| + 1][..|pre|];
    assert xs[|pre|] == xs[..|pre| + 1][|pre|];
  }

  /** One event: its acknowledgement, the client state after it and the pauses it took. */
  datatype Handled = Handled(ack: Ack, token: Value, log: seq<Request>, sleeps: nat)

  class UnifiedEventHandler {
    const config: Config
    const spreadsheet: SpreadsheetClient
    const approvalsMap: map<string, Approval> := ApprovalsMap(config)
    const hrmEventsMap: map<int, HrmEvent> := HrmEventsMap(config)
    /** The pauses, in seconds, taken between attempts so far. */
    var sleeps: seq<int>

    constructor (config: Config, spreadsheet: SpreadsheetClient)
      ensures this.config == config && this.spreadsheet == spreadsheet && sleeps == []
    {
      this.config := config;
      this.spreadsheet := spreadsheet;
      sleeps := [];
    }

    /** `range(retry_times + 1)`: the attempts an update may make. */
    function AttemptLimit(): nat {
      if config.execution.retryTimes + 1 > 0 then config.execution.retryTimes + 1 else 0
    }

    function Interval(): int {
      config.execution.retryInterval
    }

    /** The call an action makes, with the handler's defaults for a missing sheet or base. */
    function CallFor(action: Action, formData: map<string, Value>, operator: Value, now: string): UpdateCall
      requires action.findBy.Some?
    {
      UpdateCall(Fallback(action.sheetId, config.spreadsheet.defaultSheetId),
                 Fallback(action.baseId, config.spreadsheet.baseId),
                 action.findBy.value, action.updates, formData, operator, now)
    }

    function Attempt(token: Value, log: seq<Request>, call: UpdateCall): Step<bool> {
      spreadsheet.ProcessStep(token, log, call.sheetId, call.baseId, call.findBy, call.updates, call.formData, call.operator, call.now)
    }

    /**
     * The retry loop once the attempts `made` have all failed: the next
     * attempt ends the loop on success; a failure or an exception is
     * followed by a pause and another attempt while attempts remain, and the
     * last attempt's exception is re-raised.
     */
    function Retry(token: Value, log: seq<Request>, call: UpdateCall, n: nat, made: seq<Result<bool>>): Run
      decreases n - |made|, 1
    {
      if |made| >= n then Run(Done, made, token, log, if made == [] then 0 else |made| - 1)
      else TryNext(token, log, call, n, made)
    }

    /** The next attempt of the retry loop, while one remains. */
    function TryNext(token: Value, log: seq<Request>, call: UpdateCall, n: nat, made: seq<Result<bool>>): Run
      requires |made| < n
      decreases n - |made|, 0
    {
      var p := Attempt(token, log, call);
      var tried := made + [p.result];
      if p.result == Ok(true) then Run(Done, tried, p.token, p.log, |made|)
      else if |made| < n - 1 then Retry(p.token, p.log, call, n, tried)
      else Run(if p.result.Err? then Raised(p.result.error) else Done, tried, p.token, p.log, |made|)
    }

    /**
     * The results of the loop extend the failed attempts already made by at
     * least one attempt while any remain; only the last can succeed, the
     * loop stops early only on a success, it pauses between attempts, and
     * it raises exactly when every attempt was used and the last raised.
     */
    lemma {:induction false} RetryShape(token: Value, log: seq<Request>, call: UpdateCall, n: nat, made: seq<Result<bool>>)
      requires |made| <= n
      requires forall i :: 0 <= i < |made| ==> made[i] != Ok(true)
      ensures var r := Retry(token, log, call, n, made);
              var k := |r.results|;
              |made| <= k <= n && r.results[..|made|] == made
              && (|made| < n ==> k > |made| && r.results[|made|] == Attempt(token, log, call).result)
              && (forall i :: 0 <= i < k - 1 ==> r.results[i] != Ok(true))
              && (k < n ==> k > 0 && r.results[k - 1] == Ok(true))
              && r.sleeps == (if k == 0 then 0 else k - 1)
              && (r.outcome.Raised? <==> k == n && k > |made| && r.results[k - 1].Err?)
              && (r.outcome.Raised? ==> r.outcome.error == r.results[k - 1].error)
      decreases n - |made|
    {
      if |made| < n {
        var p := Attempt(token, log, call);
        var tried := made + [p.result];
        assert tried[..|made|] == made;
        if p.result != Ok(true) && |made| < n - 1 {
          RetryShape(p.token, p.log, call, n, tried);
          var r := Retry(p.token, p.log, call, n, tried);
          assert r.results[..|made|] == r.results[..|tried|][..|made|];
          assert r.results[|made|] == r.results[..|tried|][|made|];
        }
      }
    }

    /**
     * `_update_spreadsheet`: nothing without a `find_by` or without updates;
     * otherwise the attempts, a pause after every attempt but the last, and
     * the last attempt's exception re-raised when every attempt was used.
     */
    function UpdateEffect(token: Value, log: seq<Request>, action: Action, formData: map<string, Value>,
                          operator: Value, now: string): Run
    {
      if action.findBy.None? || action.updates == [] then Run(Done, [], token, log, 0)
      else
        Retry(token, log, CallFor(action, formData, operator, now), AttemptLimit(), [])
    }

    /** The retry policy of one update action. */
    lemma RetryPolicy(token: Value, log: seq<Request>, action: Action, formData: map<string, Value>, operator: Value, now: string)
      ensures var run := UpdateEffect(token, log, action, formData, operator, now);
              var n := AttemptLimit();
              var k := |run.results|;
              (action.findBy.None? || action.updates == [] ==> run == Run(Done, [], token, log, 0))
              && k <= n
              && (action.findBy.Some? && action.updates != [] && n > 0 ==>
                    k > 0 && run.results[0] == Attempt(token, log, CallFor(action, formData, operator, now)).result)
              && (forall i :: 0 <= i < k - 1 ==> run.results[i] != Ok(true))
              && (0 < k < n ==> run.results[k - 1] == Ok(true))
              && ((forall i :: 0 <= i < k ==> run.results[i] != Ok(true)) ==> k == n || run.results == [])
              && run.sleeps == (if k == 0 then 0 else k - 1)
              && (run.outcome.Raised? <==> k == n && k > 0 && run.results[k - 1].Err?)
              && (run.outcome.Raised? ==> run.outcome.error == run.results[k - 1].error)
    {
      if action.findBy.Some? && action.updates != [] {
        RetryShape(token, log, CallFor(action, formData, operator, now), AttemptLimit(), []);
      }
    }

    /** One action of a rule: only `update_spreadsheet` actions do anything. */
    function ActionEffect(token: Value, log: seq<Request>, action: Action, formData: map<string, Value>,
                          operator: Value, now: string): Run
    {
      if IsUpdateAction(action) then UpdateEffect(token, log, action, formData, operator, now)
      else Run(Done, [], token, log, 0)
    }

    /**
     * `_execute_actions` from action `i` on, after the run `done` of the
     * actions before it: every action runs in turn whatever the earlier
     * ones raised.
     */
    function RunActionsFrom(actions: seq<Action>, i: nat, done: ActionsRun, formData: map<string, Value>,
                            operator: Value, now: string): ActionsRun
      decreases |actions| - i
    {
      if i >= |actions| then done
      else
        var run := ActionEffect(done.token, done.log, actions[i], formData, operator, now);
        RunActionsFrom(actions, i + 1, ActionsRun(done.outcomes + [run.outcome], run.token, run.log, done.sleeps + run.sleeps),
                       formData, operator, now)
    }

    /** `_execute_actions`. */
    function RunActions(token: Value, log: seq<Request>, actions: seq<Action>, formData: map<string, Value>,
                        operator: Value, now: string): ActionsRun
    {
      RunActionsFrom(actions, 0, ActionsRun([], token, log, 0), formData, operator, now)
    }

    /**
     * The actions from `i` on add one outcome each after those of `done`;
     * an action of another type does nothing, and with no update action
     * left the client and the pauses stay as `done` left them.
     */
    lemma {:induction false} ActionsFromIsolated(actions: seq<Action>, i: nat, done: ActionsRun,
                                                 formData: map<string, Value>, operator: Value, now: string)
      requires i <= |actions|
      ensures var run := RunActionsFrom(actions, i, done, formData, operator, now);
              |run.outcomes| == |done.outcomes| + |actions| - i
              && run.outcomes[..|done.outcomes|] == done.outcomes
              && (forall j :: i <= j < |actions| && !IsUpdateAction(actions[j]) ==> run.outcomes[|done.outcomes| + j - i] == Done)
              && ((forall j :: i <= j < |actions| ==> !IsUpdateAction(actions[j])) ==>
                    run.token == done.token && run.log == done.log && run.sleeps == done.sleeps)
      decreases |actions| - i
    {
      if i < |actions| {
        var first := ActionEffect(done.token, done.log, actions[i], formData, operator, now);
        var next := ActionsRun(done.outcomes + [first.outcome], first.token, first.log, done.sleeps + first.sleeps);
        ActionsFromIsolated(actions, i + 1, next, formData, operator, now);
        var run := RunActionsFrom(actions, i + 1, next, formData, operator, now);
        PrefixThen(run.outcomes, done.outcomes, first.outcome);
      }
    }

    /**
     * Every action gets an outcome; an action of another type does nothing,
     * and a list with no update action leaves the client untouched.
     */
    lemma ActionsIsolated(token: Value, log: seq<Request>, actions: seq<Action>,
                          formData: map<string, Value>, operator: Value, now: string)
      ensures var run := RunActions(token, log, actions, formData, operator, now);
              |run.outcomes| == |actions|
              && (forall i :: 0 <= i < |actions| && !IsUpdateAction(actions[i]) ==> run.outcomes[i] == Done)
              && ((forall i :: 0 <= i < |actions| ==> !IsUpdateAction(actions[i])) ==>
                    run.token == token && run.log == log && run.sleeps == 0)
    {
      ActionsFromIsolated(actions, 0, ActionsRun([], token, log, 0), formData, operator, now);
    }

    /** `_process_hrm_event`. */
    function HrmEffect(token: Value, log: seq<Request>, data: map<string, Value>, now: string): Handled {
      match HrmGate(data, hrmEventsMap)
      case Err(e) => Handled(SystemException(e), token, log, 0)
      case Ok(None) => Handled(AckOk, token, log, 0)
      case Ok(Some(h)) =>
        var run := RunActions(token, log, h.actions, HrmFormData(data), Null, now);
        Handled(AckOk, run.token, run.log, run.sleeps)
    }

    /** `_process_approval_event`; a failed detail fetch is logged and the event data is used as it is. */
    function ApprovalEffect(token: Value, log: seq<Request>, data: map<string, Value>, now: string): Handled {
      match ApprovalGate(data, approvalsMap)
      case Err(e) => Handled(SystemException(e), token, log, 0)
      case Ok(None) => Handled(AckOk, token, log, 0)
      case Ok(Some(a)) =>
        var inst := spreadsheet.InstanceStep(token, log, Get(data, "processInstanceId"));
        var merged := MergeDetails(data, inst.result);
        match FormDataOf(merged)
        case Err(e) => Handled(SystemException(e), inst.token, inst.log, 0)
        case Ok(fd) =>
          var run := RunActions(inst.token, inst.log, a.actions, fd, OperatorOf(merged), now);
          Handled(AckOk, run.token, run.log, run.sleeps)
    }

    /** `process`: HR changes and the two approval event types are handled, every other type is acknowledged. */
    function ProcessEffect(token: Value, log: seq<Request>, event: Event, now: string): Handled {
      if event.eventType == "hrm_mdm_user_change" then HrmEffect(token, log, event.data, now)
      else if event.eventType in ["bpms_task_change", "bpms_instance_change"] then ApprovalEffect(token, log, event.data, now)
      else Handled(AckOk, token, log, 0)
    }

    /**
     * An HR event without a change type, or without an enabled rule for its
     * change type, is acknowledged and changes nothing; one with an enabled
     * rule runs the last such rule's actions on the HR form data, with no operator.
     */
    lemma HrmRouting(token: Value, log: seq<Request>, data: map<string, Value>, now: string)
      ensures Get(data, "changeType").Null? ==> HrmEffect(token, log, data, now) == Handled(AckOk, token, log, 0)
      ensures Get(data, "changeType").List? || Get(data, "changeType").Dict? ==>
                HrmEffect(token, log, data, now) == Handled(SystemException(TypeError), token, log, 0)
      ensures Get(data, "changeType").Int? && !(exists i :: 0 <= i < |config.hrmEvents| && config.hrmEvents[i].enabled
                                                            && config.hrmEvents[i].changeType == Get(data, "changeType").i) ==>
                HrmEffect(token, log, data, now) == Handled(AckOk, token, log, 0)
      ensures forall j :: Get(data, "changeType").Int? && 0 <= j < |config.hrmEvents|
                          && config.hrmEvents[j].enabled && config.hrmEvents[j].changeType == Get(data, "changeType").i
                          && (forall i :: j < i < |config.hrmEvents| ==>
                                !(config.hrmEvents[i].enabled && config.hrmEvents[i].changeType == Get(data, "changeType").i))
                          ==> var run := RunActions(token, log, config.hrmEvents[j].actions, HrmFormData(data), Null, now);
                              HrmEffect(token, log, data, now) == Handled(AckOk, run.token, run.log, run.sleeps)
    {
      var ct := Get(data, "changeType");
      if ct.Int? {
        RuleTables(config, "", ct.i);
      }
    }

    /**
     * An approval event is acted on only when it is approved, names an
     * enabled template and has an instance id; then a failed detail fetch
     * leaves the event data as it was, and the actions run with the operator
     * taken from the merged data.
     */
    lemma ApprovalRouting(token: Value, log: seq<Request>, data: map<string, Value>, now: string)
      ensures Get(data, "result") != Str("agree") ==> ApprovalEffect(token, log, data, now) == Handled(AckOk, token, log, 0)
      ensures !Truthy(Get(data, "processCode")) ==> ApprovalEffect(token, log, data, now) == Handled(AckOk, token, log, 0)
      ensures Get(data, "processCode").Str? && !(exists i :: 0 <= i < |config.approvals| && config.approvals[i].enabled
                                                             && config.approvals[i].templateId == Get(data, "processCode").s) ==>
                ApprovalEffect(token, log, data, now) == Handled(AckOk, token, log, 0)
      ensures Get(data, "processCode").Str? && !Truthy(Get(data, "processInstanceId")) ==>
                ApprovalEffect(token, log, data, now) == Handled(AckOk, token, log, 0)
      ensures var inst := spreadsheet.InstanceStep(token, log, Get(data, "processInstanceId"));
              var gate := ApprovalGate(data, approvalsMap);
              gate.Ok? && gate.value.Some? && inst.result.Err? ==>
                (FormDataOf(data).Err? ==>
                   ApprovalEffect(token, log, data, now) == Handled(SystemException(FormDataOf(data).error), inst.token, inst.log, 0))
                && (FormDataOf(data).Ok? ==>
                      var run := RunActions(inst.token, inst.log, gate.value.value.actions, FormDataOf(data).value, OperatorOf(data), now);
                      ApprovalEffect(token, log, data, now) == Handled(AckOk, run.token, run.log, run.sleeps))
    {
      var code := Get(data, "processCode");
      if code.Str? {
        RuleTables(config, code.s, 0);
      }
    }

    /** Events of any other type are acknowledged and change nothing. */
    lemma OtherEventsIgnored(token: Value, log: seq<Request>, event: Event, now: string)
      requires event.eventType !in ["hrm_mdm_user_change", "bpms_task_change", "bpms_instance_change"]
      ensures ProcessEffect(token, log, event, now) == Handled(AckOk, token, log, 0)
    {
    }

    /** The client state and pause log now are those `h` describes, from `sleeps0`. */
    predicate After(token: Value, log: seq<Request>, slept: nat, sleeps0: seq<int>)
      reads this, spreadsheet
    {
      spreadsheet.accessToken == token && spreadsheet.requests == log && sleeps == sleeps0 + Repeat(Interval(), slept)
    }

    /** `_update_spreadsheet`. */
    method UpdateSpreadsheet(action: Action, formData: map<string, Value>, operator: Value, now: string)
      returns (outcome: Outcome)
      modifies this, spreadsheet
      ensures var run := UpdateEffect(old(spreadsheet.accessToken), old(spreadsheet.requests), action, formData, operator, now);
              outcome == run.outcome && After(run.token, run.log, run.sleeps, old(sleeps))
    {
      if action.findBy.None? || action.updates == [] {
        return Done;
      }
      var call := CallFor(action, formData, operator, now);
      var maxRetries := config.execution.retryTimes;
      var n := AttemptLimit();
      ghost var all := Retry(spreadsheet.accessToken, spreadsheet.requests, call, n, []);
      ghost var results: seq<Result<bool>> := [];
      var attempt := 0;
      while attempt < n
        invariant 0 <= attempt <= n && |results| == attempt
        invariant attempt < n ==> all == Retry(spreadsheet.accessToken, spreadsheet.requests, call, n, results)
                                  && sleeps == old(sleeps) + Repeat(Interval(), attempt)
        invariant attempt == n ==> all == Run(Done, results, spreadsheet.accessToken, spreadsheet.requests, all.sleeps)
                                   && sleeps == old(sleeps) + Repeat(Interval(), all.sleeps)
      {
        var success := spreadsheet.ProcessUpdateActions(call.sheetId, call.baseId, call.findBy, call.updates,
                                                        call.formData, call.operator, call.now);
        results := results + [success];
        if success == Ok(true) {
          return Done;
        }
        if attempt < maxRetries {
          sleeps := sleeps + [Interval()];
        } else if success.Err? {
          return Raised(success.error);
        }
        attempt := attempt + 1;
      }
      outcome := Done;
    }

    /** The body of `_execute_actions`' loop for one action. */
    method RunAction(action: Action, formData: map<string, Value>, operator: Value, now: string)
      returns (outcome: Outcome)
      modifies this, spreadsheet
      ensures var run := ActionEffect(old(spreadsheet.accessToken), old(spreadsheet.requests), action, formData, operator, now);
              outcome == run.outcome && After(run.token, run.log, run.sleeps, old(sleeps))
    {
      if IsUpdateAction(action) {
        outcome := UpdateSpreadsheet(action, formData, operator, now);
      } else {
        outcome := Done;
      }
    }

    /** The run `all` is what the actions from `i` on make of the run `done` before them. */
    ghost predicate Continues(all: ActionsRun, actions: seq<Action>, i: nat, done: ActionsRun,
                              formData: map<string, Value>, operator: Value, now: string)
    {
      all == RunActionsFrom(actions, i, done, formData, operator, now)
    }

    /** One more action moves from the actions still to run to the run before them. */
    lemma ContinuesStep(all: ActionsRun, actions: seq<Action>, i: nat, done: ActionsRun,
                        formData: map<string, Value>, operator: Value, now: string)
      requires i < |actions| && Continues(all, actions, i, done, formData, operator, now)
      ensures var run := ActionEffect(done.token, done.log, actions[i], formData, operator, now);
              Continues(all, actions, i + 1, ActionsRun(done.outcomes + [run.outcome], run.token, run.log, done.sleeps + run.sleeps),
                        formData, operator, now)
    {
    }

    /** `_execute_actions`. */
    method ExecuteActions(actions: seq<Action>, formData: map<string, Value>, operator: Value, now: string)
      returns (outcomes: seq<Outcome>)
      modifies this, spreadsheet
      ensures var run := RunActions(old(spreadsheet.accessToken), old(spreadsheet.requests), actions, formData, operator, now);
              outcomes == run.outcomes && After(run.token, run.log, run.sleeps, old(sleeps))
    {
      ghost var all := RunActions(spreadsheet.accessToken, spreadsheet.requests, actions, formData, operator, now);
      ghost var slept: nat := 0;
      outcomes := [];
      var i := 0;
      while i < |actions|
        invariant 0 <= i <= |actions|
        invariant Continues(all, actions, i, ActionsRun(outcomes, spreadsheet.accessToken, spreadsheet.requests, slept),
                            formData, operator, now)
        invariant sleeps == old(sleeps) + Repeat(Interval(), slept)
      {
        var action := actions[i];
        ghost var run := ActionEffect(spreadsheet.accessToken, spreadsheet.requests, action, formData, operator, now);
        ContinuesStep(all, actions, i, ActionsRun(outcomes, spreadsheet.accessToken, spreadsheet.requests, slept), formData, operator, now);
        var outcome := RunAction(action, formData, operator, now);
        RepeatAdd(Interval(), slept, run.sleeps);
        slept := slept + run.sleeps;
        outcomes := outcomes + [outcome];
        i := i + 1;
      }
    }

    /** `_process_hrm_event`. */
    method ProcessHrmEvent(data: map<string, Value>, now: string) returns (ack: Ack)
      modifies this, spreadsheet
      ensures var h := HrmEffect(old(spreadsheet.accessToken), old(spreadsheet.requests), data, now);
              ack == h.ack && After(h.token, h.log, h.sleeps, old(sleeps))
    {
      var changeType := Get(data, "changeType");
      if changeType.Null? {
        return AckOk;
      }
      var key := IntKey(changeType);
      if key.Err? {
        return SystemException(key.error);
      }
      if key.value.None? || key.value.value !in hrmEventsMap {
        return AckOk;
      }
      var hrmEvent := hrmEventsMap[key.value.value];
      var formData := BuildHrmFormData(data);
      var _ := ExecuteActions(hrmEvent.actions, formData, Null, now);
      return AckOk;
    }

    /** `_process_approval_event`. */
    method ProcessApprovalEvent(data: map<string, Value>, now: string) returns (ack: Ack)
      modifies this, spreadsheet
      ensures var h := ApprovalEffect(old(spreadsheet.accessToken), old(spreadsheet.requests), data, now);
              ack == h.ack && After(h.token, h.log, h.sleeps, old(sleeps))
    {
      if Get(data, "result") != Str("agree") {
        return AckOk;
      }
      var processCode := Get(data, "processCode");
      if !Truthy(processCode) {
        return AckOk;
      }
      var key := StrKey(processCode);
      if key.Err? {
        return SystemException(key.error);
      }
      if key.value.None? || key.value.value !in approvalsMap {
        return AckOk;
      }
      var approval := approvalsMap[key.value.value];
      var processInstanceId := Get(data, "processInstanceId");
      if !Truthy(processInstanceId) {
        return AckOk;
      }
      var details := spreadsheet.GetProcessInstance(processInstanceId);
      var eventData := data;
      if details.Ok? && details.value.Some? && details.value.value.Dict? {
        eventData := data + details.value.value.fields;
      }
      var formData := ExtractFormData(eventData);
      if formData.Err? {
        return SystemException(formData.error);
      }
      var operator := OperatorOf(eventData);
      var _ := ExecuteActions(approval.actions, formData.value, operator, now);
      return AckOk;
    }

    /** `process`. */
    method Process(event: Event, now: string) returns (ack: Ack)
      modifies this, spreadsheet
      ensures var h := ProcessEffect(old(spreadsheet.accessToken), old(spreadsheet.requests), event, now);
              ack == h.ack && After(h.token, h.log, h.sleeps, old(sleeps))
    {
      if event.eventType == "hrm_mdm_user_change" {
        ack := ProcessHrmEvent(event.data, now);
      } else if event.eventType in ["bpms_task_change", "bpms_instance_change"] {
        ack := ProcessApprovalEvent(event.data, now);
      } else {
        ack := AckOk;
      }
    }
  }
}
