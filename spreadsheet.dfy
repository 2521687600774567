/**
 * The record-store client (src/spreadsheet_client.py): how each call is
 * shaped into a request, how each response envelope is judged, the cached
 * access token, and the record-update planner that finds one record by a
 * form value and writes the configured fields into it.
 *
 * The remote service is a function `service(n, request)` giving the reply
 * to the `n`-th request the client sends; the client keeps the log of the
 * requests it has sent.  A reply is a decoded JSON object, or `Failed` when
 * the transport raised or the body did not decode.
 */
module Spreadsheet {
  import opened Values
  import opened Config

  datatype Request =
    | TokenRequest(appKey: string, appSecret: string)
    | InstanceRequest(token: Value, processInstanceId: Value)
    | ListRecordsRequest(token: Value, base: string, sheet: Option<string>, operatorId: Value, body: map<string, Value>)
    | UpdateRecordsRequest(token: Value, base: string, sheet: Option<string>, operatorId: Value, records: seq<Value>)
    | AddRecordsRequest(token: Value, base: string, sheet: Option<string>, operatorId: Value, records: seq<Value>)

  datatype Response = Reply(fields: map<string, Value>) | Failed

  /**
   * What one client call leaves behind: its result, the cached token and the
   * request log afterwards.
   */
  datatype Step<T> = Step(result: Result<T>, token: Value, log: seq<Request>)

  /** The log `after` is the log `before` with zero or more requests appended. */
  predicate Extends(before: seq<Request>, after: seq<Request>) {
    |before| <= |after| && after[..|before|] == before
  }

  // ---------------------------------------------------------------------
  // Request shaping
  // ---------------------------------------------------------------------

  /** The single-condition filter clause `field equal [value]`. */
  function EqualFilter(field: string, value: Value): Value {
    Dict(map[
      "combination" := Str("and"),
      "conditions" := List([Dict(map["field" := Str(field), "operator" := Str("equal"), "value" := List([value])])])])
  }

  /** The body of a list call: the page size, and a filter only for a set field and a non-None value. */
  function ListBody(filterField: Option<string>, filterValue: Value, maxResults: int): (b: map<string, Value>)
    ensures "filter" in b <==> IsSet(filterField) && filterValue != Null
    ensures "filter" in b ==> b["filter"] == EqualFilter(filterField.value, filterValue)
    ensures b.Keys <= {"maxResults", "filter"} && "maxResults" in b && b["maxResults"] == Int(maxResults)
  {
    var b := map["maxResults" := Int(maxResults)];
    if IsSet(filterField) && filterValue != Null then b["filter" := EqualFilter(filterField.value, filterValue)] else b
  }

  /**
   * The `operatorId` query parameter of the update and add calls: the
   * explicit operator when truthy, else the configured default when set,
   * else the client's own operator (which is that same default).
   */
  function OperatorParam(explicit: Value, configured: Option<string>, own: Option<string>): Value {
    var chosen := if Truthy(explicit) then explicit else OptStr(configured);
    if Truthy(chosen) then chosen else OptStr(own)
  }

  /** With the client's own operator equal to the configured default, the parameter is `explicit or default`. */
  lemma OperatorParamFallsBack(explicit: Value, configured: Option<string>)
    ensures Truthy(explicit) ==> OperatorParam(explicit, configured, configured) == explicit
    ensures !Truthy(explicit) ==> OperatorParam(explicit, configured, configured) == OptStr(configured)
  {
  }

  /** The record written by the update planner. */
  function UpdateRecord(id: Value, fields: map<string, Value>): Value {
    Dict(map["id" := id, "fields" := Dict(fields)])
  }

  // ---------------------------------------------------------------------
  // Response envelopes
  // ---------------------------------------------------------------------

  /**
   * The token reply: a present `accessToken` is the token; otherwise an
   * `errcode` other than 0 is an explicit failure, and an `errcode` of 0
   * without a token fails on the missing key.
   */
  function TokenReply(resp: Response): (r: Result<Value>)
    ensures r.Ok? <==> resp.Reply? && "accessToken" in resp.fields
    ensures r.Ok? ==> r.value == resp.fields["accessToken"]
    ensures r == Err(ServiceError) <==> resp.Reply? && "accessToken" !in resp.fields && !IsZero(Get(resp.fields, "errcode"))
  {
    match resp
    case Failed => Err(TransportError)
    case Reply(m) =>
      if "accessToken" in m then Ok(m["accessToken"])
      else if !IsZero(Get(m, "errcode")) then Err(ServiceError)
      else Err(KeyError)
  }

  /**
   * The list reply must carry a non-null `records`, and one that has a
   * length: the success log line takes `len(records)`, which raises
   * TypeError for an int or a bool.  That value is the result.
   */
  function RecordsOf(resp: Response): (r: Result<Value>)
    ensures r.Ok? <==> resp.Reply? && Get(resp.fields, "records") != Null
                       && !Get(resp.fields, "records").Int? && !Get(resp.fields, "records").Bool?
    ensures r.Ok? ==> r.value == resp.fields["records"]
    ensures resp.Reply? && (Get(resp.fields, "records").Int? || Get(resp.fields, "records").Bool?) ==> r == Err(TypeError)
  {
    match resp
    case Failed => Err(TransportError)
    case Reply(m) =>
      var records := Get(m, "records");
      if records == Null then Err(ServiceError)
      else if records.Int? || records.Bool? then Err(TypeError)
      else Ok(m["records"])
  }

  /**
   * `[item.get("id") for item in v]`: a list of objects gives their ids in
   * order; any other item, and any other iterable that is not empty, fails
   * on `.get`; None and scalars cannot be iterated.
   */
  function IdsOf(v: Value): (r: Result<seq<Value>>)
    ensures v.List? && (forall i :: 0 <= i < |v.items| ==> v.items[i].Dict?) ==>
              r.Ok? && |r.value| == |v.items| && forall i :: 0 <= i < |v.items| ==> r.value[i] == Get(v.items[i].fields, "id")
    ensures v.List? && (exists i :: 0 <= i < |v.items| && !v.items[i].Dict?) ==> r == Err(AttributeError)
    ensures !v.List? ==> r == ItemsForGet(v)
  {
    match ItemsForGet(v)
    case Err(e) => Err(e)
    case Ok(xs) => ItemIds(xs)
  }

  function ItemIds(xs: seq<Value>): (r: Result<seq<Value>>)
    ensures (forall i :: 0 <= i < |xs| ==> xs[i].Dict?) ==>
              r.Ok? && |r.value| == |xs| && forall i :: 0 <= i < |xs| ==> r.value[i] == Get(xs[i].fields, "id")
    ensures (exists i :: 0 <= i < |xs| && !xs[i].Dict?) ==> r == Err(AttributeError)
  {
    if xs == [] then Ok([])
    else if !xs[0].Dict? then Err(AttributeError)
    else
      match ItemIds(xs[1..])
      case Err(e) => Err(e)
      case Ok(ids) =>
        assert forall i :: 1 <= i < |xs| ==> xs[i] == xs[1..][i - 1];
        Ok([Get(xs[0].fields, "id")] + ids)
  }

  /**
   * Whether `[item.get("id") for item in v]` raises, and with which
   * exception: it raises when `v` cannot be iterated, or when one of its
   * items is not an object.
   */
  function IdsError(v: Value): Option<Error> {
    match ItemsForGet(v)
    case Err(e) => Some(e)
    case Ok(xs) => if forall i :: 0 <= i < |xs| ==> xs[i].Dict? then None else Some(AttributeError)
  }

  /** The comprehension raises exactly what `IdsError` says it raises. */
  lemma IdsErrorOf(v: Value)
    ensures IdsError(v).None? <==> IdsOf(v).Ok?
    ensures IdsError(v).Some? ==> IdsOf(v) == Err(IdsError(v).value)
  {
    match ItemsForGet(v)
    case Err(e) =>
    case Ok(xs) =>
      if !(forall i :: 0 <= i < |xs| ==> xs[i].Dict?) {
        var i :| 0 <= i < |xs| && !xs[i].Dict?;
        assert IdsOf(v) == ItemIds(xs);
      }
  }

  /**
   * The update reply succeeds exactly when its `value` is not null and the
   * ids of its items can be listed; it fails with the comprehension's
   * exception otherwise.
   */
  function UpdateReply(resp: Response): (r: Result<bool>)
    ensures r == Ok(false) <==> resp.Reply? && Get(resp.fields, "value") == Null
    ensures r == Ok(true) <==> resp.Reply? && Get(resp.fields, "value") != Null && IdsError(resp.fields["value"]).None?
  {
    match resp
    case Failed => Err(TransportError)
    case Reply(m) =>
      if Get(m, "value") == Null then Ok(false)
      else match IdsError(m["value"])
        case Some(e) => Err(e)
        case None => Ok(true)
  }

  /** As the comprehension itself: True exactly when the reply's `value` is non-null and its items have ids. */
  lemma UpdateReplyIds(resp: Response)
    ensures UpdateReply(resp) == Ok(true) <==> resp.Reply? && Get(resp.fields, "value") != Null && IdsOf(resp.fields["value"]).Ok?
    ensures resp.Reply? && Get(resp.fields, "value") != Null && IdsOf(resp.fields["value"]).Err? ==>
              UpdateReply(resp) == Err(IdsOf(resp.fields["value"]).error)
  {
    if resp.Reply? && Get(resp.fields, "value") != Null {
      IdsErrorOf(resp.fields["value"]);
    }
  }

  /** The add reply: a present non-zero `errcode` fails; otherwise the ids in `value`, or none. */
  function AddReply(resp: Response): (r: Result<seq<Value>>)
    ensures r == Err(ServiceError) <==> resp.Reply? && "errcode" in resp.fields && !IsZero(resp.fields["errcode"])
    ensures resp.Reply? && !("errcode" in resp.fields && !IsZero(resp.fields["errcode"])) ==>
              r == IdsOf(GetOr(resp.fields, "value", List([])))
  {
    match resp
    case Failed => Err(TransportError)
    case Reply(m) =>
      if "errcode" in m && !IsZero(m["errcode"]) then Err(ServiceError)
      else
        var r := IdsOf(GetOr(m, "value", List([])));
        assert r != Err(ServiceError);
        r
  }

  /**
   * The approval-instance reply: with a truthy `success` its `result`
   * (none when that key is absent, as the lookup's error is swallowed);
   * otherwise the whole envelope; none when the call failed.
   */
  function InstanceReply(resp: Response): (r: Option<Value>)
    ensures resp.Failed? ==> r == None
    ensures resp.Reply? && Truthy(Get(resp.fields, "success")) ==>
              r == if "result" in resp.fields then Some(resp.fields["result"]) else None
    ensures resp.Reply? && !Truthy(Get(resp.fields, "success")) ==> r == Some(Dict(resp.fields))
  {
    match resp
    case Failed => None
    case Reply(m) =>
      if Truthy(Get(m, "success")) then (if "result" in m then Some(m["result"]) else None)
      else Some(Dict(m))
  }

  /**
   * The first record of a list result: none for an empty result; an object
   * at the head of a list; anything else at the head fails on `.get`, and a
   * non-list cannot be indexed by 0.
   */
  function FirstRecord(records: Value): (r: Result<Option<map<string, Value>>>)
    ensures r == Ok(None) <==> !Truthy(records)
    ensures records.List? && records.items != [] && records.items[0].Dict? ==> r == Ok(Some(records.items[0].fields))
    ensures r.Ok? && r.value.Some? ==> records.List? && records.items != [] && records.items[0] == Dict(r.value.value)
  {
    if !Truthy(records) then Ok(None)
    else
      match records
      case List(xs) => if xs[0].Dict? then Ok(Some(xs[0].fields)) else Err(AttributeError)
      case Str(_) => Err(AttributeError)
      case Dict(_) => Err(KeyError)
      case _ => Err(TypeError)
  }

  // ---------------------------------------------------------------------
  // Field resolution
  // ---------------------------------------------------------------------

  /**
   * The value one update writes: the timestamp, else the literal when
   * truthy, else the form field's value (or "" when the form lacks it) when
   * a form field is named, else nothing.
   */
  function Resolve(u: UpdateField, formData: map<string, Value>, now: string): Option<Value> {
    if u.timestamp then Some(Str(now))
    else if IsSet(u.value) then Some(Str(u.value.value))
    else if IsSet(u.formField) then Some(GetOr(formData, u.formField.value, Str("")))
    else None
  }

  /** The fields written by a list of updates, applied in order. */
  function ResolveAll(us: seq<UpdateField>, formData: map<string, Value>, now: string): map<string, Value>
    decreases |us|
  {
    if us == [] then map[]
    else
      var m := ResolveAll(us[..|us| - 1], formData, now);
      var u := us[|us| - 1];
      match Resolve(u, formData, now)
      case None => m
      case Some(v) => m[u.fieldName := v]
  }

  /** Update `i` writes column `k`. */
  ghost predicate WritesAt(us: seq<UpdateField>, formData: map<string, Value>, now: string, i: int, k: string) {
    0 <= i < |us| && us[i].fieldName == k && Resolve(us[i], formData, now).Some?
  }

  /** A column is written exactly when some update for it resolves. */
  lemma {:induction false} ResolveAllDomain(us: seq<UpdateField>, formData: map<string, Value>, now: string, k: string)
    ensures k in ResolveAll(us, formData, now) <==> exists i :: WritesAt(us, formData, now, i, k)
    decreases |us|
  {
    if us != [] {
      var n := |us| - 1;
      var init := us[..n];
      ResolveAllDomain(init, formData, now, k);
      assert forall i :: 0 <= i < n ==> (WritesAt(us, formData, now, i, k) <==> WritesAt(init, formData, now, i, k));
      if k in ResolveAll(us, formData, now) && !WritesAt(us, formData, now, n, k) {
        assert k in ResolveAll(init, formData, now);
        var i :| WritesAt(init, formData, now, i, k);
        assert WritesAt(us, formData, now, i, k);
      }
      if exists i :: WritesAt(us, formData, now, i, k) {
        var i :| WritesAt(us, formData, now, i, k);
        assert i == n || WritesAt(init, formData, now, i, k);
      }
    }
  }

  /** A written column gets the value of the last update for it that resolves. */
  lemma {:induction false} ResolveAllLastWins(us: seq<UpdateField>, formData: map<string, Value>, now: string, k: string, j: int)
    requires WritesAt(us, formData, now, j, k)
    requires forall i :: j < i < |us| ==> !WritesAt(us, formData, now, i, k)
    ensures k in ResolveAll(us, formData, now) && ResolveAll(us, formData, now)[k] == Resolve(us[j], formData, now).value
    decreases |us|
  {
    var n := |us| - 1;
    if j < n {
      var init := us[..n];
      assert WritesAt(init, formData, now, j, k);
      assert forall i :: j < i < n ==> (WritesAt(init, formData, now, i, k) <==> WritesAt(us, formData, now, i, k));
      ResolveAllLastWins(init, formData, now, k, j);
      assert !WritesAt(us, formData, now, n, k);
      assert ResolveAll(us, formData, now)[k] == ResolveAll(init, formData, now)[k];
    }
  }

  /** No update resolves exactly when nothing is written. */
  lemma ResolveAllEmpty(us: seq<UpdateField>, formData: map<string, Value>, now: string)
    ensures ResolveAll(us, formData, now) == map[] <==> forall i :: 0 <= i < |us| ==> Resolve(us[i], formData, now).None?
  {
    if ResolveAll(us, formData, now) != map[] {
      var k :| k in ResolveAll(us, formData, now);
      ResolveAllDomain(us, formData, now, k);
    } else {
      forall i | 0 <= i < |us| && Resolve(us[i], formData, now).Some?
        ensures false
      {
        ResolveAllDomain(us, formData, now, us[i].fieldName);
      }
    }
  }

  // ---------------------------------------------------------------------
  // The client
  // ---------------------------------------------------------------------

  class SpreadsheetClient {
    const config: SpreadsheetConfig
    const appKey: string
    const appSecret: string
    const operatorId: Option<string>
    const service: (nat, Request) -> Response
    var accessToken: Value
    var requests: seq<Request>

    constructor (config: SpreadsheetConfig, appKey: string, appSecret: string, service: (nat, Request) -> Response)
      ensures this.config == config && this.appKey == appKey && this.appSecret == appSecret && this.service == service
      ensures operatorId == config.defaultOperatorId
      ensures accessToken == Null && requests == []
    {
      this.config := config;
      this.appKey := appKey;
      this.appSecret := appSecret;
      this.service := service;
      operatorId := config.defaultOperatorId;
      accessToken := Null;
      requests := [];
    }

    // Each call's effect, as a function of the token and the log before it.

    /** `_get_access_token`: a truthy cached token is returned with no request. */
    function TokenStep(token: Value, log: seq<Request>): Step<Value> {
      if Truthy(token) then Step(Ok(token), token, log)
      else
        var req := TokenRequest(appKey, appSecret);
        var r := TokenReply(service(|log|, req));
        Step(r, if r.Ok? then r.value else token, log + [req])
    }

    /** Default sheet and base apply when the call's own are unset. */
    function TargetSheet(sheetId: Option<string>): Option<string> {
      Fallback(sheetId, config.defaultSheetId)
    }

    function TargetBase(baseId: Option<string>): Option<string> {
      Fallback(baseId, config.baseId)
    }

    function ListStep(token: Value, log: seq<Request>, sheetId: Option<string>, baseId: Option<string>,
                      filterField: Option<string>, filterValue: Value, maxResults: int): Step<Value>
    {
      var t := TokenStep(token, log);
      if t.result.Err? then Step(Err(t.result.error), t.token, t.log)
      else if !IsSet(TargetBase(baseId)) then Step(Err(ValueError), t.token, t.log)
      else
        var req := ListRecordsRequest(t.result.value, TargetBase(baseId).value, TargetSheet(sheetId),
                                      OptStr(operatorId), ListBody(filterField, filterValue, maxResults));
        Step(RecordsOf(service(|t.log|, req)), t.token, t.log + [req])
    }

    function FindStep(token: Value, log: seq<Request>, sheetId: Option<string>, baseId: Option<string>,
                      fieldName: string, searchValue: Value): Step<Option<map<string, Value>>>
    {
      var l := ListStep(token, log, sheetId, baseId, Some(fieldName), searchValue, 100);
      if l.result.Err? then Step(Err(l.result.error), l.token, l.log)
      else Step(FirstRecord(l.result.value), l.token, l.log)
    }

    function UpdateStep(token: Value, log: seq<Request>, sheetId: Option<string>, baseId: Option<string>,
                        records: seq<Value>, operator: Value): Step<bool>
    {
      var t := TokenStep(token, log);
      if t.result.Err? then Step(Err(t.result.error), t.token, t.log)
      else if !IsSet(TargetBase(baseId)) then Step(Err(ValueError), t.token, t.log)
      else
        var req := UpdateRecordsRequest(t.result.value, TargetBase(baseId).value, TargetSheet(sheetId),
                                        OperatorParam(operator, config.defaultOperatorId, operatorId), records);
        Step(UpdateReply(service(|t.log|, req)), t.token, t.log + [req])
    }

    function AddStep(token: Value, log: seq<Request>, sheetId: Option<string>, baseId: Option<string>,
                     records: seq<Value>, operator: Value): Step<seq<Value>>
    {
      var t := TokenStep(token, log);
      if t.result.Err? then Step(Err(t.result.error), t.token, t.log)
      else if !IsSet(TargetBase(baseId)) then Step(Err(ValueError), t.token, t.log)
      else
        var req := AddRecordsRequest(t.result.value, TargetBase(baseId).value, TargetSheet(sheetId),
                                     OperatorParam(operator, config.defaultOperatorId, operatorId), records);
        Step(AddReply(service(|t.log|, req)), t.token, t.log + [req])
    }

    function InstanceStep(token: Value, log: seq<Request>, processInstanceId: Value): Step<Option<Value>> {
      var t := TokenStep(token, log);
      if t.result.Err? then Step(Err(t.result.error), t.token, t.log)
      else
        var req := InstanceRequest(t.result.value, processInstanceId);
        Step(Ok(InstanceReply(service(|t.log|, req))), t.token, t.log + [req])
    }

    /** `process_update_actions`. */
    function ProcessStep(token: Value, log: seq<Request>, sheetId: Option<string>, baseId: Option<string>,
                         findBy: FindBy, updates: seq<UpdateField>, formData: map<string, Value>,
                         operator: Value, now: string): Step<bool>
    {
      var search := Get(formData, findBy.formField);
      if !Truthy(search) then Step(Ok(false), token, log)
      else
        var f := FindStep(token, log, sheetId, baseId, findBy.fieldName, search);
        if f.result.Err? then Step(Err(f.result.error), f.token, f.log)
        else if f.result.value.None? then Step(Ok(false), f.token, f.log)
        else
          var fields := ResolveAll(updates, formData, now);
          if fields == map[] then Step(Ok(false), f.token, f.log)
          else UpdateStep(f.token, f.log, sheetId, baseId, [UpdateRecord(Get(f.result.value.value, "id"), fields)], operator)
    }

    // Properties of the calls.

    /** Once a truthy token is cached it is returned with no request, and it is never replaced. */
    lemma TokenCached(token: Value, log: seq<Request>)
      requires Truthy(token)
      ensures TokenStep(token, log) == Step(Ok(token), token, log)
    {
    }

    /** A fetched token is cached; a reply without one raises and caches nothing. */
    lemma TokenFetched(token: Value, log: seq<Request>)
      requires !Truthy(token)
      ensures TokenStep(token, log).log == log + [TokenRequest(appKey, appSecret)]
      ensures var r := service(|log|, TokenRequest(appKey, appSecret));
              TokenStep(token, log).result.Ok? <==> r.Reply? && "accessToken" in r.fields
      ensures TokenStep(token, log).result.Ok? ==> TokenStep(token, log).token == TokenStep(token, log).result.value
      ensures TokenStep(token, log).result.Err? ==> TokenStep(token, log).token == token
    {
    }

    /** No base id: the list call raises `ValueError` after the token step and sends no list request. */
    lemma ListNeedsBase(token: Value, log: seq<Request>, sheetId: Option<string>, baseId: Option<string>,
                        filterField: Option<string>, filterValue: Value, maxResults: int)
      requires !IsSet(baseId) && !IsSet(config.baseId)
      ensures var l := ListStep(token, log, sheetId, baseId, filterField, filterValue, maxResults);
              l.result.Err? && l.log == TokenStep(token, log).log
    {
    }

    /**
     * A successful list call sent exactly one list request after the token
     * step, to the resolved base and sheet, with the body for its filter,
     * and returned the reply's `records`.
     */
    lemma ListSent(token: Value, log: seq<Request>, sheetId: Option<string>, baseId: Option<string>,
                   filterField: Option<string>, filterValue: Value, maxResults: int)
      ensures var l := ListStep(token, log, sheetId, baseId, filterField, filterValue, maxResults);
              var t := TokenStep(token, log);
              l.result.Ok? ==>
                IsSet(TargetBase(baseId))
                && |l.log| == |t.log| + 1 && l.log[..|t.log|] == t.log
                && var req := l.log[|t.log|];
                   req.ListRecordsRequest? && req.base == TargetBase(baseId).value && req.sheet == TargetSheet(sheetId)
                   && req.body == ListBody(filterField, filterValue, maxResults)
                   && Get(service(|t.log|, req).fields, "records") == l.result.value
                   && l.result.value != Null && !l.result.value.Int? && !l.result.value.Bool?
    {
      var l := ListStep(token, log, sheetId, baseId, filterField, filterValue, maxResults);
      var t := TokenStep(token, log);
      if l.result.Ok? {
        assert l.log[..|t.log|] == t.log;
      }
    }

    /** A falsy search value ends the planner with `False` before any request. */
    lemma ProcessNeedsSearchValue(token: Value, log: seq<Request>, sheetId: Option<string>, baseId: Option<string>,
                                  findBy: FindBy, updates: seq<UpdateField>, formData: map<string, Value>,
                                  operator: Value, now: string)
      requires !Truthy(Get(formData, findBy.formField))
      ensures ProcessStep(token, log, sheetId, baseId, findBy, updates, formData, operator, now) == Step(Ok(false), token, log)
    {
    }

    lemma TokenStepExtends(token: Value, log: seq<Request>)
      ensures Extends(log, TokenStep(token, log).log)
      ensures Truthy(token) ==> TokenStep(token, log).token == token
    {
    }

    lemma {:induction false} FindStepShape(token: Value, log: seq<Request>, sheetId: Option<string>, baseId: Option<string>,
                                           fieldName: string, searchValue: Value)
      ensures var f := FindStep(token, log, sheetId, baseId, fieldName, searchValue);
              Extends(log, f.log)
              && (forall i :: |log| <= i < |f.log| ==> !f.log[i].UpdateRecordsRequest?)
              && (Truthy(token) ==> f.token == token)
    {
      var t := TokenStep(token, log);
      TokenStepExtends(token, log);
      assert forall i :: |log| <= i < |t.log| ==> t.log[i] == TokenRequest(appKey, appSecret);
    }

    /**
     * An update call sends token requests at most, then its one update
     * request carrying the given records, whose reply is the call's result.
     */
    lemma UpdateStepShape(token: Value, log: seq<Request>, sheetId: Option<string>, baseId: Option<string>,
                          records: seq<Value>, operator: Value)
      ensures var u := UpdateStep(token, log, sheetId, baseId, records, operator);
              Extends(log, u.log)
              && (Truthy(token) ==> u.token == token)
              && (forall i :: |log| <= i < |u.log| - 1 ==> !u.log[i].UpdateRecordsRequest?)
              && ((TokenStep(token, log).result.Ok? && IsSet(TargetBase(baseId)))
                  <==> (|u.log| > |log| && u.log[|u.log| - 1].UpdateRecordsRequest?))
              && (|u.log| > |log| && u.log[|u.log| - 1].UpdateRecordsRequest? ==>
                    var req := u.log[|u.log| - 1];
                    req.records == records
                    && req.operatorId == OperatorParam(operator, config.defaultOperatorId, operatorId)
                    && u.result == UpdateReply(service(|u.log| - 1, req)))
    {
      var t := TokenStep(token, log);
      TokenStepExtends(token, log);
      assert forall i :: |log| <= i < |t.log| ==> t.log[i] == TokenRequest(appKey, appSecret);
      var u := UpdateStep(token, log, sheetId, baseId, records, operator);
      assert u.log[..|t.log|] == t.log;
    }

    lemma ExtendsTransitive(a: seq<Request>, b: seq<Request>, c: seq<Request>)
      requires Extends(a, b) && Extends(b, c)
      ensures Extends(a, c)
      ensures forall i :: |a| <= i < |c| ==> (if i < |b| then c[i] == b[i] else true)
    {
      assert c[..|a|] == c[..|b|][..|a|];
    }

    /** An update call appended to a log that extends `log` and holds no update past it. */
    lemma UpdateThenExtends(log: seq<Request>, token: Value, mid: seq<Request>, sheetId: Option<string>, baseId: Option<string>,
                            records: seq<Value>, operator: Value)
      requires Extends(log, mid) && forall i :: |log| <= i < |mid| ==> !mid[i].UpdateRecordsRequest?
      ensures var u := UpdateStep(token, mid, sheetId, baseId, records, operator);
              Extends(log, u.log)
              && (Truthy(token) ==> u.token == token)
              && (forall i :: |log| <= i < |u.log| - 1 ==> !u.log[i].UpdateRecordsRequest?)
              && ((TokenStep(token, mid).result.Ok? && IsSet(TargetBase(baseId)))
                  <==> (|u.log| > |log| && u.log[|u.log| - 1].UpdateRecordsRequest?))
              && (|u.log| > |log| && u.log[|u.log| - 1].UpdateRecordsRequest? ==>
                    var req := u.log[|u.log| - 1];
                    req.records == records
                    && req.operatorId == OperatorParam(operator, config.defaultOperatorId, operatorId)
                    && u.result == UpdateReply(service(|u.log| - 1, req)))
    {
      var u := UpdateStep(token, mid, sheetId, baseId, records, operator);
      UpdateStepShape(token, mid, sheetId, baseId, records, operator);
      ExtendsTransitive(log, mid, u.log);
      if |u.log| > |log| && u.log[|u.log| - 1].UpdateRecordsRequest? {
        assert |u.log| > |mid|;
      }
    }

    /**
     * The shape of a planner run over `log`: it extends the log, keeps a
     * usable token, and sends at most one update request, only as its last
     * request and only for the non-empty `fields`: its single record is
     * `{id, fields}` with those fields, and the run's result is that
     * request's result.  Before it, the run sends no update.
     */
    ghost predicate PlansOneUpdate(log: seq<Request>, token: Value, p: Step<bool>, fields: map<string, Value>, operator: Value) {
      Extends(log, p.log)
      && (Truthy(token) ==> p.token == token)
      && (forall i :: |log| <= i < |p.log| - 1 ==> !p.log[i].UpdateRecordsRequest?)
      && (|p.log| > |log| && p.log[|p.log| - 1].UpdateRecordsRequest? ==>
            var req := p.log[|p.log| - 1];
            fields != map[]
            && |req.records| == 1 && req.records[0].Dict?
            && req.records[0].fields.Keys == {"id", "fields"}
            && req.records[0].fields["fields"] == Dict(fields)
            && req.operatorId == OperatorParam(operator, config.defaultOperatorId, operatorId)
            && p.result == UpdateReply(service(|p.log| - 1, req)))
    }

    /** The update branch of the planner, after a search that sent no update. */
    lemma UpdateStepOnce(log: seq<Request>, token: Value, mid: seq<Request>, midToken: Value,
                         sheetId: Option<string>, baseId: Option<string>, id: Value, fields: map<string, Value>, operator: Value)
      requires Extends(log, mid) && forall i :: |log| <= i < |mid| ==> !mid[i].UpdateRecordsRequest?
      requires Truthy(token) ==> midToken == token
      requires fields != map[]
      ensures PlansOneUpdate(log, token, UpdateStep(midToken, mid, sheetId, baseId, [UpdateRecord(id, fields)], operator),
                             fields, operator)
      ensures var u := UpdateStep(midToken, mid, sheetId, baseId, [UpdateRecord(id, fields)], operator);
              ((TokenStep(midToken, mid).result.Ok? && IsSet(TargetBase(baseId)))
                <==> (|u.log| > |log| && u.log[|u.log| - 1].UpdateRecordsRequest?))
              && (|u.log| > |log| && u.log[|u.log| - 1].UpdateRecordsRequest? ==>
                    u.log[|u.log| - 1].records == [UpdateRecord(id, fields)])
    {
      var records := [UpdateRecord(id, fields)];
      UpdateThenExtends(log, midToken, mid, sheetId, baseId, records, operator);
      assert records[0].fields.Keys == {"id", "fields"} && records[0].fields["fields"] == Dict(fields);
    }

    /** Every planner run has that shape, for the fields the updates resolve to. */
    lemma ProcessUpdatesOnce(token: Value, log: seq<Request>, sheetId: Option<string>, baseId: Option<string>,
                             findBy: FindBy, updates: seq<UpdateField>, formData: map<string, Value>,
                             operator: Value, now: string)
      ensures PlansOneUpdate(log, token, ProcessStep(token, log, sheetId, baseId, findBy, updates, formData, operator, now),
                             ResolveAll(updates, formData, now), operator)
    {
      var p := ProcessStep(token, log, sheetId, baseId, findBy, updates, formData, operator, now);
      var search := Get(formData, findBy.formField);
      var fields := ResolveAll(updates, formData, now);
      if Truthy(search) {
        var f := FindStep(token, log, sheetId, baseId, findBy.fieldName, search);
        FindStepShape(token, log, sheetId, baseId, findBy.fieldName, search);
        if f.result.Ok? && f.result.value.Some? && fields != map[] {
          var id := Get(f.result.value.value, "id");
          assert p == UpdateStep(f.token, f.log, sheetId, baseId, [UpdateRecord(id, fields)], operator);
          UpdateStepOnce(log, token, f.log, f.token, sheetId, baseId, id, fields, operator);
        } else {
          assert p.log == f.log && p.token == f.token;
        }
      } else {
        assert p.log == log && p.token == token;
      }
    }

    /**
     * A record found for a truthy search value and a non-empty set of
     * fields: exactly one `update_records` call, whose single record is
     * `{id: record.get("id"), fields}`, and its result is the planner's.
     * Once its token step succeeds and its base resolves, that call sends
     * its update request right after the token step; otherwise it sends
     * none and raises.
     */
    lemma ProcessSendsUpdate(token: Value, log: seq<Request>, sheetId: Option<string>, baseId: Option<string>,
                             findBy: FindBy, updates: seq<UpdateField>, formData: map<string, Value>,
                             operator: Value, now: string, rec: map<string, Value>)
      requires Truthy(Get(formData, findBy.formField))
      requires FindStep(token, log, sheetId, baseId, findBy.fieldName, Get(formData, findBy.formField)).result == Ok(Some(rec))
      requires ResolveAll(updates, formData, now) != map[]
      ensures var f := FindStep(token, log, sheetId, baseId, findBy.fieldName, Get(formData, findBy.formField));
              var records := [UpdateRecord(Get(rec, "id"), ResolveAll(updates, formData, now))];
              ProcessStep(token, log, sheetId, baseId, findBy, updates, formData, operator, now)
                == UpdateStep(f.token, f.log, sheetId, baseId, records, operator)
      ensures var f := FindStep(token, log, sheetId, baseId, findBy.fieldName, Get(formData, findBy.formField));
              var t := TokenStep(f.token, f.log);
              var p := ProcessStep(token, log, sheetId, baseId, findBy, updates, formData, operator, now);
              t.result.Ok? && IsSet(TargetBase(baseId)) ==>
                |p.log| == |t.log| + 1 && p.log[..|t.log|] == t.log
                && p.log[|t.log|].UpdateRecordsRequest?
                && p.log[|t.log|].records == [UpdateRecord(Get(rec, "id"), ResolveAll(updates, formData, now))]
                && p.result == UpdateReply(service(|t.log|, p.log[|t.log|]))
      ensures var f := FindStep(token, log, sheetId, baseId, findBy.fieldName, Get(formData, findBy.formField));
              var t := TokenStep(f.token, f.log);
              var p := ProcessStep(token, log, sheetId, baseId, findBy, updates, formData, operator, now);
              !(t.result.Ok? && IsSet(TargetBase(baseId))) ==> p.result.Err? && p.log == t.log
    {
      var f := FindStep(token, log, sheetId, baseId, findBy.fieldName, Get(formData, findBy.formField));
      var t := TokenStep(f.token, f.log);
      var records := [UpdateRecord(Get(rec, "id"), ResolveAll(updates, formData, now))];
      var u := UpdateStep(f.token, f.log, sheetId, baseId, records, operator);
      assert ProcessStep(token, log, sheetId, baseId, findBy, updates, formData, operator, now) == u;
      if t.result.Ok? && IsSet(TargetBase(baseId)) {
        assert u.log == t.log + [u.log[|t.log|]];
        assert u.log[..|t.log|] == t.log;
      }
    }

    /** With no field to write, the planner returns `False` (or raises) and sends no update. */
    lemma ProcessWithoutFields(token: Value, log: seq<Request>, sheetId: Option<string>, baseId: Option<string>,
                               findBy: FindBy, updates: seq<UpdateField>, formData: map<string, Value>,
                               operator: Value, now: string)
      requires ResolveAll(updates, formData, now) == map[]
      ensures var p := ProcessStep(token, log, sheetId, baseId, findBy, updates, formData, operator, now);
              p.result != Ok(true) && forall i :: |log| <= i < |p.log| ==> !p.log[i].UpdateRecordsRequest?
    {
      var search := Get(formData, findBy.formField);
      if Truthy(search) {
        FindStepShape(token, log, sheetId, baseId, findBy.fieldName, search);
      }
    }

    /** No record found: the planner returns `False` with no update request. */
    lemma ProcessWithoutRecord(token: Value, log: seq<Request>, sheetId: Option<string>, baseId: Option<string>,
                               findBy: FindBy, updates: seq<UpdateField>, formData: map<string, Value>,
                               operator: Value, now: string)
      requires Truthy(Get(formData, findBy.formField))
      requires FindStep(token, log, sheetId, baseId, findBy.fieldName, Get(formData, findBy.formField)).result == Ok(None)
      ensures var p := ProcessStep(token, log, sheetId, baseId, findBy, updates, formData, operator, now);
              p.result == Ok(false) && forall i :: |log| <= i < |p.log| ==> !p.log[i].UpdateRecordsRequest?
    {
      FindStepShape(token, log, sheetId, baseId, findBy.fieldName, Get(formData, findBy.formField));
    }

    // The methods, each proved against its step function.

    method Send(req: Request) returns (resp: Response)
      modifies this
      ensures requests == old(requests) + [req] && accessToken == old(accessToken)
      ensures resp == service(|old(requests)|, req)
    {
      resp := service(|requests|, req);
      requests := requests + [req];
    }

    method GetAccessToken() returns (r: Result<Value>)
      modifies this
      ensures Step(r, accessToken, requests) == TokenStep(old(accessToken), old(requests))
    {
      if Truthy(accessToken) {
        return Ok(accessToken);
      }
      var resp := Send(TokenRequest(appKey, appSecret));
      match resp
      case Failed =>
        r := Err(TransportError);
      case Reply(m) =>
        if "accessToken" in m {
          accessToken := m["accessToken"];
          r := Ok(accessToken);
        } else if !IsZero(Get(m, "errcode")) {
          r := Err(ServiceError);
        } else {
          r := Err(KeyError);
        }
    }

    method GetProcessInstance(processInstanceId: Value) returns (r: Result<Option<Value>>)
      modifies this
      ensures Step(r, accessToken, requests) == InstanceStep(old(accessToken), old(requests), processInstanceId)
    {
      var token := GetAccessToken();
      if token.Err? {
        return Err(token.error);
      }
      var resp := Send(InstanceRequest(token.value, processInstanceId));
      r := Ok(InstanceReply(resp));
    }

    method ListRecords(sheetId: Option<string>, baseId: Option<string>, filterField: Option<string>,
                       filterValue: Value, maxResults: int) returns (r: Result<Value>)
      modifies this
      ensures Step(r, accessToken, requests)
              == ListStep(old(accessToken), old(requests), sheetId, baseId, filterField, filterValue, maxResults)
    {
      var token := GetAccessToken();
      if token.Err? {
        return Err(token.error);
      }
      var targetSheet := Fallback(sheetId, config.defaultSheetId);
      var targetBase := Fallback(baseId, config.baseId);
      if !IsSet(targetBase) {
        return Err(ValueError);
      }
      var body := map["maxResults" := Int(maxResults)];
      if IsSet(filterField) && filterValue != Null {
        body := body["filter" := EqualFilter(filterField.value, filterValue)];
      }
      var resp := Send(ListRecordsRequest(token.value, targetBase.value, targetSheet, OptStr(operatorId), body));
      r := RecordsOf(resp);
    }

    method FindRecordByValue(sheetId: Option<string>, baseId: Option<string>, fieldName: string, searchValue: Value)
      returns (r: Result<Option<map<string, Value>>>)
      modifies this
      ensures Step(r, accessToken, requests) == FindStep(old(accessToken), old(requests), sheetId, baseId, fieldName, searchValue)
    {
      var records := ListRecords(sheetId, baseId, Some(fieldName), searchValue, 100);
      if records.Err? {
        return Err(records.error);
      }
      r := FirstRecord(records.value);
    }

    method UpdateRecords(sheetId: Option<string>, baseId: Option<string>, records: seq<Value>, operator: Value)
      returns (r: Result<bool>)
      modifies this
      ensures Step(r, accessToken, requests) == UpdateStep(old(accessToken), old(requests), sheetId, baseId, records, operator)
    {
      var token := GetAccessToken();
      if token.Err? {
        return Err(token.error);
      }
      var targetSheet := Fallback(sheetId, config.defaultSheetId);
      var targetBase := Fallback(baseId, config.baseId);
      if !IsSet(targetBase) {
        return Err(ValueError);
      }
      var finalOperator := if Truthy(operator) then operator else OptStr(config.defaultOperatorId);
      var param := OptStr(operatorId);
      if Truthy(finalOperator) {
        param := finalOperator;
      }
      var resp := Send(UpdateRecordsRequest(token.value, targetBase.value, targetSheet, param, records));
      r := UpdateReply(resp);
    }

    method AddRecords(sheetId: Option<string>, baseId: Option<string>, records: seq<Value>, operator: Value)
      returns (r: Result<seq<Value>>)
      modifies this
      ensures Step(r, accessToken, requests) == AddStep(old(accessToken), old(requests), sheetId, baseId, records, operator)
    {
      var token := GetAccessToken();
      if token.Err? {
        return Err(token.error);
      }
      var targetSheet := Fallback(sheetId, config.defaultSheetId);
      var targetBase := Fallback(baseId, config.baseId);
      if !IsSet(targetBase) {
        return Err(ValueError);
      }
      var finalOperator := if Truthy(operator) then operator else OptStr(config.defaultOperatorId);
      var param := OptStr(operatorId);
      if Truthy(finalOperator) {
        param := finalOperator;
      }
      var resp := Send(AddRecordsRequest(token.value, targetBase.value, targetSheet, param, records));
      r := AddReply(resp);
    }

    /**
     * `process_update_actions`; `now` is the timestamp text the clock gives
     * for this call.
     */
    method ProcessUpdateActions(sheetId: Option<string>, baseId: Option<string>, findBy: FindBy,
                                updates: seq<UpdateField>, formData: map<string, Value>, operator: Value, now: string)
      returns (r: Result<bool>)
      modifies this
      ensures Step(r, accessToken, requests)
              == ProcessStep(old(accessToken), old(requests), sheetId, baseId, findBy, updates, formData, operator, now)
    {
      var searchValue := Get(formData, findBy.formField);
      if !Truthy(searchValue) {
        return Ok(false);
      }
      var record := FindRecordByValue(sheetId, baseId, findBy.fieldName, searchValue);
      if record.Err? {
        return Err(record.error);
      }
      if record.value.None? {
        return Ok(false);
      }
      var recordId := Get(record.value.value, "id");
      var updateFields: map<string, Value> := map[];
      var i := 0;
      while i < |updates|
        invariant 0 <= i <= |updates|
        invariant updateFields == ResolveAll(updates[..i], formData, now)
      {
        var update := updates[i];
        assert updates[..i + 1][..i] == updates[..i];
        var value: Value;
        if update.timestamp {
          value := Str(now);
        } else if IsSet(update.value) {
          value := Str(update.value.value);
        } else if IsSet(update.formField) {
          value := GetOr(formData, update.formField.value, Str(""));
        } else {
          i := i + 1;
          continue;
        }
        updateFields := updateFields[update.fieldName := value];
        i := i + 1;
      }
      assert updates[..|updates|] == updates;
      if updateFields == map[] {
        return Ok(false);
      }
      r := UpdateRecords(sheetId, baseId, [UpdateRecord(recordId, updateFields)], operator);
    }
  }
}
