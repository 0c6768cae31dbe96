/**
 * The tenant-scoped rules facade of the Observatorium metrics API
 * (vendor/github.com/observatorium/api/api/metrics/v1/rules.go).
 *
 * Every handler resolves the tenant name and the tenant ID from the
 * authenticated request, calls the rules repository with the tenant name,
 * maps the repository's error to an HTTP status, and stamps the ownership
 * label `labelKey = id` on every rule it reads or forwards.
 *
 * The repository is a set of function-valued parameters (its answer for a
 * given call); each handler also returns the trace of repository calls it
 * made. YAML encoding and decoding are abstract: the payload is the stamped
 * structure itself, and an encoding failure is an input flag.
 */
module RulesApi {
  import opened Wrappers
  import opened Http

  /** One alerting or recording rule. `labels` is None when the Go map is nil. */
  datatype Rule = Rule(
    record: string,
    alert: string,
    expr: string,
    pendingFor: int,
    labels: Option<map<string, string>>,
    annotations: map<string, string>)

  /** A named group of rules sharing one evaluation interval (nanoseconds). */
  datatype RuleGroup = RuleGroup(name: string, interval: int, rules: seq<Rule>)

  /** All rule groups of a tenant, in repository order. */
  datatype RuleGroups = RuleGroups(groups: seq<RuleGroup>)

  /** What a repository call returned: a value, the ErrRuleNotFound sentinel, or any other error. */
  datatype RepoOutcome<T> = Ok(value: T) | NotFound | Err

  /** A call made to the rules repository, with its arguments. */
  datatype RepoCall =
    | ListCall(tenant: string)
    | GetCall(tenant: string, name: string)
    | CreateCall(tenant: string, name: string, interval: int, rules: seq<Rule>)
    | UpdateCall(tenant: string, name: string, interval: int, rules: seq<Rule>)

  /** The request body of a write, as far as reading and decoding it got. */
  datatype Body = ReadFailed | Malformed | Parsed(group: RuleGroup)

  /** What a handler writes back: an error text, an encoded structure, or nothing. */
  datatype Payload =
    | NoBody
    | ErrorText(msg: string)
    | GroupsBody(groups: RuleGroups)
    | GroupBody(group: RuleGroup)

  datatype Response = Response(status: int, payload: Payload)

  /** The response `http.Error(w, msg, http.StatusInternalServerError)` produces. */
  function Failure(msg: string): Response {
    Response(StatusInternalServerError, ErrorText(msg))
  }

  // ---------------------------------------------------------------------
  // Label stamping: the specification
  // ---------------------------------------------------------------------

  /** The labels of a rule as Go reads them: a nil map reads as empty. */
  function LabelsOf(r: Rule): map<string, string> {
    if r.labels.Some? then r.labels.value else map[]
  }

  /** The rule carries the ownership label with value `id`. */
  predicate Owned(r: Rule, labelKey: string, id: string) {
    r.labels.Some? && labelKey in r.labels.value && r.labels.value[labelKey] == id
  }

  predicate AllOwned(rules: seq<Rule>, labelKey: string, id: string) {
    forall j :: 0 <= j < |rules| ==> Owned(rules[j], labelKey, id)
  }

  /**
   * One rule after stamping: a nil label map becomes a fresh map, then
   * `Labels[labelKey] = id`.
   */
  function StampRule(r: Rule, labelKey: string, id: string): Rule {
    r.(labels := Some(LabelsOf(r)[labelKey := id]))
  }

  /**
   * Stamping gives the rule the ownership label with value `id`, whatever
   * value that label had before; every other label keeps its value, a rule
   * without labels ends with exactly `{labelKey: id}`, and nothing but the
   * labels changes.
   */
  lemma StampRuleEffect(r: Rule, labelKey: string, id: string)
    ensures var s := StampRule(r, labelKey, id);
      Owned(s, labelKey, id) &&
      s.labels.value.Keys == LabelsOf(r).Keys + {labelKey} &&
      (forall k :: k in LabelsOf(r) && k != labelKey ==> s.labels.value[k] == LabelsOf(r)[k]) &&
      (r.labels.None? ==> s.labels == Some(map[labelKey := id])) &&
      s.(labels := r.labels) == r
  {
  }

  /** Every rule of a sequence stamped, in order. */
  function StampRules(rules: seq<Rule>, labelKey: string, id: string): (stamped: seq<Rule>)
    ensures |stamped| == |rules|
    ensures forall j :: 0 <= j < |rules| ==> stamped[j] == StampRule(rules[j], labelKey, id)
  {
    if rules == [] then [] else [StampRule(rules[0], labelKey, id)] + StampRules(rules[1..], labelKey, id)
  }

  function StampGroup(g: RuleGroup, labelKey: string, id: string): RuleGroup {
    g.(rules := StampRules(g.rules, labelKey, id))
  }

  /** Every rule of every group stamped; the groups keep their order. */
  function StampGroups(groups: seq<RuleGroup>, labelKey: string, id: string): (stamped: seq<RuleGroup>)
    ensures |stamped| == |groups|
    ensures forall i :: 0 <= i < |groups| ==> stamped[i] == StampGroup(groups[i], labelKey, id)
  {
    if groups == [] then [] else [StampGroup(groups[0], labelKey, id)] + StampGroups(groups[1..], labelKey, id)
  }

  /** Every stamped rule carries the ownership label with value `id`. */
  lemma StampRulesOwned(rules: seq<Rule>, labelKey: string, id: string)
    ensures AllOwned(StampRules(rules, labelKey, id), labelKey, id)
  {
    forall j | 0 <= j < |rules|
      ensures Owned(StampRules(rules, labelKey, id)[j], labelKey, id)
    {
      StampRuleEffect(rules[j], labelKey, id);
    }
  }

  /**
   * After the list handler's stamping, every rule of every group is owned by
   * `id`; the number of groups, their names, intervals and rule counts are
   * unchanged, every rule gains no label key but `labelKey`, and every other
   * label of every rule keeps its value.
   */
  lemma StampedGroupsKeepShape(groups: seq<RuleGroup>, labelKey: string, id: string)
    ensures var stamped := StampGroups(groups, labelKey, id);
      |stamped| == |groups| &&
      forall i :: 0 <= i < |groups| ==>
        stamped[i].name == groups[i].name &&
        stamped[i].interval == groups[i].interval &&
        |stamped[i].rules| == |groups[i].rules| &&
        AllOwned(stamped[i].rules, labelKey, id) &&
        forall j :: 0 <= j < |groups[i].rules| ==>
          stamped[i].rules[j].(labels := groups[i].rules[j].labels) == groups[i].rules[j] &&
          stamped[i].rules[j].labels.value.Keys == LabelsOf(groups[i].rules[j]).Keys + {labelKey} &&
          forall k :: k in LabelsOf(groups[i].rules[j]) && k != labelKey ==>
            k in stamped[i].rules[j].labels.value &&
            stamped[i].rules[j].labels.value[k] == LabelsOf(groups[i].rules[j])[k]
  {
    var stamped := StampGroups(groups, labelKey, id);
    forall i | 0 <= i < |groups|
      ensures AllOwned(stamped[i].rules, labelKey, id)
      ensures forall j :: 0 <= j < |groups[i].rules| ==>
          stamped[i].rules[j].(labels := groups[i].rules[j].labels) == groups[i].rules[j] &&
          stamped[i].rules[j].labels.value.Keys == LabelsOf(groups[i].rules[j]).Keys + {labelKey} &&
          forall k :: k in LabelsOf(groups[i].rules[j]) && k != labelKey ==>
            k in stamped[i].rules[j].labels.value &&
            stamped[i].rules[j].labels.value[k] == LabelsOf(groups[i].rules[j])[k]
    {
      assert stamped[i].rules == StampRules(groups[i].rules, labelKey, id);
      StampRulesOwned(groups[i].rules, labelKey, id);
      forall j | 0 <= j < |groups[i].rules| {
        StampRuleEffect(groups[i].rules[j], labelKey, id);
      }
    }
  }

  /**
   * Stamping overwrites whatever value the caller put under `labelKey`:
   * restamping a forged label with the tenant's own ID is the same as
   * stamping the original rules.
   */
  lemma {:induction false} RestampOverwrites(rules: seq<Rule>, labelKey: string, forged: string, id: string)
    ensures StampRules(StampRules(rules, labelKey, forged), labelKey, id) == StampRules(rules, labelKey, id)
  {
    if rules != [] {
      RestampOverwrites(rules[1..], labelKey, forged, id);
      var r := rules[0];
      assert LabelsOf(r)[labelKey := forged][labelKey := id] == LabelsOf(r)[labelKey := id];
      assert StampRules(rules, labelKey, forged)[1..] == StampRules(rules[1..], labelKey, forged);
    }
  }

  /** Stamping twice gives the same rules as stamping once. */
  lemma StampRulesIdempotent(rules: seq<Rule>, labelKey: string, id: string)
    ensures StampRules(StampRules(rules, labelKey, id), labelKey, id) == StampRules(rules, labelKey, id)
  {
    RestampOverwrites(rules, labelKey, id, id);
  }

  /** Stamping every group twice gives the same groups as stamping once. */
  lemma {:induction false} StampGroupsIdempotent(groups: seq<RuleGroup>, labelKey: string, id: string)
    ensures StampGroups(StampGroups(groups, labelKey, id), labelKey, id) == StampGroups(groups, labelKey, id)
  {
    if groups != [] {
      StampGroupsIdempotent(groups[1..], labelKey, id);
      StampRulesIdempotent(groups[0].rules, labelKey, id);
      assert StampGroups(groups, labelKey, id)[1..] == StampGroups(groups[1..], labelKey, id);
    }
  }

  /**
   * Write, then read back: when the repository stores the group the write
   * handler forwarded and returns it to a later get by the same tenant, the
   * get handler's stamping leaves it unchanged, so the caller reads the
   * bodies it wrote with the ownership label set to its own ID.
   */
  lemma WriteThenRead(written: RuleGroup, name: string, labelKey: string, id: string)
    ensures var stored := RuleGroup(name, written.interval, StampRules(written.rules, labelKey, id));
      StampGroup(stored, labelKey, id) == stored
  {
    StampRulesIdempotent(written.rules, labelKey, id);
  }

  /**
   * Tenants are isolated: what a tenant reads is restamped with its own ID,
   * so no rule it sees carries another tenant's ID under the ownership label,
   * whatever was written.
   */
  lemma ReadsNeverShowOtherTenant(rules: seq<Rule>, labelKey: string, reader: string, writer: string)
    requires reader != writer
    ensures forall j :: 0 <= j < |rules| ==>
      StampRules(rules, labelKey, reader)[j].labels.value[labelKey] != writer
  {
    StampRulesOwned(rules, labelKey, reader);
  }

  // ---------------------------------------------------------------------
  // Label stamping: the in-place loops
  // ---------------------------------------------------------------------

  /** The get and write handlers' loop over one group's rule slice. */
  method StampRulesInPlace(rules: array<Rule>, labelKey: string, id: string)
    modifies rules
    ensures rules[..] == StampRules(old(rules[..]), labelKey, id)
  {
    var i := 0;
    while i < rules.Length
      invariant 0 <= i <= rules.Length
      invariant forall k :: 0 <= k < i ==> rules[k] == StampRule(old(rules[k]), labelKey, id)
      invariant forall k :: i <= k < rules.Length ==> rules[k] == old(rules[k])
    {
      var r := rules[i];
      if r.labels.None? {
        r := r.(labels := Some(map[]));
      }
      rules[i] := r.(labels := Some(r.labels.value[labelKey := id]));
      i := i + 1;
    }
  }

  /** The list handler's inner loop: every rule of one group, stamped in turn. */
  method StampGroupRules(group: RuleGroup, labelKey: string, id: string) returns (stamped: RuleGroup)
    ensures stamped == StampGroup(group, labelKey, id)
  {
    var rules := group.rules;
    var j := 0;
    while j < |rules|
      invariant 0 <= j <= |rules| == |group.rules|
      invariant forall m :: 0 <= m < j ==> rules[m] == StampRule(group.rules[m], labelKey, id)
      invariant forall m :: j <= m < |rules| ==> rules[m] == group.rules[m]
    {
      var r := rules[j];
      if r.labels.None? {
        r := r.(labels := Some(map[]));
      }
      rules := rules[j := r.(labels := Some(r.labels.value[labelKey := id]))];
      j := j + 1;
    }
    stamped := group.(rules := rules);
  }

  /** The list handler's outer loop over the groups, each rewritten in place. */
  method StampGroupsInPlace(groups: array<RuleGroup>, labelKey: string, id: string)
    modifies groups
    ensures groups[..] == StampGroups(old(groups[..]), labelKey, id)
  {
    var i := 0;
    while i < groups.Length
      invariant 0 <= i <= groups.Length
      invariant forall k :: 0 <= k < i ==> groups[k] == StampGroup(old(groups[k]), labelKey, id)
      invariant forall k :: i <= k < groups.Length ==> groups[k] == old(groups[k])
    {
      groups[i] := StampGroupRules(groups[i], labelKey, id);
      i := i + 1;
    }
  }

  // ---------------------------------------------------------------------
  // The handlers
  // ---------------------------------------------------------------------

  /** GET /rules: every rule group of the authenticated tenant, stamped. */
  method ListRules(tenant: Option<string>, id: Option<string>, labelKey: string,
                   lister: string -> RepoOutcome<RuleGroups>, marshalOk: bool)
    returns (resp: Response, calls: seq<RepoCall>)
    ensures tenant.None? ==> resp == Failure("failed to get tenant") && calls == []
    ensures tenant.Some? && id.None? ==> resp == Failure("error finding tenant ID") && calls == []
    ensures tenant.Some? && id.Some? ==> calls == [ListCall(tenant.value)]
    ensures tenant.Some? && id.Some? && !lister(tenant.value).Ok? ==>
      resp == Failure("failed to list rules")
    ensures tenant.Some? && id.Some? && lister(tenant.value).Ok? && !marshalOk ==>
      resp == Failure("failed to marshal rules")
    ensures tenant.Some? && id.Some? && lister(tenant.value).Ok? && marshalOk ==>
      resp == Response(StatusOK, GroupsBody(RuleGroups(StampGroups(lister(tenant.value).value.groups, labelKey, id.value))))
    ensures resp.status == StatusOK ==>
      id.Some? && resp.payload.GroupsBody? &&
      forall g :: g in resp.payload.groups.groups ==> AllOwned(g.rules, labelKey, id.value)
  {
    calls := [];
    if tenant.None? {
      resp := Failure("failed to get tenant");
      return;
    }
    if id.None? {
      resp := Failure("error finding tenant ID");
      return;
    }
    var outcome := lister(tenant.value);
    calls := calls + [ListCall(tenant.value)];
    if !outcome.Ok? {
      resp := Failure("failed to list rules");
      return;
    }
    var listed := outcome.value.groups;
    var groups := new RuleGroup[|listed|](i requires 0 <= i < |listed| => listed[i]);
    assert groups[..] == listed;
    StampGroupsInPlace(groups, labelKey, id.value);
    if !marshalOk {
      resp := Failure("failed to marshal rules");
      return;
    }
    resp := Response(StatusOK, GroupsBody(RuleGroups(groups[..])));
    StampedGroupsKeepShape(listed, labelKey, id.value);
  }

  /** GET /rules/{name}: one named group of the authenticated tenant, stamped. */
  method GetRule(tenant: Option<string>, id: Option<string>, name: string, labelKey: string,
                 getter: (string, string) -> RepoOutcome<RuleGroup>, marshalOk: bool)
    returns (resp: Response, calls: seq<RepoCall>)
    ensures tenant.None? ==> resp == Failure("failed to get tenant") && calls == []
    ensures tenant.Some? && id.None? ==> resp == Failure("error finding tenant ID") && calls == []
    ensures tenant.Some? && id.Some? ==> calls == [GetCall(tenant.value, name)]
    ensures tenant.Some? && id.Some? && getter(tenant.value, name).NotFound? ==>
      resp == Response(StatusNotFound, ErrorText("rule not found"))
    ensures tenant.Some? && id.Some? && getter(tenant.value, name).Err? ==>
      resp == Failure("failed to get rules")
    ensures tenant.Some? && id.Some? && getter(tenant.value, name).Ok? && !marshalOk ==>
      resp == Failure("failed to marshal rules")
    ensures tenant.Some? && id.Some? && getter(tenant.value, name).Ok? && marshalOk ==>
      resp == Response(StatusOK, GroupBody(StampGroup(getter(tenant.value, name).value, labelKey, id.value)))
    ensures resp.status == StatusNotFound <==>
      tenant.Some? && id.Some? && getter(tenant.value, name).NotFound?
    ensures resp.status == StatusOK ==>
      id.Some? && resp.payload.GroupBody? && AllOwned(resp.payload.group.rules, labelKey, id.value)
  {
    calls := [];
    if tenant.None? {
      resp := Failure("failed to get tenant");
      return;
    }
    if id.None? {
      resp := Failure("error finding tenant ID");
      return;
    }
    var outcome := getter(tenant.value, name);
    calls := calls + [GetCall(tenant.value, name)];
    if outcome.NotFound? {
      resp := Response(StatusNotFound, ErrorText("rule not found"));
      return;
    }
    if outcome.Err? {
      resp := Failure("failed to get rules");
      return;
    }
    var group := outcome.value;
    var rules := new Rule[|group.rules|](i requires 0 <= i < |group.rules| => group.rules[i]);
    assert rules[..] == group.rules;
    StampRulesInPlace(rules, labelKey, id.value);
    if !marshalOk {
      resp := Failure("failed to marshal rules");
      return;
    }
    resp := Response(StatusOK, GroupBody(group.(rules := rules[..])));
    StampRulesOwned(group.rules, labelKey, id.value);
  }

  /**
   * POST or PUT /rules/{name}: stamp the rules of the request body with the
   * tenant's ID and forward them, with the body's interval, under the URL's
   * name and the authenticated tenant's name.
   */
  method WriteRule(tenant: Option<string>, id: Option<string>, name: string, labelKey: string,
                   httpMethod: string, body: Body, marshalOk: bool,
                   create: (string, string, int, seq<Rule>) -> RepoOutcome<()>,
                   update: (string, string, int, seq<Rule>) -> RepoOutcome<()>)
    returns (resp: Response, calls: seq<RepoCall>)
    ensures tenant.None? ==> resp == Failure("failed to get tenant") && calls == []
    ensures tenant.Some? && id.None? ==> resp == Failure("error finding tenant ID") && calls == []
    ensures tenant.Some? && id.Some? && body.ReadFailed? ==>
      resp == Failure("failed to read rules from request body") && calls == []
    ensures tenant.Some? && id.Some? && body.Malformed? ==>
      resp == Failure("failed to unmarshal YAML to rule group") && calls == []
    ensures tenant.Some? && id.Some? && body.Parsed? && !marshalOk ==>
      resp == Failure("failed to unmarshal YAML to rule group") && calls == []
    ensures tenant.Some? && id.Some? && body.Parsed? && marshalOk && httpMethod == MethodPost ==>
      var rules := StampRules(body.group.rules, labelKey, id.value);
      calls == [CreateCall(tenant.value, name, body.group.interval, rules)] &&
      resp == if create(tenant.value, name, body.group.interval, rules).Ok?
              then Response(StatusOK, NoBody) else Failure("failed to create rules")
    ensures tenant.Some? && id.Some? && body.Parsed? && marshalOk && httpMethod == MethodPut ==>
      var rules := StampRules(body.group.rules, labelKey, id.value);
      calls == [UpdateCall(tenant.value, name, body.group.interval, rules)] &&
      resp == if update(tenant.value, name, body.group.interval, rules).Ok?
              then Response(StatusOK, NoBody) else Failure("failed to update rules")
    ensures tenant.Some? && id.Some? && body.Parsed? && marshalOk &&
            httpMethod != MethodPost && httpMethod != MethodPut ==>
      calls == [] && resp == Response(StatusOK, NoBody)
    ensures forall c :: c in calls ==>
      tenant.Some? && id.Some? && (c.CreateCall? || c.UpdateCall?) &&
      c.tenant == tenant.value && c.name == name && AllOwned(c.rules, labelKey, id.value)
  {
    calls := [];
    if tenant.None? {
      resp := Failure("failed to get tenant");
      return;
    }
    if id.None? {
      resp := Failure("error finding tenant ID");
      return;
    }
    if body.ReadFailed? {
      resp := Failure("failed to read rules from request body");
      return;
    }
    if body.Malformed? {
      resp := Failure("failed to unmarshal YAML to rule group");
      return;
    }
    var group := body.group;
    var rules := new Rule[|group.rules|](i requires 0 <= i < |group.rules| => group.rules[i]);
    assert rules[..] == group.rules;
    StampRulesInPlace(rules, labelKey, id.value);
    if !marshalOk {
      resp := Failure("failed to unmarshal YAML to rule group");
      return;
    }
    var forwarded := rules[..];
    StampRulesOwned(group.rules, labelKey, id.value);
    resp := Response(StatusOK, NoBody);
    if httpMethod == MethodPost {
      calls := calls + [CreateCall(tenant.value, name, group.interval, forwarded)];
      if !create(tenant.value, name, group.interval, forwarded).Ok? {
        resp := Failure("failed to create rules");
        return;
      }
    } else if httpMethod == MethodPut {
      calls := calls + [UpdateCall(tenant.value, name, group.interval, forwarded)];
      if !update(tenant.value, name, group.interval, forwarded).Ok? {
        resp := Failure("failed to update rules");
        return;
      }
    }
  }

  /**
   * A POST and then a GET of the same name by the same tenant, against a
   * repository that keeps what the create call received and returns it to
   * that tenant and name: the write succeeds, and the read returns the
   * written rules under the URL's name with the body's interval, stamped
   * with the caller's ID exactly as they were forwarded.
   */
  method WriteThenGet(tenant: string, id: string, name: string, labelKey: string, written: RuleGroup,
                      create: (string, string, int, seq<Rule>) -> RepoOutcome<()>)
    returns (wrote: Response, read: Response)
    requires create(tenant, name, written.interval, StampRules(written.rules, labelKey, id)).Ok?
    ensures wrote == Response(StatusOK, NoBody)
    ensures read == Response(StatusOK, GroupBody(RuleGroup(name, written.interval, StampRules(written.rules, labelKey, id))))
  {
    var writeCalls;
    wrote, writeCalls := WriteRule(Some(tenant), Some(id), name, labelKey, MethodPost, Parsed(written), true, create, create);
    var stored := writeCalls[0];
    var getter := (t: string, n: string) =>
      if t == stored.tenant && n == stored.name then Ok(RuleGroup(stored.name, stored.interval, stored.rules)) else NotFound;
    var readCalls;
    read, readCalls := GetRule(Some(tenant), Some(id), name, labelKey, getter, true);
    WriteThenRead(written, name, labelKey, id);
  }
}
