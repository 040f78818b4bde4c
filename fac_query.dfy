/** The query builders of `get_general` and `get_federal_awards`
    (src/data_collection/fac_api.py): pure maps from optional filter
    arguments to the `field=operator.value` parameters the server reads. */
module FacQuery {
  import opened Text
  import opened FacProtocol

  /** The `columns` argument: not given, a list of column names, or a value
      of some other Python type (named by `typeName`). */
  datatype Columns = AllColumns | Listed(names: seq<string>) | NotAList(typeName: string)

  datatype GeneralArgs = GeneralArgs(
    columns: Columns,
    reportId: Option<string>,
    auditeeUei: Option<string>,
    auditeeEin: Option<string>,
    auditeeName: Option<string>,
    auditeeCity: Option<string>,
    auditeeState: Option<string>,
    auditYear: Option<int>)

  datatype FederalAwardsArgs = FederalAwardsArgs(
    columns: Columns,
    reportId: Option<string>,
    federalAgencyPrefix: Option<string>,
    federalAwardExtension: Option<string>,
    additionalAwardIdentification: Option<string>,
    federalProgramName: Option<string>,
    clusterName: Option<string>)

  /** `prefix + value` when the argument is given. */
  function Prefixed(prefix: string, arg: Option<string>): Option<string> {
    if arg.Some? then Some(prefix + arg.value) else None
  }

  /** The `if arg: params[key] = value` statements run in order from `p`. */
  function Filled(p: Params, entries: seq<(string, Option<string>)>): Params
    decreases |entries|
  {
    if entries == [] then p
    else
      var (key, v) := entries[0];
      Filled(if v.Some? then p[key := v.value] else p, entries[1..])
  }

  predicate DistinctKeys(entries: seq<(string, Option<string>)>) {
    forall i, j | 0 <= i < j < |entries| :: entries[i].0 != entries[j].0
  }

  /** Starting from an empty map, the statements leave exactly one entry per
      argument given, holding that argument's value. */
  lemma {:induction false} FilledLaws(p: Params, entries: seq<(string, Option<string>)>)
    requires DistinctKeys(entries)
    requires forall i | 0 <= i < |entries| :: entries[i].0 !in p
    ensures var r := Filled(p, entries);
      && (forall k | k in p :: k in r && r[k] == p[k])
      && (forall k | k in r && k !in p :: exists i | 0 <= i < |entries| :: entries[i].0 == k)
      && (forall i | 0 <= i < |entries| ::
            (entries[i].0 in r <==> entries[i].1.Some?)
            && (entries[i].1.Some? ==> r[entries[i].0] == entries[i].1.value))
    decreases |entries|
  {
    if entries != [] {
      var (key, v) := entries[0];
      var q := if v.Some? then p[key := v.value] else p;
      var rest := entries[1..];
      assert forall i | 0 <= i < |rest| :: rest[i] == entries[i + 1];
      FilledLaws(q, rest);
      var r := Filled(q, rest);
      assert r == Filled(p, entries);
      forall k | k in r && k !in p
        ensures exists i | 0 <= i < |entries| :: entries[i].0 == k
      {
        if k == key {
          assert entries[0].0 == k;
        } else {
          assert k !in q;
          var i :| 0 <= i < |rest| && rest[i].0 == k;
          assert entries[i + 1].0 == k;
        }
      }
    }
  }

  /** The `(parameter, value)` pairs of `get_general`, in the order it sets them. */
  function GeneralEntries(a: GeneralArgs): seq<(string, Option<string>)> {
    [ ("select", if a.columns.Listed? then Some(Join(a.columns.names, ",")) else None),
      ("report_id", Prefixed("eq.", a.reportId)),
      ("auditee_uei", Prefixed("eq.", a.auditeeUei)),
      ("auditee_ein", Prefixed("eq.", a.auditeeEin)),
      ("auditee_name", if a.auditeeName.Some? then Some("ilike.*" + a.auditeeName.value + "*") else None),
      ("auditee_city", Prefixed("eq.", a.auditeeCity)),
      ("auditee_state", if a.auditeeState.Some? then Some("eq." + Upper(Strip(a.auditeeState.value))) else None),
      ("audit_year", if a.auditYear.Some? then Some("eq." + IntToString(a.auditYear.value)) else None) ]
  }

  /** The parameters of `get_general`, filled one argument at a time; a
      `columns` that is not a list raises TypeError before anything else. */
  function GeneralQuery(a: GeneralArgs): (r: Result<Params>)
    ensures r.Err? <==> a.columns.NotAList?
    ensures r.Err? ==> r.failure == ColumnsNotList(a.columns.typeName)
  {
    if a.columns.NotAList? then Err(ColumnsNotList(a.columns.typeName))
    else Ok(Filled(map[], GeneralEntries(a)))
  }

  lemma GeneralEntriesDistinct(a: GeneralArgs)
    ensures DistinctKeys(GeneralEntries(a))
  {
    var es := GeneralEntries(a);
    forall i, j | 0 <= i < j < |es|
      ensures es[i].0 != es[j].0
    {
      assert |es[i].0| != |es[j].0| || es[i].0[8] != es[j].0[8];
    }
  }

  /** The parameter the `i`-th entry of `get_general` sets is present
      exactly when the entry's argument is given, and holds its value. */
  lemma GeneralEntryAt(a: GeneralArgs, i: nat)
    requires i < 8
    ensures var p := Filled(map[], GeneralEntries(a));
      var e := GeneralEntries(a)[i];
      && (e.0 in p <==> e.1.Some?)
      && (e.1.Some? ==> p[e.0] == e.1.value)
  {
    GeneralEntriesDistinct(a);
    FilledLaws(map[], GeneralEntries(a));
  }

  /** No parameter appears that `get_general` does not set. */
  lemma GeneralKeys(a: GeneralArgs)
    ensures Filled(map[], GeneralEntries(a)).Keys <=
      {"select", "report_id", "auditee_uei", "auditee_ein", "auditee_name",
       "auditee_city", "auditee_state", "audit_year"}
  {
    GeneralEntriesDistinct(a);
    FilledLaws(map[], GeneralEntries(a));
  }

  /** Each argument given to `get_general` becomes exactly one filter with
      the operator the source chooses for it, and no other key appears. */
  lemma {:induction false} GeneralQueryFilters(a: GeneralArgs)
    requires !a.columns.NotAList?
    ensures var p := GeneralQuery(a).value;
      && ("select" in p <==> a.columns.Listed?)
      && ("report_id" in p <==> a.reportId.Some?)
      && ("auditee_uei" in p <==> a.auditeeUei.Some?)
      && ("auditee_ein" in p <==> a.auditeeEin.Some?)
      && ("auditee_name" in p <==> a.auditeeName.Some?)
      && ("auditee_city" in p <==> a.auditeeCity.Some?)
      && ("auditee_state" in p <==> a.auditeeState.Some?)
      && ("audit_year" in p <==> a.auditYear.Some?)
      && p.Keys <= {"select", "report_id", "auditee_uei", "auditee_ein", "auditee_name",
                    "auditee_city", "auditee_state", "audit_year"}
      && (a.columns.Listed? ==> p["select"] == Join(a.columns.names, ","))
      && (a.reportId.Some? ==> p["report_id"] == "eq." + a.reportId.value)
      && (a.auditeeUei.Some? ==> p["auditee_uei"] == "eq." + a.auditeeUei.value)
      && (a.auditeeEin.Some? ==> p["auditee_ein"] == "eq." + a.auditeeEin.value)
      && (a.auditeeName.Some? ==> p["auditee_name"] == "ilike.*" + a.auditeeName.value + "*")
      && (a.auditeeCity.Some? ==> p["auditee_city"] == "eq." + a.auditeeCity.value)
      && (a.auditeeState.Some? ==> p["auditee_state"] == "eq." + Upper(Strip(a.auditeeState.value)))
      && (a.auditYear.Some? ==> p["audit_year"] == "eq." + IntToString(a.auditYear.value))
  {
    GeneralKeys(a);
    GeneralEntryAt(a, 0);
    GeneralEntryAt(a, 1);
    GeneralEntryAt(a, 2);
    GeneralEntryAt(a, 3);
    GeneralEntryAt(a, 4);
    GeneralEntryAt(a, 5);
    GeneralEntryAt(a, 6);
    GeneralEntryAt(a, 7);
  }

  /** The state filter is insensitive to the caller's casing and padding of
      the state code. */
  lemma StateFilterNormalised(a: GeneralArgs, state: string)
    requires !a.columns.NotAList? && a.auditeeState.Some?
    requires Upper(Strip(state)) == Upper(Strip(a.auditeeState.value))
    ensures GeneralQuery(a.(auditeeState := Some(state))) == GeneralQuery(a)
  {
  }

  /** `{'select': ','.join(columns)}` when columns are listed, else `{}`. */
  function SelectOnly(c: Columns): Params {
    if c.Listed? then map["select" := Join(c.names, ",")] else map[]
  }

  /** Independent reading of `get_federal_awards`: the filter that wins is
      the LAST one given in the order report_id, agency prefix (or, when a
      prefix is given, the award extension), additional award id, program
      name, cluster name; searched here from the end. */
  function LastFilter(a: FederalAwardsArgs): Option<(string, string)> {
    if a.clusterName.Some? then Some(("cluster_name", "ilike.*" + a.clusterName.value + "*"))
    else if a.federalProgramName.Some? then Some(("federal_program_name", "ilike.*" + a.federalProgramName.value + "*"))
    else if a.additionalAwardIdentification.Some? then
      Some(("additional_award_identification", "eq.*" + a.additionalAwardIdentification.value + "*"))
    else if a.federalAgencyPrefix.Some? then
      if a.federalAwardExtension.Some? then Some(("federal_award_extension", "eq." + a.federalAwardExtension.value))
      else Some(("federal_agency_prefix", "eq." + a.federalAgencyPrefix.value))
    else if a.reportId.Some? then Some(("report_id", "eq." + a.reportId.value))
    else None
  }

  /** The parameters of `get_federal_awards`. Each filter given REPLACES the
      whole parameter map, so only the last one given survives and the
      column projection is dropped as soon as any filter is given. */
  function FederalAwardsQuery(a: FederalAwardsArgs): (r: Result<Params>)
    ensures r.Err? <==> a.columns.NotAList?
    ensures r.Err? ==> r.failure == ColumnsNotList(a.columns.typeName)
    ensures r.Ok? ==> r.value == match LastFilter(a)
                                 case Some(kv) => map[kv.0 := kv.1]
                                 case None => SelectOnly(a.columns)
  {
    if a.columns.NotAList? then Err(ColumnsNotList(a.columns.typeName))
    else
      var p0 := SelectOnly(a.columns);
      var p1 := if a.reportId.Some? then map["report_id" := "eq." + a.reportId.value] else p0;
      var p2 :=
        if a.federalAgencyPrefix.Some? then
          var withPrefix := map["federal_agency_prefix" := "eq." + a.federalAgencyPrefix.value];
          if a.federalAwardExtension.Some? then map["federal_award_extension" := "eq." + a.federalAwardExtension.value]
          else withPrefix
        else p1;
      var p3 := if a.additionalAwardIdentification.Some? then
                  map["additional_award_identification" := "eq.*" + a.additionalAwardIdentification.value + "*"]
                else p2;
      var p4 := if a.federalProgramName.Some? then
                  map["federal_program_name" := "ilike.*" + a.federalProgramName.value + "*"]
                else p3;
      var p5 := if a.clusterName.Some? then map["cluster_name" := "ilike.*" + a.clusterName.value + "*"] else p4;
      Ok(p5)
  }

  /** Whenever any filter is given the query carries exactly one parameter
      and no `select`. */
  lemma {:induction false} FederalAwardsSingleFilter(a: FederalAwardsArgs)
    requires !a.columns.NotAList?
    requires a.reportId.Some? || a.federalAgencyPrefix.Some? || a.additionalAwardIdentification.Some?
             || a.federalProgramName.Some? || a.clusterName.Some?
    ensures var p := FederalAwardsQuery(a).value;
      |p| == 1 && "select" !in p
  {
    var kv := LastFilter(a).value;
    assert FederalAwardsQuery(a).value == map[kv.0 := kv.1];
  }

  /** The award extension is ignored unless an agency prefix is given. */
  lemma ExtensionNeedsPrefix(a: FederalAwardsArgs)
    requires a.federalAgencyPrefix.None?
    ensures FederalAwardsQuery(a) == FederalAwardsQuery(a.(federalAwardExtension := None))
  {
  }

  /** A builder's outcome put to endpoint `name` at `url`: its error is
      raised before any request; its parameters go to the request loop. */
  function Issue(name: string, url: string, q: Result<Params>, handle429: bool, env: Env): Call
  {
    match q
    case Err(f) => Call(Raised(f), env)
    case Ok(p) => RequestLoop(name, url, p, handle429, env)
  }

  /** `get_general(...)` against `env`: a malformed `columns` raises before
      any request; otherwise the request loop runs on the "general" endpoint
      with the built parameters (`_make_request('general', ...)`, whose name
      validation passes every key of the table unchanged: see
      `GetGeneralMakesRequest`). */
  function GetGeneral(a: GeneralArgs, handle429: bool, env: Env): (c: Call)
    ensures GeneralQuery(a).Err? ==> c == Call(Raised(GeneralQuery(a).failure), env)
    ensures GeneralQuery(a).Ok? ==>
      var k := |env.script| - |c.env.script|;
      && 0 <= k && c.env.script == env.script[k..]
      && c.env.sent == env.sent + Repeat(Request(GeneralUrl, GeneralQuery(a).value), k)
      && (!c.reply.Stalled? ==> k >= 1)
  {
    Issue("general", GeneralUrl, GeneralQuery(a), handle429, env)
  }

  /** `get_federal_awards(...)` against `env`, likewise on "federal_awards"
      (see `GetFederalAwardsMakesRequest`). */
  function GetFederalAwards(a: FederalAwardsArgs, handle429: bool, env: Env): (c: Call)
    ensures FederalAwardsQuery(a).Err? ==> c == Call(Raised(FederalAwardsQuery(a).failure), env)
    ensures FederalAwardsQuery(a).Ok? ==>
      var k := |env.script| - |c.env.script|;
      && 0 <= k && c.env.script == env.script[k..]
      && c.env.sent == env.sent + Repeat(Request(AwardsUrl, FederalAwardsQuery(a).value), k)
      && (!c.reply.Stalled? ==> k >= 1)
  {
    Issue("federal_awards", AwardsUrl, FederalAwardsQuery(a), handle429, env)
  }

  /** `get_general` is `_make_request('general', params, handle_429)` on the
      parameters it builds. */
  lemma GetGeneralMakesRequest(a: GeneralArgs, handle429: bool, env: Env)
    requires GeneralQuery(a).Ok?
    ensures GetGeneral(a, handle429, env) == Fetch("general", GeneralQuery(a).value, handle429, env)
  {
    FetchKnown("general", GeneralQuery(a).value, handle429, env);
    QueryUrls();
  }

  /** `get_federal_awards` is `_make_request('federal_awards', params,
      handle_429)` on the parameters it builds. */
  lemma GetFederalAwardsMakesRequest(a: FederalAwardsArgs, handle429: bool, env: Env)
    requires FederalAwardsQuery(a).Ok?
    ensures GetFederalAwards(a, handle429, env) == Fetch("federal_awards", FederalAwardsQuery(a).value, handle429, env)
  {
    FetchKnown("federal_awards", FederalAwardsQuery(a).value, handle429, env);
    QueryUrls();
  }
}
