/** The exhaustive sweep of `get_all_general`
    (src/data_collection/fac_api.py:198-224): one `get_general` call per
    (audit year, state) pair, years ascending and states in list order,
    every call riding out rate limits; a pair whose call raises APIError
    is skipped and the sweep goes on. */
module FacSweep {
  import opened Text
  import opened FacProtocol
  import opened FacQuery

  /** The client's fixed sweep bounds: the first audit year, the current
      year (read from the clock by the source, a parameter here) and the
      state list. */
  datatype Config = Config(minAuditYear: int, maxAuditYear: int, auditeeStates: seq<string>)

  const MinAuditYear := 2016

  const AllAuditeeStates: seq<string> := [
    "AK", "AL", "AR", "AS", "AZ", "CA", "CO", "CT", "DC", "DE", "FL", "FM", "GA", "GU", "HI", "IA", "ID",
    "IL", "IN", "KS", "KY", "LA", "MA", "MD", "ME", "MH", "MI", "MN", "MO", "MP", "MS", "MT", "NC", "ND",
    "NE", "NH", "NJ", "NM", "NV", "NY", "OH", "OK", "OR", "PA", "PR", "PW", "RI", "SC", "SD", "TN", "TX",
    "UT", "VA", "VI", "VT", "WA", "WI", "WV", "WY"]

  /** The client as constructed in `currentYear`. */
  function ClientConfig(currentYear: int): (cfg: Config)
    ensures |cfg.auditeeStates| == 59
    ensures cfg.maxAuditYear - cfg.minAuditYear + 1 == currentYear - 2015
  {
    Config(MinAuditYear, currentYear, AllAuditeeStates)
  }

  /** `len(range(minAuditYear, maxAuditYear + 1))`. */
  function YearCount(cfg: Config): nat {
    if cfg.maxAuditYear < cfg.minAuditYear then 0 else cfg.maxAuditYear - cfg.minAuditYear + 1
  }

  /** The pairs of one year, in state-list order. */
  function YearPairs(year: int, states: seq<string>): (ps: seq<(int, string)>)
    ensures |ps| == |states|
    ensures forall j | 0 <= j < |states| :: ps[j] == (year, states[j])
  {
    seq(|states|, j requires 0 <= j < |states| => (year, states[j]))
  }

  /** The pairs of `years` consecutive years from `first`. */
  function PairsFrom(first: int, years: nat, states: seq<string>): seq<(int, string)>
    decreases years
  {
    if years == 0 then [] else YearPairs(first, states) + PairsFrom(first + 1, years - 1, states)
  }

  /** The order in which the nested loops visit (year, state) pairs. */
  function Pairs(cfg: Config): seq<(int, string)> {
    PairsFrom(cfg.minAuditYear, YearCount(cfg), cfg.auditeeStates)
  }

  /** Position of state `j` of year offset `y` when each year holds `n` states. */
  function Slot(y: int, n: int, j: int): int {
    y * n + j
  }

  /** The pair at position `Slot(y, |states|, j)` of the sweep is year
      `first + y` with state `states[j]`: years ascending, states in list
      order inside each year, and exactly `years * |states|` pairs. */
  lemma {:induction false} PairsFromOrder(first: int, years: nat, states: seq<string>)
    ensures |PairsFrom(first, years, states)| == years * |states|
    ensures forall y, j | 0 <= y < years && 0 <= j < |states| ::
      0 <= Slot(y, |states|, j) < years * |states|
      && PairsFrom(first, years, states)[Slot(y, |states|, j)] == (first + y, states[j])
    decreases years
  {
    if years > 0 {
      var n := |states|;
      var head := YearPairs(first, states);
      var tail := PairsFrom(first + 1, years - 1, states);
      PairsFromOrder(first + 1, years - 1, states);
      assert PairsFrom(first, years, states) == head + tail;
      SlotStep(years, n, 0);
      forall y, j | 0 <= y < years && 0 <= j < n
        ensures 0 <= Slot(y, n, j) < years * n
        ensures (head + tail)[Slot(y, n, j)] == (first + y, states[j])
      {
        SlotBounds(y, n, j, years);
        if y > 0 {
          SlotStep(y, n, j);
          assert (head + tail)[Slot(y, n, j)] == tail[Slot(y - 1, n, j)];
        }
      }
    }
  }

  /** One year more moves a slot on by a whole year of states. */
  lemma SlotStep(y: int, n: int, j: int)
    ensures Slot(y, n, j) == n + Slot(y - 1, n, j)
  {
    assert y * n == n + (y - 1) * n;
  }

  lemma SlotBounds(y: nat, n: nat, j: nat, years: nat)
    requires y < years && j < n
    ensures Slot(y, n, j) < years * n
  {
    var m: nat := years - y - 1;
    assert years * n == (y + 1 + m) * n == y * n + n + m * n;
  }

  /** `get_all_general` issues one call per year and state, years
      ascending, states in list order. */
  lemma PairsCount(cfg: Config)
    ensures |Pairs(cfg)| == YearCount(cfg) * |cfg.auditeeStates|
    ensures forall y, j | 0 <= y < YearCount(cfg) && 0 <= j < |cfg.auditeeStates| ::
      0 <= Slot(y, |cfg.auditeeStates|, j) < |Pairs(cfg)|
      && Pairs(cfg)[Slot(y, |cfg.auditeeStates|, j)] == (cfg.minAuditYear + y, cfg.auditeeStates[j])
  {
    PairsFromOrder(cfg.minAuditYear, YearCount(cfg), cfg.auditeeStates);
  }

  /** The arguments of the per-pair call `get_general(columns=columns,
      audit_year=year, auditee_state=state, handle_429=True)`. */
  function PairArgs(cols: Columns, pair: (int, string)): GeneralArgs {
    GeneralArgs(cols, None, None, None, None, None, Some(pair.1), Some(pair.0))
  }

  /** What each pair's call builds: `get_general`'s parameters for that
      year and state, or the TypeError a non-list `columns` raises. */
  type Query = ((int, string)) -> Result<Params>

  function PairQuery(cols: Columns): Query {
    pair => GeneralQuery(PairArgs(cols, pair))
  }

  /** The parameters a call sends; none when its builder raises. */
  function Sent(q: Result<Params>): Params {
    if q.Ok? then q.value else map[]
  }

  /** The pair's call of the loop body is `get_general(columns=columns,
      audit_year=year, auditee_state=state, handle_429=True)`. */
  lemma PairCallIsGetGeneral(cols: Columns, pair: (int, string), env: Env)
    ensures Issue("general", GeneralUrl, PairQuery(cols)(pair), true, env) == GetGeneral(PairArgs(cols, pair), true, env)
  {
  }

  /** How the sweep stands: still going, ended by an exception other than
      APIError, or waiting on an answer the script does not hold. */
  datatype Stop = Going | Crashed(failure: Failure) | OutOfScript

  /** One pair's call: the pair, the call's reply, the parameters it sent
      (none when it raised before sending) and how many requests it sent. */
  datatype Visit = Visit(year: int, state: string, reply: Reply<seq<Record>>, params: Params, requests: nat)

  datatype Harvest = Harvest(stop: Stop, records: seq<Record>, env: Env, visits: seq<Visit>)

  /** The `try`/`except APIError` around the call: a list or an APIError
      lets the sweep go on; any other exception ends it. */
  function Verdict(r: Reply<seq<Record>>): Stop {
    match r
    case Returned(_) => Going
    case Raised(f) => if f.ApiError? then Going else Crashed(f)
    case Stalled => OutOfScript
  }

  /** A visit the sweep survives: a list, or an APIError it catches. */
  predicate Answered(v: Visit) {
    Verdict(v.reply).Going?
  }

  /** What a visit adds to the result. */
  function Returns(v: Visit): seq<Record> {
    if v.reply.Returned? then v.reply.value else []
  }

  /** How the loop body takes one visit. */
  function Absorb(h: Harvest, v: Visit, env: Env): Harvest {
    Harvest(Verdict(v.reply), h.records + Returns(v), env, h.visits + [v])
  }

  /** One iteration of the inner loop body. */
  function SweepStep(h: Harvest, query: Query, pair: (int, string)): Harvest {
    if !h.stop.Going? then h
    else
      var c := Issue("general", GeneralUrl, query(pair), true, h.env);
      CallSends(query(pair), h.env);
      Absorb(h, Visit(pair.0, pair.1, c.reply, Sent(query(pair)), |c.env.sent| - |h.env.sent|), c.env)
  }

  /** The loops run over `pairs`, last pair last. */
  function SweepOver(h: Harvest, query: Query, pairs: seq<(int, string)>): Harvest
    decreases |pairs|
  {
    if pairs == [] then h else SweepStep(SweepOver(h, query, pairs[..|pairs| - 1]), query, pairs[|pairs| - 1])
  }

  function Start(env: Env): Harvest {
    Harvest(Going, [], env, [])
  }

  /** What the function gives back once the loops have run (or have been
      left by an exception). */
  function Outcome(h: Harvest): Call {
    match h.stop
    case Going => Call(Returned(h.records), h.env)
    case Crashed(f) => Call(Raised(f), h.env)
    case OutOfScript => Call(Stalled, h.env)
  }

  /** `get_all_general(columns)` against `env`. */
  function Sweep(cfg: Config, cols: Columns, env: Env): Call {
    Outcome(SweepOver(Start(env), PairQuery(cols), Pairs(cfg)))
  }

  /** The requests a visit sent: the same "general" request, once per
      answer it consumed. */
  function Contribution(v: Visit): seq<Request> {
    Repeat(Request(GeneralUrl, v.params), v.requests)
  }

  /** The records the visits returned, concatenated in visit order. */
  function Gathered(vs: seq<Visit>): seq<Record>
    decreases |vs|
  {
    if vs == [] then [] else Gathered(vs[..|vs| - 1]) + Returns(vs[|vs| - 1])
  }

  /** The requests the visits sent, in order. */
  function Issued(vs: seq<Visit>): seq<Request>
    decreases |vs|
  {
    if vs == [] then [] else Issued(vs[..|vs| - 1]) + Contribution(vs[|vs| - 1])
  }

  /** A "general" call only adds to the requests sent: its builder's
      parameters, once per answer consumed. */
  lemma CallSends(q: Result<Params>, env: Env)
    ensures var c := Issue("general", GeneralUrl, q, true, env);
      && |c.env.sent| >= |env.sent|
      && c.env.sent == env.sent + Repeat(Request(GeneralUrl, Sent(q)), |c.env.sent| - |env.sent|)
  {
  }

  /** A "general" call whose builder succeeded and whose reply is a list or
      an APIError sent at least one request. */
  lemma CallAnsweredSends(q: Result<Params>, env: Env)
    requires q.Err? ==> !q.failure.ApiError?
    ensures var c := Issue("general", GeneralUrl, q, true, env);
      Verdict(c.reply).Going? ==> |c.env.sent| > |env.sent|
  {
    if q.Ok? {
      var c := RequestLoop("general", GeneralUrl, q.value, true, env);
      var k := |env.script| - |c.env.script|;
      if !c.reply.Stalled? {
        assert |Repeat(Request(GeneralUrl, q.value), k)| == k;
      }
    }
  }

  /** One pair of a running sweep: it records one visit carrying the
      call's reply, goes on exactly when that reply is a list or an
      APIError, adds the list to the result, and sends that visit's
      requests. */
  lemma StepLaws(h: Harvest, query: Query, pair: (int, string))
    requires h.stop.Going?
    requires query(pair).Err? ==> !query(pair).failure.ApiError?
    ensures var h' := SweepStep(h, query, pair);
      var c := Issue("general", GeneralUrl, query(pair), true, h.env);
      && Stepped(h, query, pair, h')
      && h'.visits[|h.visits|].reply == c.reply
      && h'.env == c.env
  {
    var q := query(pair);
    var c := Issue("general", GeneralUrl, q, true, h.env);
    CallSends(q, h.env);
    CallAnsweredSends(q, h.env);
    var v := Visit(pair.0, pair.1, c.reply, Sent(q), |c.env.sent| - |h.env.sent|);
    assert SweepStep(h, query, pair) == Absorb(h, v, c.env);
    assert (h.visits + [v])[|h.visits|] == v;
    assert (h.visits + [v])[..|h.visits|] == h.visits;
  }

  /** The visits follow the pairs in order, each with its own parameters. */
  predicate Visited(query: Query, pairs: seq<(int, string)>, vs: seq<Visit>) {
    && |vs| <= |pairs|
    && (forall i | 0 <= i < |vs| :: (vs[i].year, vs[i].state) == pairs[i])
    && (forall i | 0 <= i < |vs| :: vs[i].params == Sent(query(pairs[i])))
  }

  /** While going, every pair was visited and every visit answered; once
      stopped, the last visit is the one that stopped it and all before it
      were answered; an answered visit sent at least one request. */
  predicate Survived(pairs: seq<(int, string)>, h: Harvest) {
    && (h.stop.Going? ==> |h.visits| == |pairs| && forall v | v in h.visits :: Answered(v))
    && (!h.stop.Going? ==> h.visits != [] && h.stop == Verdict(h.visits[|h.visits| - 1].reply)
                           && forall i | 0 <= i < |h.visits| - 1 :: Answered(h.visits[i]))
    && (forall v | v in h.visits && Answered(v) :: v.requests >= 1)
  }

  /** The result is the concatenation of the lists in visit order, and the
      requests sent are exactly those of the visits. */
  predicate Accounted(env: Env, h: Harvest) {
    && h.records == Gathered(h.visits)
    && h.env.sent == env.sent + Issued(h.visits)
  }

  /** What a sweep over `pairs` from `env` has done when it stands at `h`. */
  predicate SweepInvariant(env: Env, query: Query, pairs: seq<(int, string)>, h: Harvest) {
    Visited(query, pairs, h.visits) && Survived(pairs, h) && Accounted(env, h)
  }

  /** What one pair does to a running sweep, apart from the call itself
      (see StepLaws). */
  predicate Stepped(h: Harvest, query: Query, pair: (int, string), h': Harvest) {
    && |h'.visits| == |h.visits| + 1 && h'.visits[..|h.visits|] == h.visits
    && var v := h'.visits[|h.visits|];
    && v.year == pair.0 && v.state == pair.1 && v.params == Sent(query(pair))
    && h'.stop == Verdict(v.reply)
    && (Answered(v) ==> v.requests >= 1)
    && h'.records == h.records + Returns(v)
    && h'.env.sent == h.env.sent + Contribution(v)
  }

  lemma SteppedKeepsInvariant(env: Env, query: Query, pairs: seq<(int, string)>, h: Harvest,
                              pair: (int, string), h': Harvest)
    requires SweepInvariant(env, query, pairs, h) && h.stop.Going?
    requires Stepped(h, query, pair, h')
    ensures SweepInvariant(env, query, pairs + [pair], h')
  {
    var v := h'.visits[|h.visits|];
    assert h'.visits == h.visits + [v];
    VisitedSnoc(query, pairs, h.visits, pair, v);
    SurvivedSnoc(pairs, h, pair, h', v);
    SteppedKeepsAccounted(env, h, h', v);
  }

  lemma VisitedSnoc(query: Query, pairs: seq<(int, string)>, vs: seq<Visit>, pair: (int, string), v: Visit)
    requires Visited(query, pairs, vs) && |vs| == |pairs|
    requires v.year == pair.0 && v.state == pair.1 && v.params == Sent(query(pair))
    ensures Visited(query, pairs + [pair], vs + [v])
  {
  }

  lemma SurvivedSnoc(pairs: seq<(int, string)>, h: Harvest, pair: (int, string), h': Harvest, v: Visit)
    requires Survived(pairs, h) && h.stop.Going?
    requires h'.visits == h.visits + [v]
    requires h'.stop == Verdict(v.reply)
    requires Answered(v) ==> v.requests >= 1
    ensures Survived(pairs + [pair], h')
  {
    assert forall i | 0 <= i < |h.visits| :: h'.visits[i] == h.visits[i];
    assert forall w | w in h'.visits :: w in h.visits || w == v;
  }

  lemma SteppedKeepsAccounted(env: Env, h: Harvest, h': Harvest, v: Visit)
    requires Accounted(env, h)
    requires h'.visits == h.visits + [v]
    requires h'.records == h.records + Returns(v)
    requires h'.env.sent == h.env.sent + Contribution(v)
    ensures Accounted(env, h')
  {
    GatheredSnoc(h.visits, v);
    IssuedSnoc(h.visits, v);
    Associative(env.sent, Issued(h.visits), Contribution(v));
  }

  lemma Associative<T>(a: seq<T>, b: seq<T>, c: seq<T>)
    ensures a + b + c == a + (b + c)
  {
  }

  lemma GatheredSnoc(vs: seq<Visit>, v: Visit)
    ensures Gathered(vs + [v]) == Gathered(vs) + Returns(v)
  {
    assert (vs + [v])[..|vs|] == vs;
  }

  lemma IssuedSnoc(vs: seq<Visit>, v: Visit)
    ensures Issued(vs + [v]) == Issued(vs) + Contribution(v)
  {
    assert (vs + [v])[..|vs|] == vs;
  }

  /** A query that never raises APIError itself: its only failure is the
      `columns` TypeError. */
  ghost predicate BuildsQuietly(query: Query) {
    forall pair: (int, string) :: query(pair).Err? ==> !query(pair).failure.ApiError?
  }

  lemma PairQueryBuildsQuietly(cols: Columns)
    ensures BuildsQuietly(PairQuery(cols))
  {
  }

  /** One more pair keeps the invariant. */
  lemma StepKeepsInvariant(env: Env, query: Query, pairs: seq<(int, string)>, h: Harvest, pair: (int, string))
    requires BuildsQuietly(query)
    requires SweepInvariant(env, query, pairs, h)
    ensures SweepInvariant(env, query, pairs + [pair], SweepStep(h, query, pair))
  {
    if h.stop.Going? {
      StepLaws(h, query, pair);
      SteppedKeepsInvariant(env, query, pairs, h, pair, SweepStep(h, query, pair));
    } else {
      assert SweepStep(h, query, pair) == h;
    }
  }

  /** The sweep laws hold after every prefix of the pairs. */
  lemma {:induction false} SweepOverLaws(env: Env, query: Query, pairs: seq<(int, string)>)
    requires BuildsQuietly(query)
    ensures SweepInvariant(env, query, pairs, SweepOver(Start(env), query, pairs))
    decreases |pairs|
  {
    if pairs != [] {
      var init := pairs[..|pairs| - 1];
      var pair := pairs[|pairs| - 1];
      SweepOverLaws(env, query, init);
      assert init + [pair] == pairs;
      StepKeepsInvariant(env, query, init, SweepOver(Start(env), query, init), pair);
    }
  }

  /** The loops over `pairs`, seen from outside: each pair is called in
      order with its own parameters, and exactly those calls' requests are
      sent. The result is returned exactly when every pair was called and
      each call returned a list or raised APIError, and it is then those
      lists concatenated in pair order; otherwise the last call made decides
      the outcome: an exception other than APIError is raised, or the script
      ran out. */
  lemma OutcomeLaws(env: Env, query: Query, pairs: seq<(int, string)>)
    requires BuildsQuietly(query)
    ensures var h := SweepOver(Start(env), query, pairs);
      var c := Outcome(h);
      && Visited(query, pairs, h.visits)
      && c.env.sent == env.sent + Issued(h.visits)
      && (c.reply.Returned? <==> |h.visits| == |pairs| && forall v | v in h.visits :: Answered(v))
      && (c.reply.Returned? ==> c.reply.value == Gathered(h.visits))
      && (!c.reply.Returned? ==> h.visits != [] && Verdict(h.visits[|h.visits| - 1].reply) == Verdict(c.reply))
      && (c.reply.Raised? ==> !c.reply.failure.ApiError?)
  {
    var h := SweepOver(Start(env), query, pairs);
    SweepOverLaws(env, query, pairs);
    if !h.stop.Going? {
      var last := h.visits[|h.visits| - 1];
      assert last in h.visits && !Answered(last);
    }
  }

  /** `get_all_general` calls `get_general` once per (year, state) pair in
      order and returns the concatenated lists exactly when every call
      returned a list or raised APIError; see OutcomeLaws. */
  lemma SweepOutcome(cfg: Config, cols: Columns, env: Env)
    ensures var h := SweepOver(Start(env), PairQuery(cols), Pairs(cfg));
      var c := Sweep(cfg, cols, env);
      && Visited(PairQuery(cols), Pairs(cfg), h.visits)
      && c.env.sent == env.sent + Issued(h.visits)
      && (c.reply.Returned? <==> |h.visits| == |Pairs(cfg)| && forall v | v in h.visits :: Answered(v))
      && (c.reply.Returned? ==> c.reply.value == Gathered(h.visits))
      && (c.reply.Raised? ==> !c.reply.failure.ApiError?)
  {
    PairQueryBuildsQuietly(cols);
    OutcomeLaws(env, PairQuery(cols), Pairs(cfg));
  }

  /** A harvest that has stopped stays stopped and changes no more. */
  lemma {:induction false} StoppedStays(h: Harvest, query: Query, pairs: seq<(int, string)>)
    requires !h.stop.Going?
    ensures SweepOver(h, query, pairs) == h
    decreases |pairs|
  {
    if pairs != [] {
      StoppedStays(h, query, pairs[..|pairs| - 1]);
    }
  }

  /** Running the loops over `xs + ys` runs them over `xs`, then over `ys`. */
  lemma {:induction false} SweepSplit(h: Harvest, query: Query, xs: seq<(int, string)>, ys: seq<(int, string)>)
    ensures SweepOver(h, query, xs + ys) == SweepOver(SweepOver(h, query, xs), query, ys)
    decreases |ys|
  {
    if ys == [] {
      assert xs + ys == xs;
    } else {
      var zs := xs + ys;
      assert zs[..|zs| - 1] == xs + ys[..|ys| - 1];
      assert zs[|zs| - 1] == ys[|ys| - 1];
      SweepSplit(h, query, xs, ys[..|ys| - 1]);
      assert SweepOver(h, query, zs) == SweepStep(SweepOver(h, query, zs[..|zs| - 1]), query, zs[|zs| - 1]);
    }
  }

  /** A `columns` that is not a list raises TypeError out of the sweep at
      the first pair, before any request. */
  lemma ColumnsNotListStopsSweep(cfg: Config, name: string, env: Env)
    requires Pairs(cfg) != []
    ensures Sweep(cfg, NotAList(name), env) == Call(Raised(ColumnsNotList(name)), env)
  {
    var pairs := Pairs(cfg);
    var query := PairQuery(NotAList(name));
    var none: seq<(int, string)> := [];
    assert pairs[..1][..0] == none;
    assert SweepOver(Start(env), query, pairs[..1]) == SweepStep(Start(env), query, pairs[0]);
    var first := SweepStep(Start(env), query, pairs[0]);
    assert query(pairs[0]) == Err(ColumnsNotList(name));
    assert first.stop == Crashed(ColumnsNotList(name)) && first.env == env;
    assert pairs == pairs[..1] + pairs[1..];
    SweepSplit(Start(env), query, pairs[..1], pairs[1..]);
    StoppedStays(first, query, pairs[1..]);
  }

  /** A running sweep whose next answer ends the pair's call takes that
      answer's reply: it sends one request, consumes that one answer, adds
      the list when there is one, and goes on unless the reply is an
      exception other than APIError. */
  lemma FirstAnswered(h: Harvest, query: Query, pair: (int, string), o: Outcome, rest: seq<Outcome>)
    requires h.stop.Going? && query(pair).Ok?
    requires h.env.script == [o] + rest && Final(o, true)
    ensures var h' := SweepStep(h, query, pair);
      var reply := Handle("general", o, true).reply;
      && h'.stop == Verdict(reply)
      && h'.records == h.records + (if reply.Returned? then reply.value else [])
      && h'.env.script == rest
      && |h'.env.sent| == |h.env.sent| + 1
  {
    var p := query(pair).value;
    LoopFirstReply("general", GeneralUrl, p, true, h.env, o, rest);
    LoopFirstEnv("general", GeneralUrl, p, true, h.env, o, rest);
    var c := Issue("general", GeneralUrl, query(pair), true, h.env);
    assert c == RequestLoop("general", GeneralUrl, p, true, h.env);
    var v := Visit(pair.0, pair.1, c.reply, Sent(query(pair)), |c.env.sent| - |h.env.sent|);
    assert SweepStep(h, query, pair) == Absorb(h, v, c.env);
  }

  /** Two pairs from `env`, the first answered with a server error and the
      second with a list: the error is skipped and the list returned. */
  lemma SkipThenList(query: Query, a: (int, string), b: (int, string), detail: string, rs: seq<Record>, env: Env)
    requires query(a).Ok? && query(b).Ok?
    requires env.script == [ErrorStatus(500, Absent, detail), Success(JsonList(rs))]
    ensures var c := Outcome(SweepOver(Start(env), query, [a, b]));
      && c.reply == Returned(rs)
      && |c.env.sent| == |env.sent| + 2
      && c.env.script == []
  {
    var pairs: seq<(int, string)> := [a, b];
    var h0 := Start(env);
    var none: seq<(int, string)> := [];
    assert pairs[..1] == [a] && pairs[..1][..0] == none;
    var h1 := SweepStep(h0, query, a);
    assert SweepOver(h0, query, pairs[..1]) == h1;
    FirstAnswered(h0, query, a, ErrorStatus(500, Absent, detail), [Success(JsonList(rs))]);
    assert Handle("general", ErrorStatus(500, Absent, detail), true).reply.Raised?;
    assert h1.stop == Going && h1.records == [];
    FirstAnswered(h1, query, b, Success(JsonList(rs)), []);
    var h2 := SweepStep(h1, query, b);
    assert SweepOver(h0, query, pairs) == h2;
    assert h2.stop == Going && h2.records == [] + rs == rs;
  }

  /** A pair whose call raises APIError contributes nothing and does not
      stop the sweep: one year and two states, the first answered with a
      server error, the second with a list. */
  lemma ErrorPairIsSkipped(year: int, first: string, second: string, detail: string, rs: seq<Record>, env: Env)
    requires env.script == [ErrorStatus(500, Absent, detail), Success(JsonList(rs))]
    ensures var c := Sweep(Config(year, year, [first, second]), AllColumns, env);
      && c.reply == Returned(rs)
      && |c.env.sent| == |env.sent| + 2
      && c.env.script == []
  {
    var cfg := Config(year, year, [first, second]);
    assert YearCount(cfg) == 1;
    assert PairsFrom(year, 1, [first, second]) == YearPairs(year, [first, second]) + PairsFrom(year + 1, 0, [first, second]);
    assert Pairs(cfg) == [(year, first), (year, second)];
    var query := PairQuery(AllColumns);
    assert query((year, first)).Ok? && query((year, second)).Ok?;
    SkipThenList(query, (year, first), (year, second), detail, rs, env);
  }
}
