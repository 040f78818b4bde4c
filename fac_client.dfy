/** The client object of src/data_collection/fac_api.py as the source
    writes it: `FACClient` with its request loop, its query methods and the
    two collecting loops, each method proved to do what the function of
    the same name in FacProtocol, FacQuery, FacSweep and FacBatches
    specifies. The HTTP session and the clock are one `Network` object: the
    answers still to come, the requests sent and the sleeps made. */
module FacClient {
  import opened Text
  import opened FacProtocol
  import opened FacQuery
  import opened FacSweep
  import opened FacBatches

  /** The server behind `requests.Session` and the `time.sleep` clock. */
  class Network {
    var script: seq<Outcome>
    var sent: seq<Request>
    var slept: seq<Delay>

    constructor (env: Env)
      ensures State() == env
    {
      script, sent, slept := env.script, env.sent, env.slept;
    }

    function State(): Env
      reads this
    {
      Env(script, sent, slept)
    }

    /** `session.get(url, params=params)`: sends the request and takes the
        next answer of the script; with the script used up there is no
        answer and nothing happens. */
    method Get(request: Request) returns (answer: Option<Outcome>)
      modifies this
      ensures old(script) == [] ==> answer == None && State() == old(State())
      ensures old(script) != [] ==>
        answer == Some(old(script)[0]) && State() == Env(old(script)[1..], old(sent) + [request], old(slept))
    {
      if script == [] {
        answer := None;
      } else {
        answer := Some(script[0]);
        script := script[1..];
        sent := sent + [request];
      }
    }

    /** `time.sleep(delay)`, the delay in milliseconds. */
    method Sleep(delay: Delay)
      modifies this
      ensures State() == Env(old(script), old(sent), old(slept) + [delay])
    {
      slept := slept + [delay];
    }
  }

  /** A run of `x` one longer is `x` followed by the shorter run. */
  lemma RepeatCons<T>(x: T, n: nat)
    ensures Repeat(x, n + 1) == [x] + Repeat(x, n)
  {
    assert |Repeat(x, n + 1)| == |[x] + Repeat(x, n)|;
    forall i | 0 <= i < n + 1
      ensures Repeat(x, n + 1)[i] == ([x] + Repeat(x, n))[i]
    {
    }
  }

  /** With no answer left the request loop waits for ever. */
  lemma LoopExhausted(name: string, url: string, params: Params, handle429: bool, env: Env)
    requires env.script == []
    ensures RequestLoop(name, url, params, handle429, env) == Call(Stalled, env)
  {
  }

  /** An answer the loop body finishes on ends the loop with that reply,
      one request sent and that one answer consumed. */
  lemma LoopFinishes(name: string, url: string, params: Params, handle429: bool, env: Env, o: Outcome,
                     rest: seq<Outcome>)
    requires env.script == [o] + rest && Handle(name, o, handle429).Finish?
    ensures RequestLoop(name, url, params, handle429, env)
      == Call(Handle(name, o, handle429).reply, Env(rest, env.sent + [Request(url, params)], env.slept))
  {
    assert env.script[1..] == rest;
  }

  /** An answer the loop body goes round again on leaves the loop where it
      would be from the environment after that request and its sleep. */
  lemma LoopAgain(name: string, url: string, params: Params, handle429: bool, env: Env, o: Outcome,
                  rest: seq<Outcome>)
    requires env.script == [o] + rest && Handle(name, o, handle429).Again?
    ensures var p := Handle(name, o, handle429).pause;
      RequestLoop(name, url, params, handle429, env)
      == RequestLoop(name, url, params, handle429,
                     Env(rest, env.sent + [Request(url, params)],
                         env.slept + (if p.Some? then [p.value] else [])))
  {
    var request := Request(url, params);
    var p := Handle(name, o, handle429).pause;
    var paused := if p.Some? then [p.value] else [];
    var x := Converse(name, rest, handle429);
    assert env.script[1..] == rest;
    assert Converse(name, env.script, handle429) == Exchange(x.reply, x.used + 1, paused + x.waits);
    RepeatCons(request, x.used);
    assert env.script[x.used + 1..] == rest[x.used..];
    assert env.sent + Repeat(request, x.used + 1) == (env.sent + [request]) + Repeat(request, x.used);
    assert env.slept + (paused + x.waits) == (env.slept + paused) + x.waits;
  }

  /** The loops over the first `k + 1` pairs are the loops over the first
      `k`, then pair `k`. */
  lemma SweepPrefix(h: Harvest, query: Query, pairs: seq<(int, string)>, k: nat)
    requires k < |pairs|
    ensures SweepOver(h, query, pairs[..k + 1]) == SweepStep(SweepOver(h, query, pairs[..k]), query, pairs[k])
  {
    assert pairs[..k + 1][..k] == pairs[..k];
  }

  /** A sweep that stopped at pair `k` ends as it stood there. */
  lemma SweepStopped(h: Harvest, query: Query, pairs: seq<(int, string)>, k: nat)
    requires k <= |pairs| && !SweepOver(h, query, pairs[..k]).stop.Going?
    ensures SweepOver(h, query, pairs) == SweepOver(h, query, pairs[..k])
  {
    assert pairs == pairs[..k] + pairs[k..];
    SweepSplit(h, query, pairs[..k], pairs[k..]);
    StoppedStays(SweepOver(h, query, pairs[..k]), query, pairs[k..]);
  }

  /** One pair of a running sweep, given the call the pair's iteration
      makes: the sweep takes that call's reply, adds its list and moves to
      the environment after it. */
  lemma StepTakes(h: Harvest, query: Query, pair: (int, string), c: Call)
    requires h.stop.Going? && c == Issue("general", GeneralUrl, query(pair), true, h.env)
    ensures var h' := SweepStep(h, query, pair);
      && h'.stop == Verdict(c.reply)
      && h'.records == h.records + (if c.reply.Returned? then c.reply.value else [])
      && h'.env == c.env
  {
    CallSends(query(pair), h.env);
    var v := Visit(pair.0, pair.1, c.reply, Sent(query(pair)), |c.env.sent| - |h.env.sent|);
    assert SweepStep(h, query, pair) == Absorb(h, v, c.env);
  }

  /** A reply that ends the sweep is what the sweep gives back. */
  lemma StoppedOutcome(h: Harvest, c: Call)
    requires h.stop == Verdict(c.reply) && !h.stop.Going? && h.env == c.env
    ensures FacSweep.Outcome(h) == c
  {
  }

  /** One iteration of the inner loop, on state `j` of a year's pairs
      `ys`, given the call it makes: the harvest so far takes that call's
      reply, adds its list and moves to the environment after it. */
  lemma StateIteration(h: Harvest, query: Query, ys: seq<(int, string)>, j: nat, c: Call)
    requires j < |ys| && SweepOver(h, query, ys[..j]).stop.Going?
    requires c == Issue("general", GeneralUrl, query(ys[j]), true, SweepOver(h, query, ys[..j]).env)
    ensures var hj := SweepOver(h, query, ys[..j]);
      var hj' := SweepOver(h, query, ys[..j + 1]);
      && hj'.stop == Verdict(c.reply)
      && hj'.records == hj.records + (if c.reply.Returned? then c.reply.value else [])
      && hj'.env == c.env
  {
    SweepPrefix(h, query, ys, j);
    StepTakes(SweepOver(h, query, ys[..j]), query, ys[j], c);
  }

  /** The call the loop body makes for a pair is that pair's call in the
      sweep. */
  lemma StateCall(cols: Columns, query: Query, pair: (int, string), e: Env, c: Call)
    requires query == PairQuery(cols)
    requires c == FacQuery.GetGeneral(PairArgs(cols, pair), true, e)
    ensures c == Issue("general", GeneralUrl, query(pair), true, e)
  {
    PairCallIsGetGeneral(cols, pair, e);
  }

  /** When the reply for state `j` ends the sweep, the year's loop ends
      with that very call. */
  lemma StateEndsYear(h: Harvest, query: Query, ys: seq<(int, string)>, j: nat, c: Call)
    requires j < |ys|
    requires var hj' := SweepOver(h, query, ys[..j + 1]);
      hj'.stop == Verdict(c.reply) && !hj'.stop.Going? && hj'.env == c.env
    ensures var hy := SweepOver(h, query, ys);
      !hy.stop.Going? && hy.env == c.env && FacSweep.Outcome(hy) == c
  {
    SweepStopped(h, query, ys, j + 1);
    StoppedOutcome(SweepOver(h, query, ys[..j + 1]), c);
  }

  /** The years are visited in order: `y + 1` years are `y` years, then
      one more. */
  lemma {:induction false} PairsFromSnoc(first: int, y: nat, states: seq<string>)
    ensures PairsFrom(first, y + 1, states) == PairsFrom(first, y, states) + YearPairs(first + y, states)
    decreases y
  {
    if y > 0 {
      PairsFromSnoc(first + 1, y - 1, states);
      assert PairsFrom(first, y + 1, states)
        == YearPairs(first, states) + (PairsFrom(first + 1, y - 1, states) + YearPairs(first + y, states));
    }
  }

  /** `a + b` consecutive years are `a` years, then the `b` after them. */
  lemma {:induction false} PairsFromSplit(first: int, a: nat, b: nat, states: seq<string>)
    ensures PairsFrom(first, a + b, states) == PairsFrom(first, a, states) + PairsFrom(first + a, b, states)
    decreases a
  {
    if a > 0 {
      PairsFromSplit(first + 1, a - 1, b, states);
      assert PairsFrom(first, a + b, states)
        == YearPairs(first, states) + (PairsFrom(first + 1, a - 1, states) + PairsFrom(first + a, b, states));
    }
  }

  /** The outer loop: the sweep over `next` years, one more than `y`, is
      the sweep `h` over `y` years, then over the states of the next year. */
  lemma YearStep(h0: Harvest, query: Query, first: int, y: nat, next: nat, year: int, states: seq<string>, h: Harvest)
    requires next == y + 1 && year == first + y && h == SweepOver(h0, query, PairsFrom(first, y, states))
    ensures SweepOver(h0, query, PairsFrom(first, next, states)) == SweepOver(h, query, YearPairs(year, states))
  {
    PairsFromSnoc(first, y, states);
    SweepSplit(h0, query, PairsFrom(first, y, states), YearPairs(year, states));
  }

  /** A sweep stopped within the first `y` years ends as it stood then. */
  lemma YearEndsSweep(h: Harvest, query: Query, first: int, y: nat, total: nat, states: seq<string>)
    requires y <= total && !SweepOver(h, query, PairsFrom(first, y, states)).stop.Going?
    ensures SweepOver(h, query, PairsFrom(first, total, states)) == SweepOver(h, query, PairsFrom(first, y, states))
  {
    var rest: nat := total - y;
    var later := first + y;
    YearsSplit(first, y, rest, total, later, states);
    var done, left := PairsFrom(first, y, states), PairsFrom(later, rest, states);
    SweepSplit(h, query, done, left);
    StoppedStays(SweepOver(h, query, done), query, left);
  }

  /** `PairsFromSplit` with the year counts and the first later year named. */
  lemma YearsSplit(first: int, a: nat, b: nat, n: nat, later: int, states: seq<string>)
    requires n == a + b && later == first + a
    ensures PairsFrom(first, n, states) == PairsFrom(first, a, states) + PairsFrom(later, b, states)
  {
    PairsFromSplit(first, a, b, states);
  }

  /** The sweep of `get_all_general`, year by year. */
  lemma SweepByYears(cfg: Config, cols: Columns, env: Env)
    ensures Sweep(cfg, cols, env)
      == FacSweep.Outcome(SweepOver(Start(env), PairQuery(cols), PairsFrom(cfg.minAuditYear, YearCount(cfg), cfg.auditeeStates)))
  {
  }

  /** A sweep that went through every pair returns what it gathered. */
  lemma GoingOutcome(h: Harvest)
    requires h.stop.Going?
    ensures FacSweep.Outcome(h) == Call(Returned(h.records), h.env)
  {
  }

  /** Batch `k` starts at `Offset(k, b)`, so `i // b + 1` is its number. */
  lemma {:induction false} OffsetDiv(k: nat, b: nat)
    requires b > 0
    ensures Offset(k, b) / b == k
    decreases k
  {
    if k > 0 {
      OffsetDiv(k - 1, b);
      DivStep(Offset(k - 1, b), b);
    }
  }

  /** The batches reach the end of the ids: the offset after the last one
      is past the last id, so `range(0, len(ids), b)` has one index per
      batch. */
  lemma {:induction false} BatchesCover(ids: seq<string>, b: nat)
    requires b > 0
    ensures Offset(|Batches(ids, b)|, b) >= |ids|
    decreases |ids|
  {
    if ids != [] && |ids| > b {
      BatchesCover(ids[b..], b);
      OffsetStep(|Batches(ids[b..], b)|, b);
    }
  }

  /** Batch `k` of the loop over `range(0, len(ids), b)`, at index `i`: the
      slice it takes is batch `k`, its number `i // b + 1` is `k + 1`, and
      the next index `after` is past the ids exactly when batch `k` is the
      last. */
  lemma BatchIndex(ids: seq<string>, b: nat, k: nat, i: nat, next: nat, after: int)
    requires b > 0 && k < |Batches(ids, b)| && i == Offset(k, b) && next == k + 1 && after == i + b
    ensures i < |ids| && after == Offset(next, b)
    ensures ids[i..Min(after, |ids|)] == Batches(ids, b)[k]
    ensures i / b + 1 == next
    ensures (after < |ids|) == (next < |Batches(ids, b)|)
  {
    BatchAt(ids, b, k);
    OffsetStep(k, b);
    OffsetDiv(k, b);
    BatchesCover(ids, b);
    if next < |Batches(ids, b)| {
      BatchAt(ids, b, next);
    }
  }

  /** One batch of a running loop, numbered `number`, given the reply and
      environment its retry loop ends with: the loop takes the reply, adds
      its list or its entry in `failed_batches`, and pauses unless it stops
      or this is the last batch. */
  lemma BatchTaken(c: Collection, caller: Caller, retry: Verdicts, total: int, number: int,
                   ids: seq<string>, reply: Reply<seq<Record>>, e: Env)
    requires c.stop.Going?
    requires var a := RetryFrom(caller(ids), retry, 0, FirstRetryDelay, c.env);
      reply == Settled(a.replies) && e == a.env
    ensures var c' := CollectStep(c, caller, retry, total, number, ids);
      && c'.stop == Verdict(reply)
      && c'.records == c.records + (if reply.Returned? then reply.value else [])
      && c'.failed == c.failed + (if reply.Raised? && reply.failure.ApiError? then [(number, ids)] else [])
      && c'.env == (if Verdict(reply).Going? && number < total then Env(e.script, e.sent, e.slept + [BatchPause]) else e)
  {
  }

  /** A batch loop stopped after batch `j` ends as it stood there. */
  lemma {:induction false} CollectStopped(c0: Collection, caller: Caller, retry: Verdicts, total: int,
                                          bs: seq<seq<string>>, j: nat)
    requires j <= |bs| && !CollectOver(c0, caller, retry, total, bs[..j]).stop.Going?
    ensures CollectOver(c0, caller, retry, total, bs) == CollectOver(c0, caller, retry, total, bs[..j])
    decreases |bs|
  {
    if j < |bs| {
      var init := bs[..|bs| - 1];
      assert init[..j] == bs[..j];
      CollectStopped(c0, caller, retry, total, init, j);
    } else {
      assert bs[..j] == bs;
    }
  }

  /** An attempt the retry loop retries: the batch is decided by the
      attempts after the back-off, counted from the next attempt with the
      back-off doubled. */
  lemma RetryGoesOn(call: Attempt, retry: Verdicts, attempt: nat, attempt': nat, delay: Delay, delay': Delay,
                    env: Env, c: Call, env': Env)
    requires attempt < MaxRetries - 1 && c == call(env) && RetriedOn(retry, c.reply)
    requires attempt' == attempt + 1 && delay' == delay * 2 && env' == Env(c.env.script, c.env.sent, c.env.slept + [delay])
    ensures var a := RetryFrom(call, retry, attempt, delay, env);
      var a' := RetryFrom(call, retry, attempt', delay', env');
      Settled(a.replies) == Settled(a'.replies) && a.env == a'.env
  {
    RetriedAttempt(call, retry, attempt, delay, env);
    var a' := RetryFrom(call, retry, attempt', delay', env');
    assert Settled([c.reply] + a'.replies) == Settled(a'.replies);
  }

  /** The batch loop after its first `k` batches, counted by index:
      `CollectOver` on the first `k` batches (see ProgressIsCollectOver). */
  ghost function Progress(c0: Collection, caller: Caller, retry: Verdicts, total: int, bs: seq<seq<string>>,
                          k: nat): Collection
    requires k <= |bs|
    decreases k
  {
    if k == 0 then c0 else CollectStep(Progress(c0, caller, retry, total, bs, k - 1), caller, retry, total, k, bs[k - 1])
  }

  lemma {:induction false} ProgressIsCollectOver(c0: Collection, caller: Caller, retry: Verdicts, total: int,
                                                 bs: seq<seq<string>>, k: nat)
    requires k <= |bs|
    ensures Progress(c0, caller, retry, total, bs, k) == CollectOver(c0, caller, retry, total, bs[..k])
    decreases k
  {
    if k > 0 {
      ProgressIsCollectOver(c0, caller, retry, total, bs, k - 1);
      assert bs[..k][..k - 1] == bs[..k - 1];
    }
  }

  /** Batch `k`, numbered `next`, takes the loop from `k` batches to `next`. */
  lemma ProgressStep(c0: Collection, caller: Caller, retry: Verdicts, total: int, bs: seq<seq<string>>,
                     k: nat, next: nat, number: int, batch: seq<string>)
    requires k < |bs| && next == k + 1 && number == next && batch == bs[k]
    ensures Progress(c0, caller, retry, total, bs, next)
      == CollectStep(Progress(c0, caller, retry, total, bs, k), caller, retry, total, number, batch)
  {
  }

  /** A batch loop left in state `c` by one batch, seen from the loop's
      variables: the network is at `e`; the loop goes on exactly when `c`
      does, with `results` and `failed` as `all_results` and
      `failed_batches`; when it stops, `reply` is how it ends. */
  ghost predicate Took(c: Collection, going: bool, reply: Reply<seq<Record>>, results: seq<Record>,
                       failed: seq<(int, seq<string>)>, e: Env)
  {
    && c.env == e && going == c.stop.Going?
    && (going ==> c.records == results && c.failed == failed)
    && (!going ==> Ended(c) == Call(reply, e))
  }

  /** A batch loop stopped after `j` batches, or done with all of them,
      ends as it stands there. */
  lemma ProgressEnds(c0: Collection, caller: Caller, retry: Verdicts, total: int, bs: seq<seq<string>>, j: nat)
    requires j <= |bs| && (j == |bs| || !Progress(c0, caller, retry, total, bs, j).stop.Going?)
    ensures CollectOver(c0, caller, retry, total, bs) == Progress(c0, caller, retry, total, bs, j)
  {
    ProgressIsCollectOver(c0, caller, retry, total, bs, j);
    if j < |bs| {
      CollectStopped(c0, caller, retry, total, bs, j);
    } else {
      assert bs[..j] == bs;
    }
  }

  /** An attempt the retry loop does not retry decides the batch. */
  lemma RetryEnds(call: Attempt, retry: Verdicts, attempt: nat, delay: Delay, env: Env, c: Call)
    requires attempt < MaxRetries && c == call(env)
    requires !(attempt < MaxRetries - 1 && RetriedOn(retry, c.reply))
    ensures var a := RetryFrom(call, retry, attempt, delay, env);
      Settled(a.replies) == c.reply && a.env == c.env
  {
    SettledAttempt(call, retry, attempt, delay, env);
  }

  /** A reply that stops the batch loop is what the loop leaves behind. */
  lemma StoppedEnded(c: Collection, reply: Reply<seq<Record>>)
    requires c.stop == Verdict(reply) && !c.stop.Going?
    ensures Ended(c) == Call(reply, c.env)
  {
  }

  /** `FACClient`: the sweep bounds fixed by the constructor and the
      session it talks through. */
  class Client {
    const config: Config
    const network: Network

    /** `FACClient()` built in `currentYear`, talking through `network`. */
    constructor (currentYear: int, network: Network)
      ensures config == ClientConfig(currentYear) && this.network == network
    {
      config := ClientConfig(currentYear);
      this.network := network;
    }

    /** `_make_request(endpoint_name, params, handle_429)`: validate the
        name, then send the request until an answer ends the loop. */
    method MakeRequest(endpointName: string, params: Params, handle429: bool) returns (reply: Reply<seq<Record>>)
      modifies network
      ensures Call(reply, network.State()) == Fetch(endpointName, params, handle429, old(network.State()))
    {
      var name := ValidateString(endpointName);
      if name !in Endpoints {
        return Raised(UnknownEndpoint(name));
      }
      var url := EndpointUrl(name);
      reply := RequestUntilAnswered(name, url, params, handle429);
    }

    /** The `while True` loop of `_make_request` on endpoint `name` at
        `url`: send the request, and go round again, after
        sleeping for a usable Retry-After, on each 429 the caller asked to
        ride out. */
    method RequestUntilAnswered(name: string, url: string, params: Params, handle429: bool)
      returns (reply: Reply<seq<Record>>)
      modifies network
      ensures Call(reply, network.State()) == RequestLoop(name, url, params, handle429, old(network.State()))
    {
      ghost var goal := RequestLoop(name, url, params, handle429, network.State());
      while true
        invariant RequestLoop(name, url, params, handle429, network.State()) == goal
        decreases |network.script|
      {
        var done;
        done, reply := SendOnce(name, url, params, handle429);
        if done {
          return;
        }
      }
    }

    /** One pass of that loop's body: send the request, then either end
        the loop on the answer (`done`) or sleep for the pause the answer
        asks for and leave the loop to go round again. */
    method SendOnce(name: string, url: string, params: Params, handle429: bool)
      returns (done: bool, reply: Reply<seq<Record>>)
      modifies network
      ensures done ==> Call(reply, network.State()) == RequestLoop(name, url, params, handle429, old(network.State()))
      ensures !done ==>
        && |network.script| < old(|network.script|)
        && RequestLoop(name, url, params, handle429, network.State())
           == RequestLoop(name, url, params, handle429, old(network.State()))
    {
      ghost var env := network.State();
      var answer := network.Get(Request(url, params));
      if answer.None? {
        LoopExhausted(name, url, params, handle429, env);
        return true, Stalled;
      }
      var o := answer.value;
      var step := Handle(name, o, handle429);
      if step.Finish? {
        LoopFinishes(name, url, params, handle429, env, o, env.script[1..]);
        return true, step.reply;
      }
      if step.pause.Some? {
        network.Sleep(step.pause.value);
      }
      LoopAgain(name, url, params, handle429, env, o, env.script[1..]);
      done, reply := false, Stalled;
    }

    /** `get_general(...)`: build the parameters (a malformed `columns`
        raises before any request) and make the request on "general". */
    method GetGeneral(args: GeneralArgs, handle429: bool) returns (reply: Reply<seq<Record>>)
      modifies network
      ensures Call(reply, network.State()) == FacQuery.GetGeneral(args, handle429, old(network.State()))
    {
      var query := GeneralQuery(args);
      if query.Err? {
        return Raised(query.failure);
      }
      GetGeneralMakesRequest(args, handle429, network.State());
      reply := MakeRequest("general", query.value, handle429);
    }

    /** `get_federal_awards(...)`, likewise on "federal_awards". */
    method GetFederalAwards(args: FederalAwardsArgs, handle429: bool) returns (reply: Reply<seq<Record>>)
      modifies network
      ensures Call(reply, network.State()) == FacQuery.GetFederalAwards(args, handle429, old(network.State()))
    {
      var query := FederalAwardsQuery(args);
      if query.Err? {
        return Raised(query.failure);
      }
      GetFederalAwardsMakesRequest(args, handle429, network.State());
      reply := MakeRequest("federal_awards", query.value, handle429);
    }

    /** The inner loop of `get_all_general`: one call per state of `year`,
        from the harvest `h` the earlier years left. `going` is false when
        an exception other than APIError leaves the loops, and `reply` is
        then that exception. */
    method SweepYear(columns: Columns, year: int, states: seq<string>, results: seq<Record>, ghost h: Harvest)
      returns (going: bool, reply: Reply<seq<Record>>, found: seq<Record>)
      requires h.stop.Going? && h.records == results && h.env == network.State()
      modifies network
      ensures var hy := SweepOver(h, PairQuery(columns), YearPairs(year, states));
        && hy.env == network.State()
        && going == hy.stop.Going?
        && (going ==> hy.records == found)
        && (!going ==> FacSweep.Outcome(hy) == Call(reply, network.State()))
    {
      ghost var query := PairQuery(columns);
      ghost var ys := YearPairs(year, states);
      going, reply, found := true, Returned([]), results;
      assert ys[..0] == [];
      for j := 0 to |states|
        invariant var hj := SweepOver(h, query, ys[..j]);
          hj.stop.Going? && hj.records == found && hj.env == network.State()
      {
        ghost var before := network.State();
        reply := GetGeneral(PairArgs(columns, (year, states[j])), true);
        StateCall(columns, query, ys[j], before, Call(reply, network.State()));
        StateIteration(h, query, ys, j, Call(reply, network.State()));
        if reply.Returned? {
          found := found + reply.value;
        } else if reply.Stalled? || !reply.failure.ApiError? {
          StateEndsYear(h, query, ys, j, Call(reply, network.State()));
          going := false;
          return;
        }
      }
      assert ys[..|states|] == ys;
    }

    /** `get_all_general(columns)`: for each year ascending, from the first
        audit year to the current one, and each state in list order,
        `get_general` for that pair riding out rate limits; the lists are
        appended to the result, an APIError skips the pair, any other
        exception leaves the method. */
    method GetAllGeneral(columns: Columns) returns (reply: Reply<seq<Record>>)
      modifies network
      ensures Call(reply, network.State()) == Sweep(config, columns, old(network.State()))
    {
      ghost var env := network.State();
      ghost var query := PairQuery(columns);
      var first := config.minAuditYear;
      var lastYear := config.maxAuditYear;
      var states := config.auditeeStates;
      ghost var total := YearCount(config);
      var allResults: seq<Record> := [];
      var year := first;
      ghost var y: nat := 0;
      while year < lastYear + 1
        invariant year == first + y && y <= total
        invariant var h := SweepOver(Start(env), query, PairsFrom(first, y, states));
          h.stop.Going? && h.records == allResults && h.env == network.State()
        decreases lastYear + 1 - year
      {
        ghost var h := SweepOver(Start(env), query, PairsFrom(first, y, states));
        ghost var next := y + 1;
        var going;
        going, reply, allResults := SweepYear(columns, year, states, allResults, h);
        YearStep(Start(env), query, first, y, next, year, states, h);
        if !going {
          YearEndsSweep(Start(env), query, first, next, total, states);
          return;
        }
        year := year + 1;
        y := next;
      }
      ghost var swept := SweepOver(Start(env), query, PairsFrom(first, y, states));
      assert y == total;
      assert swept == SweepOver(Start(env), PairQuery(columns), PairsFrom(config.minAuditYear, YearCount(config), config.auditeeStates));
      SweepByYears(config, columns, env);
      GoingOutcome(swept);
      assert old(network.State()) == env;
      reply := Returned(allResults);
    }

    /** The retry loop of one batch: up to three attempts, sleeping
        5, then 10 seconds after an attempt that fails with a network
        error. The reply is the one of the last attempt; a list or an
        APIError is for the caller to add or record, any other exception
        for it to pass on. */
    method FetchBatch(batchIds: seq<string>) returns (reply: Reply<seq<Record>>)
      modifies network
      ensures var a := RetryBatch(batchIds, old(network.State()));
        reply == Settled(a.replies) && network.State() == a.env
    {
      ghost var goal := RetryBatch(batchIds, network.State());
      var retryDelay := FirstRetryDelay;
      reply := Stalled;
      var attempt := 0;
      // range(3): every attempt but the last breaks or goes round again,
      // and the last always breaks
      while true
        invariant attempt < MaxRetries
        invariant var a := RetryFrom(BatchCall(batchIds), Retryable, attempt, retryDelay, network.State());
          Settled(a.replies) == Settled(goal.replies) && a.env == goal.env
        decreases MaxRetries - attempt
      {
        ghost var before := network.State();
        reply := MakeRequest("federal_awards", BatchParams(batchIds), true);
        BatchCallIsMakeRequest(batchIds, before);
        if reply.Raised? && reply.failure.ApiError? && attempt < MaxRetries - 1
          && IsNetworkError(Message(reply.failure.reason))
        {
          ghost var answered := Call(reply, network.State());
          ghost var previous := (attempt, retryDelay);
          network.Sleep(retryDelay);
          retryDelay := retryDelay * 2;
          attempt := attempt + 1;
          RetryGoesOn(BatchCall(batchIds), Retryable, previous.0, attempt, previous.1, retryDelay,
                      before, answered, network.State());
        } else {
          RetryEnds(BatchCall(batchIds), Retryable, attempt, retryDelay, before, Call(reply, network.State()));
          break;
        }
      }
    }

    /** One iteration of the batch loop, at index `i` of batch `k` of
        `reportIds`: its number and its ids, then the batch taken. */
    method RunBatch(reportIds: seq<string>, batchSize: int, totalBatches: int, i: int,
                    allResults: seq<Record>, failedBatches: seq<(int, seq<string>)>,
                    ghost envB: Env, ghost bs: seq<seq<string>>, ghost k: nat, ghost next: nat)
      returns (going: bool, reply: Reply<seq<Record>>, results: seq<Record>, failed: seq<(int, seq<string>)>)
      requires batchSize > 0 && bs == Batches(reportIds, batchSize) && k < |bs| && next == k + 1
      requires i == Offset(k, batchSize)
      requires var c := Progress(Begin(envB), BatchCall, Retryable, totalBatches, bs, k);
        c.stop.Going? && c.records == allResults && c.failed == failedBatches && c.env == network.State()
      modifies network
      ensures Took(Progress(Begin(envB), BatchCall, Retryable, totalBatches, bs, next),
                   going, reply, results, failed, network.State())
    {
      ghost var after := i + batchSize;
      BatchIndex(reportIds, batchSize, k, i, next, after);
      var batchNum := i / batchSize + 1;
      var batchIds := reportIds[i..Min(i + batchSize, |reportIds|)];
      ProgressStep(Begin(envB), BatchCall, Retryable, totalBatches, bs, k, next, batchNum, batchIds);
      going, reply, results, failed :=
        TakeBatch(batchNum, batchIds, totalBatches, allResults, failedBatches,
                  Progress(Begin(envB), BatchCall, Retryable, totalBatches, bs, k),
                  Progress(Begin(envB), BatchCall, Retryable, totalBatches, bs, next));
    }

    /** Batch `batchNum` of `totalBatches`, its ids `batchIds`, in a running
        loop `c`: the retry loop, then its list added to `all_results` or
        its entry to `failed_batches`, then the half-second pause unless it
        is the last batch, leaving the loop as `c'`. `going` is false when
        an exception other than APIError leaves the loop, and `reply` is
        then that exception. */
    method TakeBatch(batchNum: int, batchIds: seq<string>, totalBatches: int,
                     allResults: seq<Record>, failedBatches: seq<(int, seq<string>)>, ghost c: Collection, ghost c': Collection)
      returns (going: bool, reply: Reply<seq<Record>>, results: seq<Record>, failed: seq<(int, seq<string>)>)
      requires c.stop.Going? && c.records == allResults && c.failed == failedBatches && c.env == network.State()
      requires c' == CollectStep(c, BatchCall, Retryable, totalBatches, batchNum, batchIds)
      modifies network
      ensures Took(c', going, reply, results, failed, network.State())
    {
      ghost var env := network.State();
      going, results, failed := true, allResults, failedBatches;
      reply := FetchBatch(batchIds);
      assert RetryBatch(batchIds, env) == RetryFrom(BatchCall(batchIds), Retryable, 0, FirstRetryDelay, env);
      BatchTaken(c, BatchCall, Retryable, totalBatches, batchNum, batchIds, reply, network.State());
      var batchSuccess := false;
      if reply.Returned? {
        results := results + reply.value;
        batchSuccess := true;
      } else if reply.Stalled? || !reply.failure.ApiError? {
        StoppedEnded(c', reply);
        going := false;
        return;
      }
      if !batchSuccess {
        failed := failed + [(batchNum, batchIds)];
      }
      if batchNum < totalBatches {
        network.Sleep(BatchPause);
      }
    }

    /** The batch phase of `get_all_federal_awards` on the harvested
        records: the distinct report ids, `total_batches`, then the loop
        over `range(0, len(report_ids), batch_size)`. */
    method FetchBatches(records: seq<Record>, batchSize: int) returns (reply: Reply<seq<Record>>)
      modifies network
      ensures Call(reply, network.State()) == CollectBatches(records, batchSize, old(network.State()))
    {
      var reportIds := Unique(ReportIds(records));
      if batchSize == 0 {
        reply := Raised(DivisionByZero);
        return;
      }
      var totalBatches := FloorDiv(|reportIds| + batchSize - 1, batchSize);
      if batchSize < 0 {
        // a range with a negative step from 0 to a length is empty
        reply := Returned([]);
        return;
      }
      reply := BatchLoop(reportIds, batchSize, totalBatches);
    }

    /** The loop of the batch phase over the distinct `reportIds`, `total`
        being `total_batches`: batch after batch, the retry loop, then the
        records or the entry in `failed_batches`, then the pause. */
    method BatchLoop(reportIds: seq<string>, batchSize: int, totalBatches: int) returns (reply: Reply<seq<Record>>)
      requires batchSize > 0
      modifies network
      ensures Call(reply, network.State())
        == Ended(CollectOver(Begin(old(network.State())), BatchCall, Retryable, totalBatches, Batches(reportIds, batchSize)))
    {
      var allResults: seq<Record> := [];
      var failedBatches: seq<(int, seq<string>)> := [];
      ghost var envB := network.State();
      ghost var bs := Batches(reportIds, batchSize);
      ghost var k: nat := 0;
      BatchesCover(reportIds, batchSize);
      if bs != [] {
        BatchAt(reportIds, batchSize, 0);
      }
      var i := 0;
      while i < |reportIds|
        invariant k <= |bs| && i == Offset(k, batchSize)
        invariant (i < |reportIds|) == (k < |bs|)
        invariant var c := Progress(Begin(envB), BatchCall, Retryable, totalBatches, bs, k);
          c.stop.Going? && c.records == allResults && c.failed == failedBatches && c.env == network.State()
        decreases |bs| - k
      {
        ghost var next := k + 1;
        ghost var after := i + batchSize;
        BatchIndex(reportIds, batchSize, k, i, next, after);
        var going;
        going, reply, allResults, failedBatches := RunBatch(reportIds, batchSize, totalBatches, i, allResults, failedBatches,
                                                                envB, bs, k, next);
        if !going {
          ProgressEnds(Begin(envB), BatchCall, Retryable, totalBatches, bs, next);
          return;
        }
        i := i + batchSize;
        k := next;
      }
      ProgressEnds(Begin(envB), BatchCall, Retryable, totalBatches, bs, k);
      reply := Returned(allResults);
    }

    /** `get_all_federal_awards(batch_size)`, returning the records it
        collected: the report-id harvest, whose exceptions come back as
        APIError("Failed to get general records: ..."), then the batch
        phase. */
    method GetAllFederalAwards(batchSize: int) returns (reply: Reply<seq<Record>>)
      modifies network
      ensures Call(reply, network.State()) == CollectAwards(config, batchSize, old(network.State()))
    {
      var harvest := GetAllGeneral(IdColumns());
      match harvest
      case Stalled =>
        reply := Stalled;
      case Raised(e) =>
        reply := Raised(ApiError(GeneralFailed(Describe(e))));
      case Returned(reportIdRecords) =>
        reply := FetchBatches(reportIdRecords, batchSize);
    }
  }
}
