/** The batch collector of `get_all_federal_awards`
    (src/data_collection/fac_api.py:272-363): harvest the report ids with
    the exhaustive sweep, drop duplicates, cut them into consecutive batches
    and fetch each batch's federal awards, retrying network failures. */
module FacBatches {
  import opened Text
  import opened FacProtocol
  import opened FacQuery
  import opened FacSweep

  // ---------------------------------------------------------------------
  // The report ids

  /** `[record['report_id'] for record in records if 'report_id' in record]`. */
  function ReportIds(records: seq<Record>): seq<string>
    decreases |records|
  {
    if records == [] then []
    else
      var last := records[|records| - 1];
      ReportIds(records[..|records| - 1]) + (if "report_id" in last then [last["report_id"]] else [])
  }

  /** The ids collected are exactly the `report_id` values of the records
      that carry one. */
  lemma {:induction false} ReportIdsExact(records: seq<Record>)
    ensures forall x :: x in ReportIds(records) <==>
      exists i | 0 <= i < |records| :: "report_id" in records[i] && records[i]["report_id"] == x
    decreases |records|
  {
    if records != [] {
      var init := records[..|records| - 1];
      var last := records[|records| - 1];
      ReportIdsExact(init);
      forall x
        ensures x in ReportIds(records) <==>
          exists i | 0 <= i < |records| :: "report_id" in records[i] && records[i]["report_id"] == x
      {
        if x in ReportIds(records) && x !in ReportIds(init) {
          assert "report_id" in records[|records| - 1] && records[|records| - 1]["report_id"] == x;
        }
        if exists i | 0 <= i < |records| :: "report_id" in records[i] && records[i]["report_id"] == x {
          var i :| 0 <= i < |records| && "report_id" in records[i] && records[i]["report_id"] == x;
          if i < |init| {
            assert init[i] == records[i];
          }
        }
      }
    }
  }

  predicate NoDuplicates(xs: seq<string>) {
    forall i, j | 0 <= i < j < |xs| :: xs[i] != xs[j]
  }

  /** `list(set(xs))`: the distinct elements of `xs`, in the order of their
      first occurrence (one of the orders a set may iterate in). */
  function Unique(xs: seq<string>): (r: seq<string>)
    ensures NoDuplicates(r)
    ensures forall x :: x in r <==> x in xs
    decreases |xs|
  {
    if xs == [] then []
    else
      var init := xs[..|xs| - 1];
      var x := xs[|xs| - 1];
      var u := Unique(init);
      assert xs == init + [x];
      if x in u then u else u + [x]
  }

  /** The deduplicated report ids: free of repeats, and holding exactly the
      `report_id` values of the harvested records that have one. */
  lemma HarvestedIds(records: seq<Record>)
    ensures NoDuplicates(Unique(ReportIds(records)))
    ensures forall x :: x in Unique(ReportIds(records)) <==>
      exists i | 0 <= i < |records| :: "report_id" in records[i] && records[i]["report_id"] == x
  {
    ReportIdsExact(records);
  }

  // ---------------------------------------------------------------------
  // The batches

  /** Python's `a // b`, which rounds toward negative infinity. */
  function FloorDiv(a: int, b: int): int
    requires b != 0
  {
    if b > 0 then a / b else (-a) / (-b)
  }

  /** `total_batches = (len(report_ids) + batch_size - 1) // batch_size`. */
  function TotalBatches(n: nat, b: int): int
    requires b != 0
  {
    FloorDiv(n + b - 1, b)
  }

  /** `[ids[i:i + b] for i in range(0, len(ids), b)]`. */
  function Batches(ids: seq<string>, b: nat): seq<seq<string>>
    requires b > 0
    decreases |ids|
  {
    if ids == [] then []
    else if |ids| <= b then [ids]
    else [ids[..b]] + Batches(ids[b..], b)
  }

  /** The concatenation of a list of batches. */
  function Flatten(bs: seq<seq<string>>): seq<string>
    decreases |bs|
  {
    if bs == [] then [] else bs[0] + Flatten(bs[1..])
  }

  function Min(a: int, b: int): int {
    if a <= b then a else b
  }

  /** Where batch `k` (counted from 0) starts: `k * b`, added up batch by
      batch. */
  function Offset(k: nat, b: nat): nat {
    if k == 0 then 0 else b + Offset(k - 1, b)
  }

  lemma MulNonNegative(a: int, b: int)
    requires a >= 0 && b >= 0
    ensures a * b >= 0
  {
  }

  lemma DivStep(x: int, b: int)
    requires x >= 0 && b > 0
    ensures (x + b) / b == x / b + 1
  {
    var q, r := x / b, x % b;
    var q2, r2 := (x + b) / b, (x + b) % b;
    assert x == q * b + r && 0 <= r < b;
    assert x + b == q2 * b + r2 && 0 <= r2 < b;
    assert (q + 1 - q2) * b == r2 - r;
    if q + 1 - q2 >= 1 {
      MulNonNegative(q - q2, b);
    } else if q + 1 - q2 <= -1 {
      MulNonNegative(q2 - q - 2, b);
    }
  }

  lemma OffsetStep(k: nat, b: nat)
    ensures Offset(k + 1, b) == b + Offset(k, b)
  {
  }

  /** `total_batches` is the number of batches the loop runs. */
  lemma {:induction false} BatchesCount(ids: seq<string>, b: nat)
    requires b > 0
    ensures |Batches(ids, b)| == TotalBatches(|ids|, b)
    decreases |ids|
  {
    var n := |ids|;
    assert TotalBatches(n, b) == (n + b - 1) / b;
    if ids == [] {
      DivSmall(b - 1, b);
    } else if n <= b {
      DivSmall(n - 1, b);
      DivStep(n - 1, b);
    } else {
      var m := n - b;
      BatchesCount(ids[b..], b);
      assert |Batches(ids, b)| == 1 + |Batches(ids[b..], b)|;
      assert TotalBatches(m, b) == (m + b - 1) / b;
      DivStep(m + b - 1, b);
      assert n + b - 1 == (m + b - 1) + b;
    }
  }

  lemma DivSmall(x: int, b: int)
    requires 0 <= x < b
    ensures x / b == 0
  {
  }

  /** The batches put back together are the ids, in order. */
  lemma {:induction false} BatchesFlatten(ids: seq<string>, b: nat)
    requires b > 0
    ensures Flatten(Batches(ids, b)) == ids
    decreases |ids|
  {
    if ids != [] && |ids| > b {
      BatchesFlatten(ids[b..], b);
      assert Batches(ids, b)[1..] == Batches(ids[b..], b);
      assert ids == ids[..b] + ids[b..];
    }
  }

  /** Batch `k` (counted from 0) is the non-empty slice
      `ids[k*b:min((k+1)*b, n)]`. */
  lemma {:induction false} BatchAt(ids: seq<string>, b: nat, k: nat)
    requires b > 0 && k < |Batches(ids, b)|
    ensures 0 <= Offset(k, b) < Min(Offset(k + 1, b), |ids|) <= |ids|
    ensures Batches(ids, b)[k] == ids[Offset(k, b)..Min(Offset(k + 1, b), |ids|)]
    decreases k
  {
    OffsetStep(k, b);
    if k == 0 {
      assert Offset(0, b) == 0;
    } else {
      var rest := ids[b..];
      assert |ids| > b;
      assert Batches(ids, b)[k] == Batches(rest, b)[k - 1];
      BatchAt(rest, b, k - 1);
      OffsetStep(k - 1, b);
      var lo, hi := Offset(k - 1, b), Min(Offset(k, b), |rest|);
      SliceOfDrop(ids, b, lo, hi);
      assert b + lo == Offset(k, b);
      assert b + hi == Min(Offset(k + 1, b), |ids|);
    }
  }

  lemma SliceOfDrop(ids: seq<string>, b: nat, i: nat, j: nat)
    requires b <= |ids| && i <= j <= |ids| - b
    ensures ids[b..][i..j] == ids[b + i..b + j]
  {
  }

  /** Every batch but the last holds exactly `b` ids; the last holds
      between 1 and `b`. */
  lemma BatchSize(ids: seq<string>, b: nat, k: nat)
    requires b > 0 && k < |Batches(ids, b)|
    ensures k < |Batches(ids, b)| - 1 ==> |Batches(ids, b)[k]| == b
    ensures k == |Batches(ids, b)| - 1 ==> 1 <= |Batches(ids, b)[k]| <= b
  {
    BatchAt(ids, b, k);
    OffsetStep(k, b);
    if k < |Batches(ids, b)| - 1 {
      BatchAt(ids, b, k + 1);
    }
  }

  // ---------------------------------------------------------------------
  // One batch, with retries

  const MaxRetries := 3
  const FirstRetryDelay: Delay := 5000
  const BatchPause: Delay := 500
  const DefaultBatchSize := 250

  /** The PostgREST filter of one batch, `report_id=in.(id1,id2,...)`. */
  function BatchParams(ids: seq<string>): Params {
    map["report_id" := "in.(" + Join(ids, ",") + ")"]
  }

  function BatchRequest(ids: seq<string>): Request {
    Request(AwardsUrl, BatchParams(ids))
  }

  /** An APIError whose text reads as a network error: the only failure
      the batch loop retries. */
  predicate Retryable(f: Failure) {
    f.ApiError? && IsNetworkError(Message(f.reason))
  }

  /** The attempts at one batch: each call's reply, the back-off sleeps
      between them, and the environment after the last. */
  datatype Retried = Retried(replies: seq<Reply<seq<Record>>>, backoffs: seq<Delay>, env: Env)

  /** The reply of the last attempt, which decides the batch. */
  function Settled(replies: seq<Reply<seq<Record>>>): Reply<seq<Record>>
    requires replies != []
  {
    replies[|replies| - 1]
  }

  /** One attempt's call: from an environment to a reply and the
      environment after it. */
  type Attempt = Env -> Call

  /** `_make_request('federal_awards', {'report_id': filter},
      handle_429=True)` for the batch `ids` (see BatchCallIsMakeRequest). */
  function BatchCall(ids: seq<string>): Attempt {
    e => RequestLoop("federal_awards", AwardsUrl, BatchParams(ids), true, e)
  }

  /** Which raised failures are retried. */
  type Verdicts = Failure -> bool

  /** The reply is a failure `retry` picks. */
  predicate RetriedOn(retry: Verdicts, r: Reply<seq<Record>>) {
    r.Raised? && retry(r.failure)
  }

  /** The retry loop from attempt `attempt` (counted from 0) with the
      back-off `delay`: make the call; on a network error before the last
      attempt, sleep `delay`, double it and go round again; otherwise stop. */
  function RetryFrom(call: Attempt, retry: Verdicts, attempt: nat, delay: Delay, env: Env): (a: Retried)
    requires attempt < MaxRetries
    ensures 1 <= |a.replies| <= MaxRetries - attempt
    decreases MaxRetries - attempt
  {
    var c := call(env);
    if attempt < MaxRetries - 1 && RetriedOn(retry, c.reply) then
      var next := RetryFrom(call, retry, attempt + 1, delay * 2, Env(c.env.script, c.env.sent, c.env.slept + [delay]));
      Retried([c.reply] + next.replies, [delay] + next.backoffs, next.env)
    else
      Retried([c.reply], [], c.env)
  }

  /** The whole retry loop of one batch. */
  function RetryBatch(ids: seq<string>, env: Env): Retried {
    RetryFrom(BatchCall(ids), Retryable, 0, FirstRetryDelay, env)
  }

  /** `n` back-offs starting at `delay`, each twice the one before. */
  function Doubling(delay: nat, n: nat): seq<Delay>
    decreases n
  {
    if n == 0 then [] else [delay] + Doubling(2 * delay, n - 1)
  }

  lemma {:induction false} RepeatAdd<T>(x: T, m: nat, n: nat)
    ensures Repeat(x, m) + Repeat(x, n) == Repeat(x, m + n)
    decreases n
  {
    if n > 0 {
      RepeatAdd(x, m, n - 1);
    }
  }

  /** A call that raises nothing but what the request loop raises:
      APIError, or OverflowError from a `Retry-After` too long to sleep. */
  ghost predicate RaisesLoopFailures(call: Attempt) {
    forall e: Env :: call(e).reply.Raised? ==> LoopFailure(call(e).reply.failure)
  }

  /** A call that consumes a prefix of the script, sends `request` once
      per answer consumed, stalls only once the script is exhausted and
      only adds to the sleep log. */
  ghost predicate SendsOnly(call: Attempt, request: Request) {
    forall e: Env :: Consumes(e, call(e), request)
  }

  predicate Consumes(e: Env, c: Call, request: Request) {
    var k := |e.script| - |c.env.script|;
    && 0 <= k && c.env.script == e.script[k..]
    && c.env.sent == e.sent + Repeat(request, k)
    && (c.reply.Stalled? ==> c.env.script == [])
    && (!c.reply.Stalled? ==> k >= 1)
    && |c.env.slept| >= |e.slept| && c.env.slept[..|e.slept|] == e.slept
  }

  /** The batch call raises only APIError or the OverflowError of a
      `Retry-After` too long to sleep, and sends only the batch's
      request. */
  lemma BatchCallLaws(ids: seq<string>)
    ensures RaisesLoopFailures(BatchCall(ids))
    ensures SendsOnly(BatchCall(ids), BatchRequest(ids))
  {
    forall e: Env
      ensures BatchCall(ids)(e).reply.Raised? ==> LoopFailure(BatchCall(ids)(e).reply.failure)
    {
      ConverseNeverUnknown("federal_awards", e.script, true);
    }
  }

  /** A retry loop that ends with a network error has used all its attempts. */
  predicate RetryShape(retry: Verdicts, replies: seq<Reply<seq<Record>>>, attempt: nat) {
    && 1 <= |replies| <= MaxRetries - attempt
    && (forall i | 0 <= i < |replies| - 1 :: RetriedOn(retry, replies[i]))
    && (RetriedOn(retry, Settled(replies)) ==> attempt + |replies| == MaxRetries)
  }

  /** The retry loop retries exactly the network errors, at most
      `MaxRetries` attempts in all, and raises nothing the call does not. */
  lemma {:induction false} RetryFromShape(call: Attempt, retry: Verdicts, attempt: nat, delay: Delay, env: Env)
    requires attempt < MaxRetries
    requires RaisesLoopFailures(call)
    ensures var a := RetryFrom(call, retry, attempt, delay, env);
      && RetryShape(retry, a.replies, attempt)
      && (forall r | r in a.replies && r.Raised? :: LoopFailure(r.failure))
    decreases MaxRetries - attempt
  {
    var c := call(env);
    if attempt < MaxRetries - 1 && RetriedOn(retry, c.reply) {
      var env' := Env(c.env.script, c.env.sent, c.env.slept + [delay]);
      var next := RetryFrom(call, retry, attempt + 1, delay * 2, env');
      RetryFromShape(call, retry, attempt + 1, delay * 2, env');
      var a := RetryFrom(call, retry, attempt, delay, env);
      assert a.replies == [c.reply] + next.replies;
      assert forall i | 1 <= i < |a.replies| :: a.replies[i] == next.replies[i - 1];
    }
  }

  /** Between attempts it sleeps the back-offs, `delay` first and each
      twice the one before. */
  lemma {:induction false} RetryFromBackoffs(call: Attempt, retry: Verdicts, attempt: nat, delay: Delay, env: Env)
    requires attempt < MaxRetries
    ensures var a := RetryFrom(call, retry, attempt, delay, env);
      a.backoffs == Doubling(delay, |a.replies| - 1)
    decreases MaxRetries - attempt
  {
    var c := call(env);
    if attempt < MaxRetries - 1 && RetriedOn(retry, c.reply) {
      var env' := Env(c.env.script, c.env.sent, c.env.slept + [delay]);
      RetryFromBackoffs(call, retry, attempt + 1, delay * 2, env');
    }
  }

  /** From `e` to `e'` a prefix of the script was consumed, `request`
      was sent once per answer consumed, and sleeps were only added. */
  predicate Advanced(e: Env, e': Env, request: Request) {
    var k := |e.script| - |e'.script|;
    && 0 <= k && e'.script == e.script[k..]
    && e'.sent == e.sent + Repeat(request, k)
    && |e'.slept| >= |e.slept| && e'.slept[..|e.slept|] == e.slept
  }

  lemma AdvancedTransitive(e0: Env, e1: Env, e2: Env, request: Request)
    requires Advanced(e0, e1, request) && Advanced(e1, e2, request)
    ensures Advanced(e0, e2, request)
    ensures |e0.script| - |e2.script| == (|e0.script| - |e1.script|) + (|e1.script| - |e2.script|)
  {
    var k1 := |e0.script| - |e1.script|;
    var k2 := |e1.script| - |e2.script|;
    assert e0.script[k1..][k2..] == e0.script[k1 + k2..];
    RepeatAdd(request, k1, k2);
    Associative(e0.sent, Repeat(request, k1), Repeat(request, k2));
    assert e2.slept[..|e0.slept|] == e1.slept[..|e0.slept|];
  }

  /** It only ever sends the call's request, at least once per attempt
      answered, consumes a prefix of the script, stalls only once the
      script is exhausted, and only adds to the sleep log. */
  lemma {:induction false} RetryFromEnv(call: Attempt, retry: Verdicts, request: Request, attempt: nat, delay: Delay, env: Env)
    requires attempt < MaxRetries
    requires SendsOnly(call, request)
    ensures var a := RetryFrom(call, retry, attempt, delay, env);
      Advanced(env, a.env, request)
    decreases MaxRetries - attempt
  {
    var c := call(env);
    assert Consumes(env, c, request);
    if attempt < MaxRetries - 1 && RetriedOn(retry, c.reply) {
      var env' := Env(c.env.script, c.env.sent, c.env.slept + [delay]);
      assert Advanced(env, env', request) by {
        assert env'.slept[..|env.slept|] == c.env.slept[..|env.slept|];
      }
      var next := RetryFrom(call, retry, attempt + 1, delay * 2, env');
      RetryFromEnv(call, retry, request, attempt + 1, delay * 2, env');
      AdvancedTransitive(env, env', next.env, request);
    }
  }

  /** `after` is the sleep log `before` with sleeps added. */
  predicate Extends(before: seq<Delay>, after: seq<Delay>) {
    |before| <= |after| && after[..|before|] == before
  }

  /** What `after` adds to the sleep log `before`. */
  function Added(before: seq<Delay>, after: seq<Delay>): (d: seq<Delay>)
    ensures Extends(before, after) ==> after == before + d
  {
    if |before| <= |after| then after[|before|..] else []
  }

  /** A call that only adds to the sleep log. */
  ghost predicate AppendsSleeps(call: Attempt) {
    forall e: Env :: Extends(e.slept, call(e).env.slept)
  }

  /** The retry loop only adds to the sleep log when its call does. */
  lemma {:induction false} RetryFromAppends(call: Attempt, retry: Verdicts, attempt: nat, delay: Delay, env: Env)
    requires attempt < MaxRetries
    requires AppendsSleeps(call)
    ensures Extends(env.slept, RetryFrom(call, retry, attempt, delay, env).env.slept)
    decreases MaxRetries - attempt
  {
    var c := call(env);
    assert Extends(env.slept, c.env.slept);
    if attempt < MaxRetries - 1 && RetriedOn(retry, c.reply) {
      var env' := Env(c.env.script, c.env.sent, c.env.slept + [delay]);
      var next := RetryFrom(call, retry, attempt + 1, delay * 2, env');
      RetryFromAppends(call, retry, attempt + 1, delay * 2, env');
      assert next.env.slept[..|env.slept|] == env'.slept[..|env.slept|] == c.env.slept[..|env.slept|];
    }
  }

  /** Each attempt but a stalled last one consumed at least one answer,
      and the loop stalls only once the script is exhausted. */
  lemma {:induction false} RetryFromCounts(call: Attempt, retry: Verdicts, request: Request, attempt: nat, delay: Delay, env: Env)
    requires attempt < MaxRetries
    requires SendsOnly(call, request)
    ensures var a := RetryFrom(call, retry, attempt, delay, env);
      && (Settled(a.replies).Stalled? ==> a.env.script == [])
      && |env.script| - |a.env.script| + (if Settled(a.replies).Stalled? then 1 else 0) >= |a.replies|
    decreases MaxRetries - attempt
  {
    var c := call(env);
    assert Consumes(env, c, request);
    if attempt < MaxRetries - 1 && RetriedOn(retry, c.reply) {
      var env' := Env(c.env.script, c.env.sent, c.env.slept + [delay]);
      var next := RetryFrom(call, retry, attempt + 1, delay * 2, env');
      RetryFromCounts(call, retry, request, attempt + 1, delay * 2, env');
      var a := RetryFrom(call, retry, attempt, delay, env);
      assert a.replies == [c.reply] + next.replies && a.env == next.env;
      assert Settled(a.replies) == Settled(next.replies);
      assert |env.script| - |c.env.script| >= 1;
    }
  }

  /** From the start, a batch gets one to three attempts, retrying exactly
      the network errors, with the back-offs 5 s and then 10 s between
      them, and raises nothing but APIError or the OverflowError of a
      `Retry-After` too long to sleep. */
  lemma RetryBatchLaws(ids: seq<string>, env: Env)
    ensures var a := RetryBatch(ids, env);
      && RetryShape(Retryable, a.replies, 0)
      && (forall r | r in a.replies && r.Raised? :: LoopFailure(r.failure))
      && a.backoffs == [FirstRetryDelay, 2 * FirstRetryDelay][..|a.replies| - 1]
  {
    BatchCallLaws(ids);
    RetryFromShape(BatchCall(ids), Retryable, 0, FirstRetryDelay, env);
    RetryFromBackoffs(BatchCall(ids), Retryable, 0, FirstRetryDelay, env);
    assert Doubling(FirstRetryDelay, 2) == [FirstRetryDelay, 2 * FirstRetryDelay];
  }

  /** A batch sends only its own request, at least once per attempt
      answered, consumes a prefix of the script, stalls only once the
      script is exhausted, and only adds to the sleep log. */
  lemma RetryBatchEnv(ids: seq<string>, env: Env)
    ensures var a := RetryBatch(ids, env);
      && Advanced(env, a.env, BatchRequest(ids))
      && (Settled(a.replies).Stalled? ==> a.env.script == [])
      && |env.script| - |a.env.script| + (if Settled(a.replies).Stalled? then 1 else 0) >= |a.replies|
  {
    BatchCallLaws(ids);
    RetryFromEnv(BatchCall(ids), Retryable, BatchRequest(ids), 0, FirstRetryDelay, env);
    RetryFromCounts(BatchCall(ids), Retryable, BatchRequest(ids), 0, FirstRetryDelay, env);
  }

  /** On a script without 429 answers a batch call makes no sleep, and
      leaves a script without 429 answers. */
  lemma BatchCallQuiet(ids: seq<string>, env: Env)
    requires NoLimits(env.script)
    ensures var c := BatchCall(ids)(env);
      c.env.slept == env.slept && NoLimits(c.env.script)
  {
    var x := Converse("federal_awards", env.script, true);
    ConverseQuiet("federal_awards", env.script, true);
    NoLimitsSuffix(env.script, x.used);
    assert env.slept + x.waits == env.slept;
  }

  /** A call that, on a script without 429 answers, makes no sleep and
      leaves a script without 429 answers. */
  ghost predicate QuietOn(call: Attempt) {
    forall e: Env | NoLimits(e.script) :: call(e).env.slept == e.slept && NoLimits(call(e).env.script)
  }

  /** On a script without 429 answers the retry loop of a quiet call
      sleeps exactly its back-offs. */
  lemma {:induction false} RetryFromQuiet(call: Attempt, retry: Verdicts, attempt: nat, delay: Delay, env: Env)
    requires attempt < MaxRetries && NoLimits(env.script) && QuietOn(call)
    ensures var a := RetryFrom(call, retry, attempt, delay, env);
      a.env.slept == env.slept + a.backoffs && NoLimits(a.env.script)
    decreases MaxRetries - attempt
  {
    var c := call(env);
    assert c.env.slept == env.slept && NoLimits(c.env.script);
    if attempt < MaxRetries - 1 && RetriedOn(retry, c.reply) {
      var env' := Env(c.env.script, c.env.sent, c.env.slept + [delay]);
      var next := RetryFrom(call, retry, attempt + 1, delay * 2, env');
      RetryFromQuiet(call, retry, attempt + 1, delay * 2, env');
      Associative(env.slept, [delay], next.backoffs);
    }
  }

  /** A batch on a script without 429 answers: the sleep log grows by the
      back-offs alone. */
  lemma RetryBatchQuiet(ids: seq<string>, env: Env)
    requires NoLimits(env.script)
    ensures RetryBatch(ids, env).env.slept == env.slept + RetryBatch(ids, env).backoffs
    ensures NoLimits(RetryBatch(ids, env).env.script)
  {
    forall e: Env | NoLimits(e.script)
      ensures BatchCall(ids)(e).env.slept == e.slept && NoLimits(BatchCall(ids)(e).env.script)
    {
      BatchCallQuiet(ids, e);
    }
    RetryFromQuiet(BatchCall(ids), Retryable, 0, FirstRetryDelay, env);
  }

  /** The batch call is `_make_request('federal_awards', ...)`, whose name
      validation passes the key unchanged. */
  lemma BatchCallIsMakeRequest(ids: seq<string>, env: Env)
    ensures Fetch("federal_awards", BatchParams(ids), true, env) == BatchCall(ids)(env)
  {
    FetchKnown("federal_awards", BatchParams(ids), true, env);
    QueryUrls();
  }

  /** The first answer of one attempt, when it ends the request loop. */
  lemma AttemptAnswered(ids: seq<string>, env: Env, o: Outcome, rest: seq<Outcome>)
    requires env.script == [o] + rest && Final(o, true)
    ensures var c := BatchCall(ids)(env);
      && c.reply == Handle("federal_awards", o, true).reply
      && c.env == Env(rest, env.sent + [BatchRequest(ids)], env.slept)
  {
    LoopFirstReply("federal_awards", AwardsUrl, BatchParams(ids), true, env, o, rest);
    LoopFirstEnv("federal_awards", AwardsUrl, BatchParams(ids), true, env, o, rest);
  }

  /** A time-out whose text does not read as a network error fails the
      batch at once: one request, no back-off. */
  lemma TimeoutFailsAtOnce(ids: seq<string>, detail: string, rest: seq<Outcome>, env: Env)
    requires env.script == [TimedOut(detail)] + rest && !IsNetworkError(detail)
    ensures var a := RetryBatch(ids, env);
      && a.replies == [Raised(ApiError(Timeout("federal_awards", detail)))]
      && a.backoffs == []
      && a.env == Env(rest, env.sent + [BatchRequest(ids)], env.slept)
  {
    TimeoutAnswers(ids, detail);
    assert env.script[0] == TimedOut(detail) && env.script[1..] == rest;
    SettledAttempt(BatchCall(ids), Retryable, 0, FirstRetryDelay, env);
  }

  /** An attempt that fails with a failure the loop retries, before the
      last attempt, is followed by a sleep of the current back-off and a
      further attempt with the back-off doubled. */
  lemma RetriedAttempt(call: Attempt, retry: Verdicts, attempt: nat, delay: Delay, env: Env)
    requires attempt < MaxRetries - 1 && RetriedOn(retry, call(env).reply)
    ensures var c := call(env);
      var next := RetryFrom(call, retry, attempt + 1, 2 * delay, Env(c.env.script, c.env.sent, c.env.slept + [delay]));
      RetryFrom(call, retry, attempt, delay, env) == Retried([c.reply] + next.replies, [delay] + next.backoffs, next.env)
  {
  }

  /** A connection failure is a failure the batch loop retries. */
  lemma ConnectionFailureRetryable(d: string)
    ensures Retryable(ApiError(ConnectFailed(d)))
  {
    ConnectionFailureIsNetworkError(d);
  }

  /** An attempt the loop does not retry, or the last attempt, decides
      the batch. */
  lemma SettledAttempt(call: Attempt, retry: Verdicts, attempt: nat, delay: Delay, env: Env)
    requires attempt < MaxRetries
    requires !(attempt < MaxRetries - 1 && RetriedOn(retry, call(env).reply))
    ensures RetryFrom(call, retry, attempt, delay, env) == Retried([call(env).reply], [], call(env).env)
  {
  }

  /** Whatever the environment, a call whose next answer is `o` gives
      `reply`, consuming that answer and sending `request` once. */
  ghost predicate AnswersOn(call: Attempt, o: Outcome, reply: Reply<seq<Record>>, request: Request) {
    forall e: Env | e.script != [] && e.script[0] == o ::
      call(e) == Call(reply, Env(e.script[1..], e.sent + [request], e.slept))
  }

  /** Three attempts that each fail, the first two with failures the loop
      retries, use up the attempts with the back-offs in between. */
  lemma ThreeFailures(call: Attempt, retry: Verdicts, request: Request, delay: Delay,
                      o1: Outcome, o2: Outcome, o3: Outcome, f1: Failure, f2: Failure, f3: Failure,
                      rest: seq<Outcome>, env: Env)
    requires AnswersOn(call, o1, Raised(f1), request) && AnswersOn(call, o2, Raised(f2), request)
    requires AnswersOn(call, o3, Raised(f3), request)
    requires retry(f1) && retry(f2)
    requires env.script == [o1, o2, o3] + rest
    ensures var a := RetryFrom(call, retry, 0, delay, env);
      && a.replies == [Raised(f1), Raised(f2), Raised(f3)]
      && a.backoffs == [delay, 2 * delay]
      && a.env == Env(rest, env.sent + [request, request, request], env.slept + [delay, 2 * delay])
  {
    var e1 := Env([o2, o3] + rest, env.sent + [request], env.slept + [delay]);
    assert env.script == [o1] + ([o2, o3] + rest);
    RetriedAnswer(call, retry, 0, delay, o1, f1, request, [o2, o3] + rest, env);
    TwoFailures(call, retry, request, 2 * delay, o2, o3, f2, f3, rest, e1);
  }

  /** The second and third attempts of ThreeFailures. */
  lemma TwoFailures(call: Attempt, retry: Verdicts, request: Request, delay: Delay,
                    o2: Outcome, o3: Outcome, f2: Failure, f3: Failure, rest: seq<Outcome>, env: Env)
    requires AnswersOn(call, o2, Raised(f2), request) && AnswersOn(call, o3, Raised(f3), request)
    requires retry(f2) && env.script == [o2, o3] + rest
    ensures var a := RetryFrom(call, retry, 1, delay, env);
      && a.replies == [Raised(f2), Raised(f3)]
      && a.backoffs == [delay]
      && a.env == Env(rest, env.sent + [request, request], env.slept + [delay])
  {
    var e2 := Env([o3] + rest, env.sent + [request], env.slept + [delay]);
    assert env.script == [o2] + ([o3] + rest);
    RetriedAnswer(call, retry, 1, delay, o2, f2, request, [o3] + rest, env);
    LastAnswer(call, retry, 2 * delay, o3, f3, request, rest, e2);
    assert e2.sent + [request] == env.sent + [request, request];
  }

  /** A retried failure before the last attempt: the back-off, then the
      attempts after it. */
  lemma RetriedAnswer(call: Attempt, retry: Verdicts, attempt: nat, delay: Delay, o: Outcome, f: Failure,
                      request: Request, rest: seq<Outcome>, env: Env)
    requires attempt < MaxRetries - 1 && AnswersOn(call, o, Raised(f), request) && retry(f)
    requires env.script == [o] + rest
    ensures var next := RetryFrom(call, retry, attempt + 1, 2 * delay, Env(rest, env.sent + [request], env.slept + [delay]));
      RetryFrom(call, retry, attempt, delay, env) == Retried([Raised(f)] + next.replies, [delay] + next.backoffs, next.env)
  {
    assert env.script[0] == o && env.script[1..] == rest;
    assert call(env) == Call(Raised(f), Env(rest, env.sent + [request], env.slept));
    RetriedAttempt(call, retry, attempt, delay, env);
  }

  /** The last attempt decides the batch, whatever it raises. */
  lemma LastAnswer(call: Attempt, retry: Verdicts, delay: Delay, o: Outcome, f: Failure,
                   request: Request, rest: seq<Outcome>, env: Env)
    requires AnswersOn(call, o, Raised(f), request) && env.script == [o] + rest
    ensures RetryFrom(call, retry, MaxRetries - 1, delay, env) == Retried([Raised(f)], [], Env(rest, env.sent + [request], env.slept))
  {
    assert env.script[0] == o && env.script[1..] == rest;
    assert call(env) == Call(Raised(f), Env(rest, env.sent + [request], env.slept));
    SettledAttempt(call, retry, MaxRetries - 1, delay, env);
  }

  /** The batch call gives the reply the request loop gives an answer that
      ends it. */
  lemma BatchCallAnswers(ids: seq<string>, o: Outcome)
    requires Final(o, true)
    ensures AnswersOn(BatchCall(ids), o, Handle("federal_awards", o, true).reply, BatchRequest(ids))
  {
    forall e: Env | e.script != [] && e.script[0] == o
      ensures BatchCall(ids)(e) == Call(Handle("federal_awards", o, true).reply,
                                        Env(e.script[1..], e.sent + [BatchRequest(ids)], e.slept))
    {
      assert e.script == [o] + e.script[1..];
      AttemptAnswered(ids, e, o, e.script[1..]);
    }
  }

  /** Three connection failures in a row use up the attempts: three
      requests, with sleeps of 5 s and 10 s between them, and the batch
      fails with the last one. */
  lemma ConnectionFailuresExhaust(ids: seq<string>, d1: string, d2: string, d3: string,
                                  rest: seq<Outcome>, env: Env)
    requires env.script == [ConnectionFailure(d1), ConnectionFailure(d2), ConnectionFailure(d3)] + rest
    ensures var a := RetryBatch(ids, env);
      && a.replies == [Raised(ApiError(ConnectFailed(d1))), Raised(ApiError(ConnectFailed(d2))),
                       Raised(ApiError(ConnectFailed(d3)))]
      && a.backoffs == [5000, 10000]
      && a.env.script == rest
      && a.env.sent == env.sent + [BatchRequest(ids), BatchRequest(ids), BatchRequest(ids)]
      && a.env.slept == env.slept + [5000, 10000]
  {
    BatchCallAnswers(ids, ConnectionFailure(d1));
    BatchCallAnswers(ids, ConnectionFailure(d2));
    BatchCallAnswers(ids, ConnectionFailure(d3));
    ConnectionFailureRetryable(d1);
    ConnectionFailureRetryable(d2);
    ThreeFailures(BatchCall(ids), Retryable, BatchRequest(ids), FirstRetryDelay,
                  ConnectionFailure(d1), ConnectionFailure(d2), ConnectionFailure(d3),
                  ApiError(ConnectFailed(d1)), ApiError(ConnectFailed(d2)), ApiError(ConnectFailed(d3)),
                  rest, env);
  }

  // ---------------------------------------------------------------------
  // The batch loop

  /** One batch as the loop saw it: its number (from 1), its ids, the
      failed attempts that were retried, the reply of the last attempt and
      the sleeps its attempts made (rate-limit waits and back-offs). */
  datatype BatchRun = BatchRun(number: int, ids: seq<string>, retried: seq<Reply<seq<Record>>>,
                               reply: Reply<seq<Record>>, slept: seq<Delay>)

  /** The loop's state: whether it goes on, `all_results`,
      `failed_batches`, the environment and the batches run so far. */
  datatype Collection = Collection(stop: Stop, records: seq<Record>, failed: seq<(int, seq<string>)>,
                                   env: Env, runs: seq<BatchRun>)

  /** The call made for a batch of ids. */
  type Caller = seq<string> -> Attempt

  /** What a batch adds to `all_results`. */
  function Fetched(run: BatchRun): seq<Record> {
    if run.reply.Returned? then run.reply.value else []
  }

  /** What a batch adds to `failed_batches`: itself, when its last attempt
      raised APIError. */
  function Failures(run: BatchRun): seq<(int, seq<string>)> {
    if run.reply.Raised? && run.reply.failure.ApiError? then [(run.number, run.ids)] else []
  }

  /** One iteration of the batch loop: the retry loop, then the half-second
      pause unless this is the last batch. */
  function CollectStep(c: Collection, caller: Caller, retry: Verdicts, total: int, number: int,
                       ids: seq<string>): Collection
  {
    if !c.stop.Going? then c
    else
      var a := RetryFrom(caller(ids), retry, 0, FirstRetryDelay, c.env);
      var run := BatchRun(number, ids, a.replies[..|a.replies| - 1], Settled(a.replies),
                          Added(c.env.slept, a.env.slept));
      var stop := Verdict(run.reply);
      var env := if stop.Going? && number < total then Env(a.env.script, a.env.sent, a.env.slept + [BatchPause])
                 else a.env;
      Collection(stop, c.records + Fetched(run), c.failed + Failures(run), env, c.runs + [run])
  }

  /** The batch loop over `bs`, batch `k` (from 1) being `bs[k - 1]`. */
  function CollectOver(c: Collection, caller: Caller, retry: Verdicts, total: int,
                       bs: seq<seq<string>>): Collection
    decreases |bs|
  {
    if bs == [] then c
    else CollectStep(CollectOver(c, caller, retry, total, bs[..|bs| - 1]), caller, retry, total, |bs|, bs[|bs| - 1])
  }

  function Begin(env: Env): Collection {
    Collection(Going, [], [], env, [])
  }

  /** The records of the batches, concatenated in batch order. */
  function AllFetched(runs: seq<BatchRun>): seq<Record>
    decreases |runs|
  {
    if runs == [] then [] else AllFetched(runs[..|runs| - 1]) + Fetched(runs[|runs| - 1])
  }

  /** The failed batches, in batch order. */
  function AllFailures(runs: seq<BatchRun>): seq<(int, seq<string>)>
    decreases |runs|
  {
    if runs == [] then [] else AllFailures(runs[..|runs| - 1]) + Failures(runs[|runs| - 1])
  }

  /** A batch ran the retry loop as it must: at most two retried attempts,
      each a failure `retry` picks, and a last attempt that `retry` picks
      only when it was the third. */
  predicate RunShape(retry: Verdicts, run: BatchRun) {
    && |run.retried| < MaxRetries
    && (forall r | r in run.retried :: RetriedOn(retry, r))
    && (RetriedOn(retry, run.reply) ==> |run.retried| == MaxRetries - 1)
  }

  /** Every call raises only what the request loop raises. */
  ghost predicate CallsRaiseLoopFailures(caller: Caller) {
    forall ids: seq<string> :: RaisesLoopFailures(caller(ids))
  }

  /** The batches run are the first ones of `bs`, in order and numbered
      from 1, each ran the retry loop, and none raised anything but
      APIError or the OverflowError of a `Retry-After` too long to sleep. */
  predicate Numbered(retry: Verdicts, bs: seq<seq<string>>, runs: seq<BatchRun>) {
    && |runs| <= |bs|
    && (forall i | 0 <= i < |runs| :: runs[i].number == i + 1 && runs[i].ids == bs[i])
    && (forall run | run in runs :: RunShape(retry, run))
    && (forall run | run in runs :: run.reply.Raised? ==> LoopFailure(run.reply.failure))
  }

  /** While going, every batch ran and none stopped the loop; once
      stopped, the last batch run is the one that stopped it. */
  predicate Completed(bs: seq<seq<string>>, c: Collection) {
    && (c.stop.Going? ==> |c.runs| == |bs| && forall run | run in c.runs :: Verdict(run.reply).Going?)
    && (!c.stop.Going? ==> c.runs != [] && c.stop == Verdict(c.runs[|c.runs| - 1].reply))
  }

  /** `all_results` and `failed_batches` are those of the batches run. */
  predicate Tallied(c: Collection) {
    c.records == AllFetched(c.runs) && c.failed == AllFailures(c.runs)
  }

  predicate CollectInvariant(retry: Verdicts, bs: seq<seq<string>>, c: Collection) {
    Numbered(retry, bs, c.runs) && Completed(bs, c) && Tallied(c)
  }

  /** What one batch does to a running loop, apart from the environment. */
  lemma CollectStepLaws(c: Collection, caller: Caller, retry: Verdicts, total: int, number: int,
                        ids: seq<string>)
    requires c.stop.Going? && RaisesLoopFailures(caller(ids))
    ensures var c' := CollectStep(c, caller, retry, total, number, ids);
      && |c'.runs| == |c.runs| + 1 && c'.runs[..|c.runs|] == c.runs
      && var run := c'.runs[|c.runs|];
      && run.number == number && run.ids == ids
      && RunShape(retry, run)
      && (run.reply.Raised? ==> LoopFailure(run.reply.failure))
      && c'.stop == Verdict(run.reply)
      && c'.records == c.records + Fetched(run)
      && c'.failed == c.failed + Failures(run)
  {
    var a := RetryFrom(caller(ids), retry, 0, FirstRetryDelay, c.env);
    RetryFromShape(caller(ids), retry, 0, FirstRetryDelay, c.env);
    var run := BatchRun(number, ids, a.replies[..|a.replies| - 1], Settled(a.replies),
                        Added(c.env.slept, a.env.slept));
    assert forall r | r in run.retried :: exists i | 0 <= i < |a.replies| - 1 :: r == a.replies[i];
    assert run.reply in a.replies;
    var c' := CollectStep(c, caller, retry, total, number, ids);
    assert c'.runs == c.runs + [run];
  }

  lemma AllFetchedSnoc(runs: seq<BatchRun>, run: BatchRun)
    ensures AllFetched(runs + [run]) == AllFetched(runs) + Fetched(run)
    ensures AllFailures(runs + [run]) == AllFailures(runs) + Failures(run)
  {
    assert (runs + [run])[..|runs|] == runs;
  }

  lemma NumberedSnoc(retry: Verdicts, bs: seq<seq<string>>, runs: seq<BatchRun>, ids: seq<string>, run: BatchRun)
    requires Numbered(retry, bs, runs) && |runs| == |bs|
    requires run.number == |bs| + 1 && run.ids == ids && RunShape(retry, run)
    requires run.reply.Raised? ==> LoopFailure(run.reply.failure)
    ensures Numbered(retry, bs + [ids], runs + [run])
  {
    assert forall r | r in runs + [run] :: r in runs || r == run;
  }

  lemma CompletedSnoc(bs: seq<seq<string>>, c: Collection, ids: seq<string>, c': Collection, run: BatchRun)
    requires Completed(bs, c) && c.stop.Going?
    requires c'.runs == c.runs + [run] && c'.stop == Verdict(run.reply)
    ensures Completed(bs + [ids], c')
  {
    assert forall r | r in c'.runs :: r in c.runs || r == run;
  }

  /** One more batch keeps the invariant. */
  lemma CollectStepKeeps(caller: Caller, retry: Verdicts, total: int, bs: seq<seq<string>>,
                         c: Collection, ids: seq<string>)
    requires CallsRaiseLoopFailures(caller)
    requires CollectInvariant(retry, bs, c)
    ensures CollectInvariant(retry, bs + [ids], CollectStep(c, caller, retry, total, |bs| + 1, ids))
  {
    var c' := CollectStep(c, caller, retry, total, |bs| + 1, ids);
    if c.stop.Going? {
      CollectStepLaws(c, caller, retry, total, |bs| + 1, ids);
      var run := c'.runs[|c.runs|];
      assert c'.runs == c.runs + [run];
      NumberedSnoc(retry, bs, c.runs, ids, run);
      CompletedSnoc(bs, c, ids, c', run);
      AllFetchedSnoc(c.runs, run);
    }
  }

  /** The batch loop laws hold after every prefix of the batches. */
  lemma {:induction false} CollectOverLaws(caller: Caller, retry: Verdicts, total: int,
                                           bs: seq<seq<string>>, env: Env)
    requires CallsRaiseLoopFailures(caller)
    ensures CollectInvariant(retry, bs, CollectOver(Begin(env), caller, retry, total, bs))
    decreases |bs|
  {
    if bs != [] {
      var init := bs[..|bs| - 1];
      CollectOverLaws(caller, retry, total, init, env);
      assert init + [bs[|bs| - 1]] == bs;
      CollectStepKeeps(caller, retry, total, init, CollectOver(Begin(env), caller, retry, total, init), bs[|bs| - 1]);
    }
  }

  /** The sleeps of one batch as the loop makes them: those of its
      attempts, then the half-second pause unless it stopped the loop or
      was the last batch. */
  function RunSleeps(run: BatchRun, total: int): seq<Delay> {
    run.slept + (if Verdict(run.reply).Going? && run.number < total then [BatchPause] else [])
  }

  /** The sleeps of the batches, in batch order. */
  function AllSleeps(runs: seq<BatchRun>, total: int): seq<Delay>
    decreases |runs|
  {
    if runs == [] then [] else AllSleeps(runs[..|runs| - 1], total) + RunSleeps(runs[|runs| - 1], total)
  }

  /** Every call only adds to the sleep log. */
  ghost predicate CallsAppendSleeps(caller: Caller) {
    forall ids: seq<string> :: AppendsSleeps(caller(ids))
  }

  /** One more batch adds its own sleeps, and its pause, to the log. */
  lemma CollectStepSleeps(c: Collection, caller: Caller, retry: Verdicts, total: int, number: int,
                          ids: seq<string>)
    requires CallsAppendSleeps(caller)
    ensures var c' := CollectStep(c, caller, retry, total, number, ids);
      c.stop.Going? ==> && |c'.runs| == |c.runs| + 1 && c'.runs[..|c.runs|] == c.runs
                        && c'.runs[|c.runs|].number == number
                        && c'.env.slept == c.env.slept + RunSleeps(c'.runs[|c.runs|], total)
  {
    if c.stop.Going? {
      var a := RetryFrom(caller(ids), retry, 0, FirstRetryDelay, c.env);
      assert AppendsSleeps(caller(ids));
      RetryFromAppends(caller(ids), retry, 0, FirstRetryDelay, c.env);
      var run := BatchRun(number, ids, a.replies[..|a.replies| - 1], Settled(a.replies),
                          Added(c.env.slept, a.env.slept));
      var c' := CollectStep(c, caller, retry, total, number, ids);
      assert c'.runs == c.runs + [run];
      var pause := if Verdict(run.reply).Going? && number < total then [BatchPause] else [];
      Associative(c.env.slept, run.slept, pause);
    }
  }

  /** The sleep log after the batch loop is the one before it, followed
      batch by batch by that batch's sleeps and pause. */
  lemma {:induction false} CollectOverSleeps(caller: Caller, retry: Verdicts, total: int,
                                             bs: seq<seq<string>>, env: Env)
    requires CallsAppendSleeps(caller)
    ensures var c := CollectOver(Begin(env), caller, retry, total, bs);
      c.env.slept == env.slept + AllSleeps(c.runs, total)
    decreases |bs|
  {
    if bs != [] {
      var init := bs[..|bs| - 1];
      CollectOverSleeps(caller, retry, total, init, env);
      var c0 := CollectOver(Begin(env), caller, retry, total, init);
      var c := CollectOver(Begin(env), caller, retry, total, bs);
      CollectStepSleeps(c0, caller, retry, total, |bs|, bs[|bs| - 1]);
      if c0.stop.Going? {
        var run := c.runs[|c0.runs|];
        assert c.runs == c0.runs + [run];
        assert c.runs[..|c.runs| - 1] == c0.runs;
        Associative(env.slept, AllSleeps(c0.runs, total), RunSleeps(run, total));
      }
    }
  }

  /** On a script without 429 answers, every batch sleeps exactly its
      back-offs: 5 s before a second attempt, 10 s before a third. */
  lemma {:induction false} CollectOverQuiet(total: int, bs: seq<seq<string>>, env: Env)
    requires NoLimits(env.script)
    ensures var c := CollectOver(Begin(env), BatchCall, Retryable, total, bs);
      && NoLimits(c.env.script)
      && forall run | run in c.runs ::
           |run.retried| < MaxRetries && run.slept == [FirstRetryDelay, 2 * FirstRetryDelay][..|run.retried|]
    decreases |bs|
  {
    if bs != [] {
      var init := bs[..|bs| - 1];
      var ids := bs[|bs| - 1];
      CollectOverQuiet(total, init, env);
      var c0 := CollectOver(Begin(env), BatchCall, Retryable, total, init);
      if c0.stop.Going? {
        var a := RetryBatch(ids, c0.env);
        RetryBatchQuiet(ids, c0.env);
        RetryBatchLaws(ids, c0.env);
        var run := BatchRun(|bs|, ids, a.replies[..|a.replies| - 1], Settled(a.replies),
                            Added(c0.env.slept, a.env.slept));
        assert a.env.slept[|c0.env.slept|..] == a.backoffs;
        var c := CollectOver(Begin(env), BatchCall, Retryable, total, bs);
        assert c.runs == c0.runs + [run];
        assert forall r | r in c.runs :: r in c0.runs || r == run;
      }
    }
  }

  // ---------------------------------------------------------------------
  // get_all_federal_awards

  /** What the batch loop leaves behind: the records, unless it was left
      by an exception or ran out of script. */
  function Ended(c: Collection): Call {
    match c.stop
    case Going => Call(Returned(c.records), c.env)
    case Crashed(f) => Call(Raised(f), c.env)
    case OutOfScript => Call(Stalled, c.env)
  }

  /** The columns the report-id harvest asks for. */
  function IdColumns(): Columns {
    Listed(["report_id"])
  }

  /** The batch phase on the harvested `records`: `total_batches` first
      (ZeroDivisionError for a batch size of 0), then the loop over the
      batches (none for a negative batch size, whose `range` is empty). */
  function CollectBatches(records: seq<Record>, batchSize: int, env: Env): Call {
    var ids := Unique(ReportIds(records));
    if batchSize == 0 then Call(Raised(DivisionByZero), env)
    else if batchSize < 0 then Call(Returned([]), env)
    else Ended(CollectOver(Begin(env), BatchCall, Retryable, TotalBatches(|ids|, batchSize), Batches(ids, batchSize)))
  }

  /** `get_all_federal_awards(batch_size)` against `env`, returning the
      records it collected (see the Findings for the function as written):
      the report-id harvest, any exception from which is re-raised as
      APIError("Failed to get general records: ..."), then the batch phase. */
  function CollectAwards(cfg: Config, batchSize: int, env: Env): Call {
    var h := Sweep(cfg, IdColumns(), env);
    match h.reply
    case Stalled => Call(Stalled, h.env)
    case Raised(f) => Call(Raised(ApiError(GeneralFailed(Describe(f)))), h.env)
    case Returned(records) => CollectBatches(records, batchSize, h.env)
  }

  /** The function as written: it has no `return` statement, so a run that
      does not raise gives back None, whatever it collected. */
  function AwardsAsWritten(cfg: Config, batchSize: int, env: Env): Reply<Option<seq<Record>>> {
    match CollectAwards(cfg, batchSize, env).reply
    case Returned(_) => Returned(None)
    case Raised(f) => Raised(f)
    case Stalled => Stalled
  }

  /** The batch phase for a positive batch size: the ids are the distinct
      harvested report ids, cut into `total_batches` consecutive batches;
      the batches run are the first ones, numbered from 1, each through the
      retry loop, and none raises anything but APIError or the OverflowError
      of a `Retry-After` too long to sleep; so the phase raises only that
      OverflowError; it returns exactly when every batch ran and none
      stopped the loop, and then returns the batches' records concatenated
      in batch order, with `failed_batches` the numbered batches whose last
      attempt raised APIError; otherwise it ends with the reply of the last
      batch run. The sleep log grows by each batch's sleeps, followed by
      the half-second pause after every batch but the last that did not
      stop the loop; on a script without 429 answers a batch's sleeps are
      its back-offs. */
  lemma CollectBatchesLaws(records: seq<Record>, batchSize: int, env: Env)
    requires batchSize > 0
    ensures var ids := Unique(ReportIds(records));
      var bs := Batches(ids, batchSize);
      var c := CollectOver(Begin(env), BatchCall, Retryable, TotalBatches(|ids|, batchSize), bs);
      var r := CollectBatches(records, batchSize, env);
      && |bs| == TotalBatches(|ids|, batchSize) && Flatten(bs) == ids
      && Numbered(Retryable, bs, c.runs)
      && (r.reply.Raised? ==> r.reply.failure.SleepOverflow?)
      && (r.reply.Returned? <==> |c.runs| == |bs| && forall run | run in c.runs :: Verdict(run.reply).Going?)
      && (r.reply.Returned? ==> r.reply.value == AllFetched(c.runs))
      && (!r.reply.Returned? ==> c.runs != [] && c.runs[|c.runs| - 1].reply == r.reply)
      && c.failed == AllFailures(c.runs)
      && r.env.slept == env.slept + AllSleeps(c.runs, TotalBatches(|ids|, batchSize))
      && (NoLimits(env.script) ==>
            forall run | run in c.runs :: run.slept == [FirstRetryDelay, 2 * FirstRetryDelay][..|run.retried|])
  {
    var ids := Unique(ReportIds(records));
    var bs := Batches(ids, batchSize);
    BatchesCount(ids, batchSize);
    BatchesFlatten(ids, batchSize);
    assert CallsRaiseLoopFailures(BatchCall) by {
      forall ids: seq<string> ensures RaisesLoopFailures(BatchCall(ids)) {
        BatchCallLaws(ids);
      }
    }
    assert CallsAppendSleeps(BatchCall) by {
      forall ids: seq<string> ensures AppendsSleeps(BatchCall(ids)) {
        BatchCallLaws(ids);
        forall e: Env ensures Extends(e.slept, BatchCall(ids)(e).env.slept) {
          assert Consumes(e, BatchCall(ids)(e), BatchRequest(ids));
        }
      }
    }
    var c := CollectOver(Begin(env), BatchCall, Retryable, TotalBatches(|ids|, batchSize), bs);
    CollectOverLaws(BatchCall, Retryable, TotalBatches(|ids|, batchSize), bs, env);
    CollectOverSleeps(BatchCall, Retryable, TotalBatches(|ids|, batchSize), bs, env);
    if NoLimits(env.script) {
      CollectOverQuiet(TotalBatches(|ids|, batchSize), bs, env);
    }
    if !c.stop.Going? {
      var last := c.runs[|c.runs| - 1];
      assert last in c.runs;
    }
  }

  /** The function as written never gives back the records: whenever the
      corrected one returns, it returns None instead. */
  lemma AsWrittenDiscardsRecords(cfg: Config, batchSize: int, env: Env)
    ensures CollectAwards(cfg, batchSize, env).reply.Returned? <==>
            AwardsAsWritten(cfg, batchSize, env) == Returned(None)
    ensures !CollectAwards(cfg, batchSize, env).reply.Returned? ==>
            AwardsAsWritten(cfg, batchSize, env) ==
              match CollectAwards(cfg, batchSize, env).reply
              case Raised(f) => Raised(f)
              case _ => Stalled
  {
  }

  /** A batch whose first answer is a list is fetched by its first
      attempt. */
  lemma BatchAnswered(ids: seq<string>, rs: seq<Record>, rest: seq<Outcome>, env: Env)
    requires env.script == [Success(JsonList(rs))] + rest
    ensures RetryBatch(ids, env) == Retried([Returned(rs)], [], Env(rest, env.sent + [BatchRequest(ids)], env.slept))
  {
    AttemptAnswered(ids, env, Success(JsonList(rs)), rest);
    SettledAttempt(BatchCall(ids), Retryable, 0, FirstRetryDelay, env);
  }

  /** A single batch answered with a list: the loop returns that list. */
  lemma SingleBatchFetched(ids: seq<string>, rs: seq<Record>, rest: seq<Outcome>, env: Env)
    requires env.script == [Success(JsonList(rs))] + rest
    ensures Ended(CollectOver(Begin(env), BatchCall, Retryable, 1, [ids])).reply == Returned(rs)
  {
    BatchAnswered(ids, rs, rest, env);
    var none: seq<seq<string>> := [];
    assert [ids][..0] == none;
    assert CollectOver(Begin(env), BatchCall, Retryable, 1, [ids])
        == CollectStep(Begin(env), BatchCall, Retryable, 1, 1, ids);
    var a := RetryFrom(BatchCall(ids), Retryable, 0, FirstRetryDelay, env);
    assert a.replies == [Returned(rs)];
    var c := CollectStep(Begin(env), BatchCall, Retryable, 1, 1, ids);
    assert c.stop == Going && c.records == [] + rs == rs;
    assert Ended(c).reply == Returned(rs);
  }

  /** A sweep over one pair whose call is answered with a list returns
      that list. */
  lemma SinglePairHarvest(query: Query, pair: (int, string), rs: seq<Record>, rest: seq<Outcome>, env: Env)
    requires query(pair).Ok? && env.script == [Success(JsonList(rs))] + rest
    ensures var c := FacSweep.Outcome(SweepOver(Start(env), query, [pair]));
      c.reply == Returned(rs) && c.env.script == rest
  {
    var none: seq<(int, string)> := [];
    assert [pair][..0] == none;
    FirstAnswered(Start(env), query, pair, Success(JsonList(rs)), rest);
    assert Handle("general", Success(JsonList(rs)), true).reply == Returned(rs);
    assert SweepOver(Start(env), query, [pair]) == SweepStep(Start(env), query, pair);
    var h := SweepStep(Start(env), query, pair);
    assert h.stop == Going && h.records == [] + rs == rs;
    assert FacSweep.Outcome(h) == Call(Returned(rs), h.env);
  }

  /** One year and one state answered with a list: the harvest returns
      that list. */
  lemma SingleYearStateHarvest(year: int, state: string, rs: seq<Record>, rest: seq<Outcome>, env: Env)
    requires env.script == [Success(JsonList(rs))] + rest
    ensures var c := Sweep(Config(year, year, [state]), IdColumns(), env);
      c.reply == Returned(rs) && c.env.script == rest
  {
    var cfg := Config(year, year, [state]);
    assert YearCount(cfg) == 1;
    assert PairsFrom(year, 1, [state]) == YearPairs(year, [state]) + PairsFrom(year + 1, 0, [state]);
    assert Pairs(cfg) == [(year, state)];
    var query := PairQuery(IdColumns());
    assert query((year, state)).Ok?;
    SinglePairHarvest(query, (year, state), rs, rest, env);
  }

  /** A single record with a report id yields that one id, in a single
      batch of the default size. */
  lemma SingleIdBatch(id: string)
    ensures Unique(ReportIds([map["report_id" := id]])) == [id]
    ensures TotalBatches(1, DefaultBatchSize) == 1
    ensures Batches([id], DefaultBatchSize) == [[id]]
  {
    var rec: Record := map["report_id" := id];
    var none: seq<Record> := [];
    assert [rec][..0] == none;
    assert ReportIds([rec]) == [id];
    assert Unique([id]) == [id];
  }

  /** One year and one state, whose harvest finds a single report id and
      whose single batch then fetches `rs`: the corrected function returns
      `rs`, the function as written None. */
  lemma AsWrittenLosesRecords(year: int, state: string, id: string, rs: seq<Record>,
                              rest: seq<Outcome>, env: Env)
    requires env.script == [Success(JsonList([map["report_id" := id]])), Success(JsonList(rs))] + rest
    ensures CollectAwards(Config(year, year, [state]), DefaultBatchSize, env).reply == Returned(rs)
    ensures AwardsAsWritten(Config(year, year, [state]), DefaultBatchSize, env) == Returned(None)
  {
    var rec: Record := map["report_id" := id];
    assert env.script == [Success(JsonList([rec]))] + ([Success(JsonList(rs))] + rest);
    SingleYearStateHarvest(year, state, [rec], [Success(JsonList(rs))] + rest, env);
    var h := Sweep(Config(year, year, [state]), IdColumns(), env);
    SingleIdBatch(id);
    SingleBatchFetched([id], rs, rest, h.env);
    assert CollectBatches([rec], DefaultBatchSize, h.env).reply == Returned(rs);
  }

  /** A batch whose call is settled by its first answer: one run with no
      retried attempts, and the pause after it unless the loop stops or
      this is the last batch. */
  lemma SettledStep(c: Collection, caller: Caller, retry: Verdicts, total: int, number: int,
                    ids: seq<string>, o: Outcome, r: Reply<seq<Record>>, q: Request, rest: seq<Outcome>)
    requires c.stop.Going? && AnswersOn(caller(ids), o, r, q) && !RetriedOn(retry, r)
    requires c.env.script == [o] + rest
    ensures var run := BatchRun(number, ids, [], r, []);
      var pause := if Verdict(r).Going? && number < total then [BatchPause] else [];
      CollectStep(c, caller, retry, total, number, ids)
        == Collection(Verdict(r), c.records + Fetched(run), c.failed + Failures(run),
                      Env(rest, c.env.sent + [q], c.env.slept + pause), c.runs + [run])
  {
    assert c.env.script[1..] == rest;
    SettledAttempt(caller(ids), retry, 0, FirstRetryDelay, c.env);
    var a := RetryFrom(caller(ids), retry, 0, FirstRetryDelay, c.env);
    assert a.replies == [r] && a.env == Env(rest, c.env.sent + [q], c.env.slept);
    assert a.replies[..0] == [];
  }

  /** The endpoint name of the batch calls has neither `F` nor `N`. */
  lemma AwardsNameLetters()
    ensures 'F' !in "federal_awards" && 'N' !in "federal_awards"
  {
    var name := "federal_awards";
    assert forall i | 0 <= i < |name| :: name[i] != 'F' && name[i] != 'N';
  }

  /** A time-out of a batch call is retried exactly when its text reads as
      a network error. */
  lemma TimeoutRetried(detail: string)
    ensures RetriedOn(Retryable, Raised(ApiError(Timeout("federal_awards", detail)))) <==> IsNetworkError(detail)
  {
    AwardsNameLetters();
    TimeoutMessageNetwork("federal_awards", detail);
  }

  /** A time-out of a batch call without a network error in its text
      raises the APIError at once, and the retry loop leaves it be. */
  lemma TimeoutAnswers(ids: seq<string>, detail: string)
    requires !IsNetworkError(detail)
    ensures var r: Reply<seq<Record>> := Raised(ApiError(Timeout("federal_awards", detail)));
      AnswersOn(BatchCall(ids), TimedOut(detail), r, BatchRequest(ids)) && !RetriedOn(Retryable, r)
  {
    BatchCallAnswers(ids, TimedOut(detail));
    TimeoutRetried(detail);
  }

  /** A batch that times out (without a network error in its text) before
      the last batch is recorded in `failed_batches` under its number after
      a single attempt, adds no records, and is followed by the
      half-second pause. */
  lemma TimedOutBatchRecorded(c: Collection, total: int, number: int, ids: seq<string>,
                              detail: string, rest: seq<Outcome>)
    requires c.stop.Going? && number < total
    requires c.env.script == [TimedOut(detail)] + rest && !IsNetworkError(detail)
    ensures var c' := CollectStep(c, BatchCall, Retryable, total, number, ids);
      && c'.stop == Going
      && c'.records == c.records
      && c'.failed == c.failed + [(number, ids)]
      && c'.env == Env(rest, c.env.sent + [BatchRequest(ids)], c.env.slept + [BatchPause])
  {
    var r: Reply<seq<Record>> := Raised(ApiError(Timeout("federal_awards", detail)));
    TimeoutAnswers(ids, detail);
    SettledStep(c, BatchCall, Retryable, total, number, ids, TimedOut(detail), r, BatchRequest(ids), rest);
    assert c.records + [] == c.records;
  }
}
