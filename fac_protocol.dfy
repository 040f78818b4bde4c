/** One request to the Federal Audit Clearinghouse API (`_make_request` in
    src/data_collection/fac_api.py): endpoint-name validation, the
    classification of each answer the server can give, and the loop that
    re-issues the request after an HTTP 429.

    The network is a scripted oracle: `Env.script` holds the answers the
    server will give, in order; every request issued is appended to
    `Env.sent` and every `time.sleep` to `Env.slept` (in milliseconds). */
module FacProtocol {
  import opened Text

  datatype Option<T> = None | Some(value: T)

  /** The outcome of a pure computation that may raise. */
  datatype Result<T> = Ok(value: T) | Err(failure: Failure)

  /** The outcome of an operation that talks to the server: a value, a raised
      exception, or `Stalled` when the script ran out while the client was
      still waiting for an answer. */
  datatype Reply<T> = Returned(value: T) | Raised(failure: Failure) | Stalled

  /** The exceptions the core raises. */
  datatype Failure =
    | ApiError(reason: ApiReason)       // APIError; `str(e)` is `Message(reason)`
    | UnknownEndpoint(name: string)     // ValueError for an endpoint name
    | ColumnsNotList(typeName: string)  // TypeError for a non-list `columns`
    | DivisionByZero                    // ZeroDivisionError for batch_size == 0
    | SleepOverflow(detail: string)     // OverflowError from `time.sleep`

  /** Why an APIError was raised, one case per `raise APIError(...)` of the
      core; `Message` gives the text the source puts in it. */
  datatype ApiReason =
    | InvalidJson(endpoint: string, detail: string)
    | AuthFailed
    | RateLimited
    | NotFound(endpoint: string)
    | HttpStatus(code: int, endpoint: string, detail: string)
    | ConnectFailed(detail: string)
    | Timeout(endpoint: string, detail: string)
    | RequestFailed(endpoint: string, detail: string)
    | GeneralFailed(cause: string)      // the wrapper of the report-id harvest

  /** One row of a resource: field name to field value. */
  type Record = map<string, string>

  /** Query parameters, `field -> operator.value`. */
  type Params = map<string, string>

  /** A duration in milliseconds. */
  type Delay = nat

  datatype Request = Request(url: string, params: Params)

  /** The `Retry-After` header of a 429 answer: missing, not usable as a
      non-negative number of seconds (`float` or `time.sleep` raises
      ValueError), a usable wait, or a number `float` reads but too large
      for `time.sleep` (such as `inf` or `1e10`), which raises
      OverflowError with the text `detail`. */
  datatype RetryAfter = Absent | Unparseable(text: string) | Wait(delay: Delay) | TooLong(detail: string)

  /** The JSON body of a successful answer. */
  datatype Body = JsonList(records: seq<Record>) | JsonOther | NotJson(detail: string)

  /** One answer of the server to one GET request. */
  datatype Outcome =
    | Success(body: Body)                                       // status below 400
    | ErrorStatus(code: int, retryAfter: RetryAfter, detail: string) // 4xx/5xx; detail is str(HTTPError)
    | ConnectionFailure(detail: string)                         // requests ConnectionError
    | TimedOut(detail: string)                                  // requests Timeout
    | RequestFailure(detail: string)                            // any other RequestException

  datatype Env = Env(script: seq<Outcome>, sent: seq<Request>, slept: seq<Delay>)

  /** What a call to the server returned and the environment after it. */
  datatype Call = Call(reply: Reply<seq<Record>>, env: Env)

  const BaseUrl := "https://api.fac.gov"

  /** The endpoint table, keys in the order the client declares them. */
  const EndpointNames: seq<string> := [
    "general", "federal_awards", "additional_eins", "additional_ueis",
    "corrective_action_plans", "findings", "findings_text", "notes_to_sefa",
    "passthrough", "secondary_auditors"]

  const Endpoints: map<string, string> := map[
    "general" := "/general",
    "federal_awards" := "/federal_awards",
    "additional_eins" := "/additional_eins",
    "additional_ueis" := "/additional_ueis",
    "corrective_action_plans" := "/corrective_action_plans",
    "findings" := "/findings",
    "findings_text" := "/findings_text",
    "notes_to_sefa" := "/notes_to_sefa",
    "passthrough" := "/passthrough",
    "secondary_auditors" := "/secondary_auditors"]

  /** Documented server limit on the rows one request returns (declared by
      the client, never consulted by it). */
  const MaxSingleRequestSize := 20000

  const AuthFailedMessage := "Authentication failed. Check your API key."
  const RateLimitMessage := "Rate limit exceeded. Please wait before making more requests."
  const ConnectPrefix := "Failed to connect to FAC API: "

  function Repeat<T>(x: T, n: nat): (r: seq<T>)
    ensures |r| == n && forall k | 0 <= k < n :: r[k] == x
  {
    if n == 0 then [] else Repeat(x, n - 1) + [x]
  }

  /** `_validate_string`: the name stripped of surrounding white space and
      lower-cased. */
  function ValidateString(s: string): (r: string)
    ensures |r| <= |s|
    ensures Trimmed(r)
    ensures forall c | c in r :: !IsUpper(c)
  {
    var t := Strip(s);
    LowerKeepsTrimmed(t);
    LowerHasNoUpper(t);
    Lower(t)
  }

  /** Validating a name twice is validating it once. */
  lemma {:induction false} ValidateStringIdempotent(s: string)
    ensures ValidateString(ValidateString(s)) == ValidateString(s)
  {
    var r := ValidateString(s);
    StripTrimmed(r);
    LowerOfLowerCase(r);
  }

  /** A non-empty name made of lower-case letters and underscores is left
      unchanged by validation. */
  lemma PlainNameValid(name: string)
    requires name != [] && forall c | c in name :: IsLower(c) || c == '_'
    ensures ValidateString(name) == name
  {
    assert name[0] in name && name[|name| - 1] in name;
    StripTrimmed(name);
    LowerOfLowerCase(name);
  }

  /** Every key of the endpoint table is already normalised, so it names its
      own endpoint. */
  lemma EndpointKeyValid(name: string)
    requires name in Endpoints
    ensures ValidateString(name) == name
  {
    if name == "general" || name == "federal_awards" {
      KeysValid1(name);
    } else if name == "additional_eins" || name == "additional_ueis" {
      KeysValid2(name);
    } else if name == "corrective_action_plans" || name == "findings" {
      KeysValid3(name);
    } else if name == "findings_text" || name == "notes_to_sefa" {
      KeysValid4(name);
    } else {
      KeysValid5(name);
    }
  }

  lemma KeysValid1(name: string)
    requires name == "general" || name == "federal_awards"
    ensures ValidateString(name) == name
  {
    if name == "general" { PlainNameValid("general"); } else { PlainNameValid("federal_awards"); }
  }

  lemma KeysValid2(name: string)
    requires name == "additional_eins" || name == "additional_ueis"
    ensures ValidateString(name) == name
  {
    if name == "additional_eins" { PlainNameValid("additional_eins"); } else { PlainNameValid("additional_ueis"); }
  }

  lemma KeysValid3(name: string)
    requires name == "corrective_action_plans" || name == "findings"
    ensures ValidateString(name) == name
  {
    if name == "findings" { PlainNameValid("findings"); } else { PlainNameValid("corrective_action_plans"); }
  }

  lemma KeysValid4(name: string)
    requires name == "findings_text" || name == "notes_to_sefa"
    ensures ValidateString(name) == name
  {
    if name == "findings_text" { PlainNameValid("findings_text"); } else { PlainNameValid("notes_to_sefa"); }
  }

  lemma KeysValid5(name: string)
    requires name == "passthrough" || name == "secondary_auditors"
    ensures ValidateString(name) == name
  {
    if name == "passthrough" { PlainNameValid("passthrough"); } else { PlainNameValid("secondary_auditors"); }
  }

  /** `str(e)` of an APIError, as the source words it. */
  function Message(r: ApiReason): string {
    match r
    case InvalidJson(name, d) => "Invalid JSON response from " + name + ": " + d
    case AuthFailed => AuthFailedMessage
    case RateLimited => RateLimitMessage
    case NotFound(name) => "Endpoint not found: " + name
    case HttpStatus(code, name, d) => "HTTP " + IntToString(code) + " error for " + name + ": " + d
    case ConnectFailed(d) => ConnectPrefix + d
    case Timeout(name, d) => "Request timeout for " + name + ": " + d
    case RequestFailed(name, d) => "Request failed for " + name + ": " + d
    case GeneralFailed(cause) => "Failed to get general records: " + cause
  }

  /** Python's `str(e)` for each failure, as the source words it. */
  function Describe(f: Failure): string {
    match f
    case ApiError(r) => Message(r)
    case UnknownEndpoint(n) => "Unknown endpoint: '" + n + "'. Available: " + Join(EndpointNames, ", ")
    case ColumnsNotList(t) => "columns must be a list, got " + t + "."
    case DivisionByZero => "integer division or modulo by zero"
    case SleepOverflow(d) => d
  }

  /** What the loop does with one answer: finish with a reply, or go round
      again, possibly after sleeping. */
  datatype Step = Finish(reply: Reply<seq<Record>>) | Again(pause: Option<Delay>)

  /** The body of the `while True` loop for one answer, `name` being the
      normalised endpoint name. */
  function Handle(name: string, o: Outcome, handle429: bool): Step {
    match o
    case Success(JsonList(rs)) => Finish(Returned(rs))
    case Success(JsonOther) => Finish(Returned([]))
    case Success(NotJson(d)) => Finish(Raised(ApiError(InvalidJson(name, d))))
    case ErrorStatus(code, hint, d) =>
      if code == 401 then Finish(Raised(ApiError(AuthFailed)))
      else if code == 429 then
        if !handle429 then Finish(Raised(ApiError(RateLimited)))
        else if hint.Wait? then Again(Some(hint.delay))
        else if hint.TooLong? then Finish(Raised(SleepOverflow(hint.detail)))
        else Again(None)
      else if code == 404 then Finish(Raised(ApiError(NotFound(name))))
      else Finish(Raised(ApiError(HttpStatus(code, name, d))))
    case ConnectionFailure(d) => Finish(Raised(ApiError(ConnectFailed(d))))
    case TimedOut(d) => Finish(Raised(ApiError(Timeout(name, d))))
    case RequestFailure(d) => Finish(Raised(ApiError(RequestFailed(name, d))))
  }

  /** What one run of the request loop did: its reply, how many answers of
      the script it consumed (one request per answer) and the sleeps it made. */
  datatype Exchange = Exchange(reply: Reply<seq<Record>>, used: nat, waits: seq<Delay>)

  /** The request loop of `_make_request` run against `script`. */
  function Converse(name: string, script: seq<Outcome>, handle429: bool): (x: Exchange)
    ensures x.used <= |script|
    ensures x.reply.Stalled? ==> x.used == |script|
    ensures !x.reply.Stalled? ==> x.used >= 1
    ensures |x.waits| <= x.used
    ensures !x.reply.Stalled? ==> |x.waits| < x.used
    ensures !handle429 ==> x.waits == [] && x.used == if script == [] then 0 else 1
    decreases |script|
  {
    if script == [] then Exchange(Stalled, 0, [])
    else match Handle(name, script[0], handle429)
      case Finish(r) => Exchange(r, 1, [])
      case Again(p) =>
        var rest := Converse(name, script[1..], handle429);
        Exchange(rest.reply, rest.used + 1, (if p.Some? then [p.value] else []) + rest.waits)
  }

  function EndpointUrl(name: string): string
    requires name in Endpoints
  {
    BaseUrl + Endpoints[name]
  }

  /** The URLs of the two endpoints the client's own queries use. */
  const GeneralUrl := BaseUrl + "/general"
  const AwardsUrl := BaseUrl + "/federal_awards"

  lemma QueryUrls()
    ensures EndpointUrl("general") == GeneralUrl
    ensures EndpointUrl("federal_awards") == AwardsUrl
  {
  }

  /** The request loop of `_make_request` against endpoint `name`, whose
      URL `url` is built once before the loop: it consumes a prefix of the
      script, sends one GET of `url` with `params` per answer consumed, only
      appends to the sleep log, and stalls only once the script is
      exhausted. */
  function RequestLoop(name: string, url: string, params: Params, handle429: bool, env: Env): (c: Call)
    ensures var k := |env.script| - |c.env.script|;
      && 0 <= k && c.env.script == env.script[k..]
      && c.env.sent == env.sent + Repeat(Request(url, params), k)
      && (c.reply.Stalled? ==> c.env.script == [])
      && (!c.reply.Stalled? ==> k >= 1)
    ensures |c.env.slept| >= |env.slept| && c.env.slept[..|env.slept|] == env.slept
  {
    var x := Converse(name, env.script, handle429);
    Call(x.reply, Env(env.script[x.used..],
                      env.sent + Repeat(Request(url, params), x.used),
                      env.slept + x.waits))
  }

  /** `_make_request(endpoint_name, params, handle_429)` against `env`: an
      unknown name raises ValueError and touches nothing; a known one, in any
      casing and padding, runs the request loop on its normalised form. */
  function Fetch(endpointName: string, params: Params, handle429: bool, env: Env): (c: Call)
    ensures ValidateString(endpointName) !in Endpoints ==>
              c == Call(Raised(UnknownEndpoint(ValidateString(endpointName))), env)
    ensures ValidateString(endpointName) in Endpoints ==>
              c == RequestLoop(ValidateString(endpointName), EndpointUrl(ValidateString(endpointName)),
                               params, handle429, env)
  {
    var name := ValidateString(endpointName);
    if name !in Endpoints then Call(Raised(UnknownEndpoint(name)), env)
    else RequestLoop(name, EndpointUrl(name), params, handle429, env)
  }

  /** A 429 answer whose `Retry-After` the loop can ride out. */
  predicate Limited(o: Outcome) {
    o.ErrorStatus? && o.code == 429 && !o.retryAfter.TooLong?
  }

  /** An answer that ends the loop at once (anything but a 429 the caller
      asked to ride out). */
  predicate Final(o: Outcome, handle429: bool) {
    !(handle429 && Limited(o))
  }

  predicate AllRateLimited(os: seq<Outcome>) {
    forall o | o in os :: Limited(o)
  }

  /** A script without a single 429 answer. */
  predicate NoLimits(script: seq<Outcome>) {
    forall o | o in script :: !(o.ErrorStatus? && o.code == 429)
  }

  /** What the request loop raises for a known endpoint: APIError, or the
      OverflowError of sleeping out a `Retry-After` too long for
      `time.sleep`, which no `except` of the core catches. */
  predicate LoopFailure(f: Failure) {
    f.ApiError? || f.SleepOverflow?
  }

  /** The waits announced by a run of 429 answers: one per usable hint. */
  function Hints(os: seq<Outcome>): (ws: seq<Delay>)
    ensures |ws| <= |os|
  {
    if os == [] then []
    else (if os[0].ErrorStatus? && os[0].retryAfter.Wait? then [os[0].retryAfter.delay] else [])
         + Hints(os[1..])
  }

  /** The outcome-by-outcome classification: a list body comes back
      unchanged; any other JSON becomes `[]`; every other answer raises
      APIError with the source's message, after exactly one request and no
      sleep -- a 429 included when the caller did not opt in. */
  lemma FirstAnswerDecides(name: string, o: Outcome, rest: seq<Outcome>, handle429: bool)
    requires Final(o, handle429)
    ensures var x := Converse(name, [o] + rest, handle429);
      && x.used == 1 && x.waits == []
      && (o.Success? && o.body.JsonList? ==> x.reply == Returned(o.body.records))
      && (o.Success? && o.body.JsonOther? ==> x.reply == Returned([]))
      && (o.Success? && o.body.NotJson? ==> x.reply == Raised(ApiError(InvalidJson(name, o.body.detail))))
      && (o.ErrorStatus? && o.code == 401 ==> x.reply == Raised(ApiError(AuthFailed)))
      && (o.ErrorStatus? && o.code == 429 && !handle429 ==> x.reply == Raised(ApiError(RateLimited)))
      && (o.ErrorStatus? && o.code == 429 && handle429 ==>
            o.retryAfter.TooLong? && x.reply == Raised(SleepOverflow(o.retryAfter.detail)))
      && (o.ErrorStatus? && o.code == 404 ==> x.reply == Raised(ApiError(NotFound(name))))
      && (o.ErrorStatus? && o.code !in {401, 404, 429} ==>
            x.reply == Raised(ApiError(HttpStatus(o.code, name, o.detail))))
      && (o.ConnectionFailure? ==> x.reply == Raised(ApiError(ConnectFailed(o.detail))))
      && (o.TimedOut? ==> x.reply == Raised(ApiError(Timeout(name, o.detail))))
      && (o.RequestFailure? ==> x.reply == Raised(ApiError(RequestFailed(name, o.detail))))
  {
    assert ([o] + rest)[0] == o;
  }

  /** With `handle_429` set, any number of 429 answers whose `Retry-After`
      is not too large to sleep is ridden out: each one with a usable
      `Retry-After` costs exactly that sleep, one without costs none, and the first other answer decides the reply as if it had
      come first. There is no cap on the number of attempts. */
  lemma {:induction false} RateLimitedThenAnswer(name: string, limited: seq<Outcome>, o: Outcome, rest: seq<Outcome>)
    requires AllRateLimited(limited)
    requires Final(o, true)
    ensures var x := Converse(name, limited + [o] + rest, true);
      && x.reply == Converse(name, [o] + rest, true).reply
      && x.used == |limited| + 1
      && x.waits == Hints(limited)
  {
    if limited == [] {
      assert limited + [o] + rest == [o] + rest;
    } else {
      var s := limited + [o] + rest;
      assert s[0] == limited[0] && s[0] in limited;
      assert s[1..] == limited[1..] + [o] + rest;
      RateLimitedThenAnswer(name, limited[1..], o, rest);
    }
  }

  /** A script of nothing but 429 answers (none with a `Retry-After` too
      large to sleep) never lets a `handle_429` call return: it consumes the whole script and sleeps once per usable hint. */
  lemma {:induction false} RateLimitedForever(name: string, limited: seq<Outcome>)
    requires AllRateLimited(limited)
    ensures var x := Converse(name, limited, true);
      x.reply == Stalled && x.used == |limited| && x.waits == Hints(limited)
  {
    if limited != [] {
      assert limited[0] in limited;
      RateLimitedForever(name, limited[1..]);
    }
  }

  /** Without a 429 answer the loop never sleeps: the first answer ends
      it. */
  lemma ConverseQuiet(name: string, script: seq<Outcome>, handle429: bool)
    requires NoLimits(script)
    ensures var x := Converse(name, script, handle429);
      x.waits == [] && x.used == if script == [] then 0 else 1
  {
    if script != [] {
      assert script[0] in script;
    }
  }

  /** A suffix of a script without 429 answers has none either. */
  lemma NoLimitsSuffix(script: seq<Outcome>, k: nat)
    requires NoLimits(script) && k <= |script|
    ensures NoLimits(script[k..])
  {
    forall o | o in script[k..] ensures o in script {
      var i :| 0 <= i < |script[k..]| && script[k..][i] == o;
      assert script[k + i] == o;
    }
  }

  /** A key of the endpoint table, passed as the endpoint name, reaches its
      own endpoint. */
  lemma FetchKnown(name: string, params: Params, handle429: bool, env: Env)
    requires name in Endpoints
    ensures Fetch(name, params, handle429, env) == RequestLoop(name, EndpointUrl(name), params, handle429, env)
  {
    EndpointKeyValid(name);
  }

  /** An unknown endpoint name is rejected with ValueError before any
      request is issued or any answer consumed; a known one in any casing
      and padding reaches its endpoint. */
  lemma EndpointChecked(endpointName: string, params: Params, handle429: bool, env: Env)
    ensures var c := Fetch(endpointName, params, handle429, env);
      && (ValidateString(endpointName) !in Endpoints <==> c.reply.Raised? && c.reply.failure.UnknownEndpoint?)
      && (ValidateString(endpointName) !in Endpoints ==> c.env == env)
  {
    ConverseNeverUnknown(ValidateString(endpointName), env.script, handle429);
  }

  /** The request loop raises APIError, or -- only when 429 answers are
      ridden out -- the OverflowError of a `Retry-After` too long to sleep. */
  lemma {:induction false} ConverseNeverUnknown(name: string, script: seq<Outcome>, handle429: bool)
    ensures var x := Converse(name, script, handle429);
      x.reply.Raised? ==> LoopFailure(x.reply.failure) && (x.reply.failure.SleepOverflow? ==> handle429)
    decreases |script|
  {
    if script != [] {
      ConverseNeverUnknown(name, script[1..], handle429);
    }
  }

  /** `"Failed to connect" in str(e) or "Failed to resolve" in str(e) or
      "NameResolutionError" in str(e)`. */
  predicate IsNetworkError(message: string) {
    || Contains(message, "Failed to connect")
    || Contains(message, "Failed to resolve")
    || Contains(message, "NameResolutionError")
  }

  /** A connection failure always reads as a network error. */
  lemma ConnectionFailureIsNetworkError(detail: string)
    ensures IsNetworkError(Message(ConnectFailed(detail)))
  {
    var m := ConnectPrefix + detail;
    ConnectPrefixStarts();
    assert m[..17] == ConnectPrefix[..17];
    assert OccursAt(m, "Failed to connect", 0);
  }

  lemma ConnectPrefixStarts()
    ensures ConnectPrefix[..17] == "Failed to connect"
  {
  }

  /** A message made of a prefix without `F` or `N` and a detail reads as a
      network error exactly when the detail does. */
  lemma NetworkErrorInDetail(prefix: string, detail: string)
    requires 'F' !in prefix && 'N' !in prefix
    ensures IsNetworkError(prefix + detail) <==> IsNetworkError(detail)
  {
    ContainsAfterForeignPrefix(prefix, detail, "Failed to connect");
    ContainsAfterForeignPrefix(prefix, detail, "Failed to resolve");
    ContainsAfterForeignPrefix(prefix, detail, "NameResolutionError");
  }

  /** A message without `F` or `N` never reads as a network error. */
  lemma FixedMessageNotNetwork(message: string)
    requires 'F' !in message && 'N' !in message
    ensures !IsNetworkError(message)
  {
    NetworkErrorInDetail(message, "");
    assert message + "" == message;
  }

  /** An answer that ends the loop decides the reply on its own. */
  lemma ConverseFirst(name: string, o: Outcome, rest: seq<Outcome>, handle429: bool)
    requires Final(o, handle429)
    ensures Handle(name, o, handle429).Finish?
    ensures Converse(name, [o] + rest, handle429).reply == Handle(name, o, handle429).reply
    ensures Converse(name, [o] + rest, handle429).used == 1
  {
    assert ([o] + rest)[0] == o;
  }

  /** A request whose first answer ends the loop takes the reply the loop
      gives that answer. */
  lemma LoopFirstReply(name: string, url: string, params: Params, handle429: bool, env: Env, o: Outcome,
                       rest: seq<Outcome>)
    requires env.script == [o] + rest && Final(o, handle429)
    ensures RequestLoop(name, url, params, handle429, env).reply == Handle(name, o, handle429).reply
  {
    ConverseFirst(name, o, rest, handle429);
  }

  /** ... and it sends one request, consumes that one answer and sleeps
      not at all. */
  lemma LoopFirstEnv(name: string, url: string, params: Params, handle429: bool, env: Env, o: Outcome,
                     rest: seq<Outcome>)
    requires env.script == [o] + rest && Final(o, handle429)
    ensures var c := RequestLoop(name, url, params, handle429, env);
      && c.env.script == rest
      && c.env.sent == env.sent + [Request(url, params)]
      && c.env.slept == env.slept
  {
    ConverseFirst(name, o, rest, handle429);
    assert env.script[1..] == rest;
  }

  /** The messages that name the endpoint and quote the server's detail read
      as a network error exactly when the detail does, for an endpoint name
      without `F` or `N` (every name of the table). */
  lemma TimeoutMessageNetwork(name: string, d: string)
    requires 'F' !in name && 'N' !in name
    ensures IsNetworkError(Message(Timeout(name, d))) <==> IsNetworkError(d)
  {
    NetworkErrorInDetail("Request timeout for " + name + ": ", d);
  }

  lemma RequestFailedMessageNetwork(name: string, d: string)
    requires 'F' !in name && 'N' !in name
    ensures IsNetworkError(Message(RequestFailed(name, d))) <==> IsNetworkError(d)
  {
    NetworkErrorInDetail("Request failed for " + name + ": ", d);
  }

  lemma HttpStatusMessageNetwork(code: int, name: string, d: string)
    requires 'F' !in name && 'N' !in name
    ensures IsNetworkError(Message(HttpStatus(code, name, d))) <==> IsNetworkError(d)
  {
    var digits := IntToString(code);
    IntToStringChars(code);
    assert 'F' !in digits && 'N' !in digits;
    NetworkErrorInDetail("HTTP " + digits + " error for " + name + ": ", d);
  }

  /** The invalid-JSON message reads as a network error exactly when the
      decoder's text does: its lead has no `F`, and its one `N` (in "JSON")
      is followed by a space, so "NameResolutionError" cannot start there. */
  lemma InvalidJsonMessageNetwork(name: string, d: string)
    requires 'F' !in name && 'N' !in name
    ensures IsNetworkError(Message(InvalidJson(name, d))) <==> IsNetworkError(d)
  {
    var lead := "Invalid JSON response from ";
    var p := lead + name + ": ";
    assert Message(InvalidJson(name, d)) == p + d;
    JsonLeadLetters();
    assert forall i | 0 <= i < |p| && p[i] == 'N' :: i + 1 < |p| && p[i + 1] != 'a' by {
      forall i | 0 <= i < |p|
        ensures p[i] == 'N' ==> i + 1 < |p| && p[i + 1] != 'a'
      {
        if i >= |lead| + |name| {
          assert p[i] in ": ";
        } else if i >= |lead| {
          assert p[i] == name[i - |lead|];
        } else {
          assert p[i] == lead[i];
        }
      }
    }
    ContainsAfterForeignPrefix(p, d, "Failed to connect");
    ContainsAfterForeignPrefix(p, d, "Failed to resolve");
    ContainsAfterGuardedPrefix(p, d, "NameResolutionError");
  }

  /** The lead of the invalid-JSON message has no `F`, and its only `N` is
      the one at index 11, followed by a space. */
  lemma JsonLeadLetters()
    ensures 'F' !in "Invalid JSON response from "
    ensures forall i | 0 <= i < 27 && "Invalid JSON response from "[i] == 'N' :: i == 11
    ensures |"Invalid JSON response from "| == 27 && "Invalid JSON response from "[12] == ' '
  {
  }

  /** The fixed messages never read as a network error. */
  lemma AuthFailedNotNetwork()
    ensures !IsNetworkError(Message(AuthFailed))
  {
    FixedMessageNotNetwork(AuthFailedMessage);
  }

  lemma NotFoundNotNetwork(name: string)
    requires 'F' !in name && 'N' !in name
    ensures !IsNetworkError(Message(NotFound(name)))
  {
    FixedMessageNotNetwork("Endpoint not found: " + name);
  }

  /** With 429 answers ridden out (as the batch phase does), against an
      endpoint whose name has no `F` or `N` (every name of the table),
      every answer that ends the loop raises APIError, except a 429 whose
      `Retry-After` is too long to sleep, which raises OverflowError; the
      APIError
      reads as a network error always for a connection failure, never for
      a 401 or a 404, and for any other HTTP error, a time-out, another
      request failure or a body that is not JSON exactly when the
      exception's own detail text does. So
      time-outs and HTTP errors are not network errors by kind. */
  lemma HandleNetworkErrors(name: string, o: Outcome)
    requires 'F' !in name && 'N' !in name
    requires Final(o, true)
    ensures var r := Handle(name, o, true).reply;
      && (r.Raised? ==> r.failure.ApiError? || (o.ErrorStatus? && o.code == 429))
      && (o.ErrorStatus? && o.code == 429 ==> r == Raised(SleepOverflow(o.retryAfter.detail)))
      && (o.ConnectionFailure? ==> r.Raised? && IsNetworkError(Message(r.failure.reason)))
      && (o.ErrorStatus? && o.code in {401, 404} ==>
            r.Raised? && !IsNetworkError(Message(r.failure.reason)))
      && ((o.ErrorStatus? && o.code !in {401, 404, 429}) || o.TimedOut? || o.RequestFailure? ==>
            r.Raised? && (IsNetworkError(Message(r.failure.reason)) <==> IsNetworkError(o.detail)))
      && (o.Success? && o.body.NotJson? ==>
            r.Raised? && (IsNetworkError(Message(r.failure.reason)) <==> IsNetworkError(o.body.detail)))
  {
    match o
    case Success(b) =>
      if b.NotJson? { InvalidJsonMessageNetwork(name, b.detail); }
    case ErrorStatus(code, _, d) =>
      if code == 401 { AuthFailedNotNetwork(); }
      else if code == 404 { NotFoundNotNetwork(name); }
      else if code != 429 { HttpStatusMessageNetwork(code, name, d); }
    case ConnectionFailure(d) =>
      ConnectionFailureIsNetworkError(d);
    case TimedOut(d) =>
      TimeoutMessageNetwork(name, d);
    case RequestFailure(d) =>
      RequestFailedMessageNetwork(name, d);
  }
}
