/**
 * The request dispatcher (`get_ai_response`) with the network abstracted away: the outcome of
 * each HTTP attempt is an input, and so are the clock readings. The decision logic (key check,
 * cooldown check, context window, the three-attempt retry loop and the mapping of errors to
 * replies) is modelled as written.
 */
module Dispatcher {
  import opened Wrappers
  import opened Text

  // ---------------------------------------------------------------------------------------
  // The API key (get_gemini_key)
  // ---------------------------------------------------------------------------------------

  const Placeholder: string := "your-gemini-api-key-here"

  /**
   * Where the key is looked up: the secrets store (None when there is no secrets file, so that
   * reading it raises) and the process environment.
   */
  datatype KeySources = KeySources(secrets: Option<map<string, string>>, env: map<string, string>)

  /** `m.get(k)` read as a truth value: the empty string when the key is absent. */
  function Lookup(m: map<string, string>, k: string): string
  {
    if k in m then m[k] else ""
  }

  /** `m.get("GEMINI_API_KEY") or m.get("GOOGLE_API_KEY")`. */
  function EitherKey(m: map<string, string>): string
  {
    if Lookup(m, "GEMINI_API_KEY") != "" then Lookup(m, "GEMINI_API_KEY") else Lookup(m, "GOOGLE_API_KEY")
  }

  /** The key the dispatcher uses: the secrets store first, then the environment, stripped. */
  function GeminiKey(src: KeySources): (key: string)
    ensures Strip(key) == key
  {
    var fromSecrets := if src.secrets.Some? then EitherKey(src.secrets.value) else "";
    if fromSecrets != "" then StripIdempotent(fromSecrets); Strip(fromSecrets)
    else StripIdempotent(EitherKey(src.env)); Strip(EitherKey(src.env))
  }

  /** The order in which the key sources are consulted. */
  lemma KeyPrecedence(src: KeySources)
    ensures src.secrets.Some? && Lookup(src.secrets.value, "GEMINI_API_KEY") != "" ==>
      GeminiKey(src) == Strip(src.secrets.value["GEMINI_API_KEY"])
    ensures src.secrets.Some? && Lookup(src.secrets.value, "GEMINI_API_KEY") == ""
              && Lookup(src.secrets.value, "GOOGLE_API_KEY") != "" ==>
      GeminiKey(src) == Strip(src.secrets.value["GOOGLE_API_KEY"])
    ensures src.secrets.None? || EitherKey(src.secrets.value) == "" ==>
      GeminiKey(src) == Strip(EitherKey(src.env))
  {
    var fromSecrets := if src.secrets.Some? then EitherKey(src.secrets.value) else "";
    assert src.secrets.Some? ==> fromSecrets == EitherKey(src.secrets.value);
  }

  /**
   * A secret made only of whitespace is truthy, so it is chosen, and it strips to nothing:
   * the key is then missing even when the environment holds one.
   */
  lemma BlankSecretShadowsEnvironment(src: KeySources)
    requires src.secrets.Some? && Lookup(src.secrets.value, "GEMINI_API_KEY") != ""
    requires Blank(src.secrets.value["GEMINI_API_KEY"])
    ensures GeminiKey(src) == ""
  {
    StripEmptyIffBlank(src.secrets.value["GEMINI_API_KEY"]);
  }

  /** The key is usable: present and not the placeholder of the sample secrets file. */
  predicate Configured(key: string)
  {
    key != "" && key != Placeholder
  }

  // ---------------------------------------------------------------------------------------
  // The request contents
  // ---------------------------------------------------------------------------------------

  /** How many earlier chat turns go into the request. */
  const HistoryWindow: nat := 5

  /** One stored chat turn; the application stores the roles "user" and "bot". */
  datatype ChatMessage = ChatMessage(role: string, text: string, time: string)

  /** One entry of the request's `contents`. */
  datatype Content = Content(role: string, text: string)

  /** Python's `s[-n:]`: the last `n` elements, or all of them when there are fewer. */
  function LastN<T>(s: seq<T>, n: nat): (r: seq<T>)
    ensures |r| == if |s| <= n then |s| else n
    ensures r == s[|s| - |r|..]
  {
    if |s| <= n then s else s[|s| - n..]
  }

  /** The role a stored turn is sent with: "user" stays, anything else becomes "model". */
  function RoleFor(role: string): string
  {
    if role == "user" then "user" else "model"
  }

  function ToContent(m: ChatMessage): Content
  {
    Content(RoleFor(m.role), m.text)
  }

  function ToContents(ms: seq<ChatMessage>): (cs: seq<Content>)
    ensures |cs| == |ms|
    ensures forall i :: 0 <= i < |ms| ==> cs[i] == ToContent(ms[i])
  {
    if ms == [] then [] else [ToContent(ms[0])] + ToContents(ms[1..])
  }

  /**
   * The request's `contents`: the most recent turns, oldest first, then the new message as the
   * final user entry.
   */
  function BuildContents(history: seq<ChatMessage>, userMessage: string): (cs: seq<Content>)
    ensures |cs| == (if |history| <= HistoryWindow then |history| else HistoryWindow) + 1
    ensures cs[|cs| - 1] == Content("user", userMessage)
    ensures forall i :: 0 <= i < |cs| - 1 ==> cs[i] == ToContent(history[|history| - (|cs| - 1) + i])
    ensures forall i :: 0 <= i < |cs| ==> cs[i].role == "user" || cs[i].role == "model"
  {
    ToContents(LastN(history, HistoryWindow)) + [Content("user", userMessage)]
  }

  // ---------------------------------------------------------------------------------------
  // Attempts, replies and the retry loop
  // ---------------------------------------------------------------------------------------

  const MaxAttempts: nat := 3

  /** The length of a cooldown, in seconds. */
  const CooldownSeconds: real := 45.0

  /** What the body of a response with a non-error status turns out to be. */
  datatype Body =
    | NotJson(detail: string)          // r.json() raises a decode error, a request exception
    | NotObject(detail: string)        // the JSON is not shaped as expected, so a .get raises
    | Json(firstText: Option<string>)  // candidates[0].content.parts[0].text, when all are present

  /** The outcome of one `requests.post` attempt. */
  datatype Outcome =
    | Timeout
    | ConnectionError
    | OtherRequestError(detail: string)
    | Status(code: nat, errorText: string, body: Body)  // errorText: what raise_for_status would say

  /** The value `get_ai_response` returns; Message() gives the text shown to the user. */
  datatype Reply =
    | NotConfigured
    | CoolingDown(seconds: nat)
    | TimedOutAfterRetries
    | NetworkIssue
    | RateLimited
    | ModelUnavailable
    | EmptyResponse
    | Answer(text: string)
    | Busy
    | TimedOut
    | Unreachable
    | InvalidKey
    | Unauthorised
    | RateLimitedAfterError
    | ApiError(code: nat, detail: string)
    | RequestError(detail: string)
    | UnexpectedError(detail: string)
  {
    function Message(): string
    {
      match this
      case NotConfigured =>
        "\U{26A0}\U{FE0F} **Gemini API Key not configured.**\n\n"
        + "Edit `.streamlit/secrets.toml` and set:\n"
        + "```\nGEMINI_API_KEY = 'your-real-key'\n```\n"
        + "Get a free key at **aistudio.google.com**"
      case CoolingDown(s) => "\U{23F3} Gemini is rate-limited. Please wait about " + NatToString(s) + "s and try again."
      case TimedOutAfterRetries => "\U{23F1}\U{FE0F} Request timed out after retries. Please try again in a few seconds."
      case NetworkIssue => "\U{1F310} Network connection issue to Gemini API. Check internet/VPN and try again."
      case RateLimited => "\U{23F3} Gemini rate limit hit (429). Please wait 20-60 seconds and try again."
      case ModelUnavailable => "\U{26A0}\U{FE0F} Model `gemini-3-flash-preview` not available for this API key/project."
      case EmptyResponse => "\U{26A0}\U{FE0F} Gemini returned an empty response. Please try again."
      case Answer(t) => t
      case Busy => "\U{23F3} Gemini is busy right now. Please try again in a minute."
      case TimedOut => "\U{23F1}\U{FE0F} Request timed out. Please try again."
      case Unreachable => "\U{1F310} Unable to reach Gemini API right now. Please check internet and retry."
      case InvalidKey => "\U{26A0}\U{FE0F} Invalid API key. Check your secrets.toml."
      case Unauthorised => "\U{1F512} API key unauthorised. Visit aistudio.google.com."
      case RateLimitedAfterError => "\U{23F3} Rate limit hit (429). Please wait ~45s and retry."
      case ApiError(c, d) => "\U{274C} API error " + NatToString(c) + ": " + Truncate(d)
      case RequestError(d) => "\U{274C} Network/API request error: " + Truncate(d)
      case UnexpectedError(d) => "\U{274C} Error: " + Truncate(d)
    }

    /** The two replies that come with a new cooldown. */
    predicate SetsCooldown()
    {
      RateLimited? || RateLimitedAfterError?
    }
  }

  /** Python's `s[:100]`. */
  function Truncate(s: string): (r: string)
    ensures |r| == if |s| <= 100 then |s| else 100
    ensures r == s[..|r|]
  {
    if |s| <= 100 then s else s[..100]
  }

  /** An exception that leaves the retry loop and reaches the outer handlers. */
  datatype Failure =
    | TimeoutExc
    | ConnectionExc
    | HttpErrorExc(code: nat, text: string)
    | RequestExc(detail: string)
    | OtherExc(detail: string)

  /** What one iteration of the retry loop does: go round again, return, or raise. */
  datatype Step = Retry | Done(reply: Reply) | Raised(failure: Failure)

  /** True when `raise_for_status` raises for this status. */
  predicate IsHttpError(code: nat)
  {
    400 <= code < 600
  }

  /** The reply for a successful response body. */
  function SuccessReply(body: Body): (s: Step)
    ensures !s.Retry?
    ensures s.Done? ==> s.reply.Answer? || s.reply == EmptyResponse
  {
    match body
    case NotJson(d) => Raised(RequestExc(d))
    case NotObject(d) => Raised(OtherExc(d))
    case Json(t) =>
      if t.Some? && t.value != "" && Strip(t.value) != "" then Done(Answer(Strip(t.value)))
      else Done(EmptyResponse)
  }

  /** Iteration `attempt` (counting from 0) of the loop, given the outcome of its request. */
  function AttemptStep(attempt: nat, o: Outcome): (s: Step)
    ensures s.Retry? <==> attempt < MaxAttempts - 1 && (o.Timeout? || o.ConnectionError? || (o.Status? && o.code == 429))
  {
    var more := attempt < MaxAttempts - 1;
    match o
    case Timeout => if more then Retry else Done(TimedOutAfterRetries)
    case ConnectionError => if more then Retry else Done(NetworkIssue)
    case OtherRequestError(d) => Raised(RequestExc(d))
    case Status(code, text, body) =>
      if code == 429 then (if more then Retry else Done(RateLimited))
      else if code == 404 then Done(ModelUnavailable)
      else if IsHttpError(code) then Raised(HttpErrorExc(code, text))
      else SuccessReply(body)
  }

  /** How the loop ends, and how many requests it made. */
  datatype LoopExit = LoopExit(step: Step, attempts: nat)

  /** The loop run from iteration `i` on. */
  function RunFrom(net: seq<Outcome>, i: nat): LoopExit
    requires |net| == MaxAttempts && i <= MaxAttempts
    decreases MaxAttempts - i
  {
    if i == MaxAttempts then LoopExit(Done(Busy), i)
    else
      var s := AttemptStep(i, net[i]);
      if s.Retry? then RunFrom(net, i + 1) else LoopExit(s, i + 1)
  }

  /** The retry loop of `get_ai_response`: up to three requests, `net[i]` the outcome of the i-th. */
  method RunAttempts(net: seq<Outcome>) returns (exit: LoopExit)
    requires |net| == MaxAttempts
    ensures exit == RunFrom(net, 0)
  {
    var attempt := 0;
    while attempt < MaxAttempts
      invariant 0 <= attempt <= MaxAttempts
      invariant RunFrom(net, attempt) == RunFrom(net, 0)
    {
      var s := AttemptStep(attempt, net[attempt]);
      if !s.Retry? {
        return LoopExit(s, attempt + 1);
      }
      attempt := attempt + 1;
    }
    return LoopExit(Done(Busy), attempt);
  }

  /** The outer exception handlers. */
  function Handle(s: Step): (r: Reply)
    requires !s.Retry?
    ensures s.Done? ==> r == s.reply
    ensures s.Raised? ==> (r.SetsCooldown() <==> s.failure.HttpErrorExc? && s.failure.code == 429)
    ensures s.Raised? ==> !r.Answer? && !r.Busy? && !r.EmptyResponse?
  {
    match s
    case Done(r) => r
    case Raised(f) =>
      match f
      case TimeoutExc => TimedOut
      case ConnectionExc => Unreachable
      case HttpErrorExc(code, text) =>
        if code == 400 then InvalidKey
        else if code == 403 then Unauthorised
        else if code == 429 then RateLimitedAfterError
        else ApiError(code, text)
      case RequestExc(d) => RequestError(d)
      case OtherExc(d) => UnexpectedError(d)
  }

  /** The result of one call: the reply, the number of requests made and the contents sent, if any. */
  datatype Dispatch = Dispatch(reply: Reply, attempts: nat, request: Option<seq<Content>>)

  /** The seconds shown while cooling down: `max(int(retryAfter - now), 1)`. */
  function WaitSeconds(now: real, retryAfter: real): (w: nat)
    ensures w >= 1
    ensures retryAfter - now >= 1.0 ==> w as real <= retryAfter - now < w as real + 1.0
    ensures retryAfter - now < 1.0 ==> w == 1
  {
    var w := (retryAfter - now).Floor;
    if w >= 1 then w else 1
  }

  /** `get_ai_response` as a function of its inputs, the clock and the outcomes of the requests. */
  function Respond(key: string, now: real, retryAfter: real, userMessage: string,
                   history: seq<ChatMessage>, net: seq<Outcome>): (d: Dispatch)
    requires |net| == MaxAttempts
    ensures d.attempts <= MaxAttempts
    ensures d.request.Some? ==> |d.request.value| <= HistoryWindow + 1
  {
    if !Configured(key) then Dispatch(NotConfigured, 0, None)
    else if now < retryAfter then Dispatch(CoolingDown(WaitSeconds(now, retryAfter)), 0, None)
    else
      var exit := RunFrom(net, 0);
      RunEnds(net, 0);
      Dispatch(Handle(exit.step), exit.attempts, Some(BuildContents(history, userMessage)))
  }

  // ---------------------------------------------------------------------------------------
  // What the dispatcher guarantees
  // ---------------------------------------------------------------------------------------

  /**
   * The loop makes between one and three requests, always leaves with a return or an
   * exception, never falls through to "busy", and never lets a timeout, a connection error or
   * a 429 escape to the outer handlers.
   */
  lemma {:induction false} RunEnds(net: seq<Outcome>, i: nat)
    requires |net| == MaxAttempts && i < MaxAttempts
    ensures var e := RunFrom(net, i);
      && i < e.attempts <= MaxAttempts
      && !e.step.Retry?
      && e.step != Done(Busy)
      && e.step != Raised(TimeoutExc) && e.step != Raised(ConnectionExc)
      && !(e.step.Raised? && e.step.failure.HttpErrorExc? && e.step.failure.code == 429)
    decreases MaxAttempts - i
  {
    if AttemptStep(i, net[i]).Retry? {
      RunEnds(net, i + 1);
    }
  }

  /** The first iteration that does not retry decides the result, after exactly that many requests. */
  lemma {:induction false} FirstDecisiveAttempt(net: seq<Outcome>, i: nat, k: nat)
    requires |net| == MaxAttempts && i <= k < MaxAttempts
    requires forall j :: i <= j < k ==> AttemptStep(j, net[j]).Retry?
    requires !AttemptStep(k, net[k]).Retry?
    ensures RunFrom(net, i) == LoopExit(AttemptStep(k, net[k]), k + 1)
    decreases k - i
  {
    if i < k {
      FirstDecisiveAttempt(net, i + 1, k);
    }
  }

  /** No request is made exactly when the key is unusable or the cooldown has not passed. */
  lemma ShortCircuit(key: string, now: real, retryAfter: real, userMessage: string,
                     history: seq<ChatMessage>, net: seq<Outcome>)
    requires |net| == MaxAttempts
    ensures var d := Respond(key, now, retryAfter, userMessage, history, net);
      && (d.attempts == 0 <==> !Configured(key) || now < retryAfter)
      && (d.attempts == 0 <==> d.request.None?)
      && (!Configured(key) ==> d.reply == NotConfigured)
      && (Configured(key) && now < retryAfter ==> d.reply.CoolingDown? && d.reply.seconds >= 1)
  {
    if Configured(key) && !(now < retryAfter) {
      RunEnds(net, 0);
    }
  }

  /** The fall-through "busy" reply and the outer timeout, connection and 429 replies are unreachable. */
  lemma UnreachableReplies(key: string, now: real, retryAfter: real, userMessage: string,
                           history: seq<ChatMessage>, net: seq<Outcome>)
    requires |net| == MaxAttempts
    ensures var r := Respond(key, now, retryAfter, userMessage, history, net).reply;
      !r.Busy? && !r.TimedOut? && !r.Unreachable? && !r.RateLimitedAfterError?
  {
    if Configured(key) && !(now < retryAfter) {
      RunEnds(net, 0);
    }
  }

  /** Every attempt's outcome is the same. */
  ghost predicate AllSame(net: seq<Outcome>, o: Outcome)
  {
    forall i :: 0 <= i < |net| ==> net[i] == o
  }

  /** Three timeouts: three requests, then the timeout diagnostic. */
  lemma AllTimeouts(net: seq<Outcome>)
    requires |net| == MaxAttempts && AllSame(net, Timeout)
    ensures RunFrom(net, 0) == LoopExit(Done(TimedOutAfterRetries), 3)
  {
    FirstDecisiveAttempt(net, 0, 2);
  }

  /** Three connection errors: three requests, then the network diagnostic. */
  lemma AllConnectionErrors(net: seq<Outcome>)
    requires |net| == MaxAttempts && AllSame(net, ConnectionError)
    ensures RunFrom(net, 0) == LoopExit(Done(NetworkIssue), 3)
  {
    FirstDecisiveAttempt(net, 0, 2);
  }

  /** Three 429 responses: three requests, then the rate-limit reply (which sets the cooldown). */
  lemma AllRateLimited(net: seq<Outcome>)
    requires |net| == MaxAttempts
    requires forall i :: 0 <= i < |net| ==> net[i].Status? && net[i].code == 429
    ensures RunFrom(net, 0) == LoopExit(Done(RateLimited), 3)
    ensures Handle(RunFrom(net, 0).step).SetsCooldown()
  {
    FirstDecisiveAttempt(net, 0, 2);
  }

  /** A 404 ends the loop at once: no later request is made. */
  lemma NotFoundStops(net: seq<Outcome>, k: nat)
    requires |net| == MaxAttempts && k < MaxAttempts
    requires forall j :: 0 <= j < k ==> net[j] == Timeout || net[j] == ConnectionError || (net[j].Status? && net[j].code == 429)
    requires net[k].Status? && net[k].code == 404
    ensures RunFrom(net, 0) == LoopExit(Done(ModelUnavailable), k + 1)
  {
    FirstDecisiveAttempt(net, 0, k);
  }

  /** An answer is never empty and carries no surrounding whitespace. */
  lemma AnswerIsStripped(key: string, now: real, retryAfter: real, userMessage: string,
                         history: seq<ChatMessage>, net: seq<Outcome>)
    requires |net| == MaxAttempts
    ensures var r := Respond(key, now, retryAfter, userMessage, history, net).reply;
      r.Answer? ==> r.text != [] && Strip(r.text) == r.text
  {
    var r := Respond(key, now, retryAfter, userMessage, history, net).reply;
    if r.Answer? {
      RunEnds(net, 0);
      var e := RunFrom(net, 0);
      assert e.step == Done(r);
      LoopAnswerStripped(net, 0);
    }
  }

  /** A single iteration only ever answers with a non-empty stripped text. */
  lemma StepAnswerStripped(attempt: nat, o: Outcome)
    ensures var s := AttemptStep(attempt, o);
      s.Done? && s.reply.Answer? ==> s.reply.text != [] && Strip(s.reply.text) == s.reply.text
  {
    if o.Status? && o.code != 429 && o.code != 404 && !IsHttpError(o.code) {
      assert AttemptStep(attempt, o) == SuccessReply(o.body);
      if o.body.Json? && o.body.firstText.Some? {
        StripIdempotent(o.body.firstText.value);
      }
    }
  }

  /** Every answer the loop can return is a non-empty stripped text. */
  lemma {:induction false} LoopAnswerStripped(net: seq<Outcome>, i: nat)
    requires |net| == MaxAttempts && i <= MaxAttempts
    ensures var s := RunFrom(net, i).step;
      s.Done? && s.reply.Answer? ==> s.reply.text != [] && Strip(s.reply.text) == s.reply.text
    decreases MaxAttempts - i
  {
    if i < MaxAttempts {
      StepAnswerStripped(i, net[i]);
      if AttemptStep(i, net[i]).Retry? {
        LoopAnswerStripped(net, i + 1);
      }
    }
  }
}
