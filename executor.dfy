/** The rate-limit-aware request executor, `_request`, which both client
    classes define with the same body: send; while the status is 429, read
    the whole number of seconds in `Retry-After`, sleep that long and send
    again, with no cap on the number of retries; then `raise_for_status`. */
module Executor {
  import opened Common
  import opened Json
  import opened Http

  /** What one call of `_request` amounts to against a scripted server that
      is at position `pos`: its outcome, the script position after it, and
      the wait of every 429 it absorbed, in order. It sent `|delays| + 1`
      requests. */
  datatype Exchange = Exchange(result: Result<Response>, next: nat, delays: seq<nat>)

  predicate IsRateLimited(ev: Event) {
    ev.Reply? && ev.response.status == TooManyRequests
  }

  /** A 429 whose `Retry-After` holds a usable number of seconds. */
  predicate IsRetry(ev: Event) {
    IsRateLimited(ev) && RetryAfter(ev.response.headers).Ok?
  }

  /** The wait a retryable 429 asks for. */
  function Wait(ev: Event): nat
    requires IsRetry(ev)
  {
    RetryAfter(ev.response.headers).value
  }

  /** What `_request` returns or raises once an answer that is not a 429
      arrives. */
  function Answer(ev: Event): Result<Response>
    requires !IsRateLimited(ev)
  {
    match ev
    case Dropped => Err(Interrupted)
    case Reply(r) => RaiseForStatus(r)
  }

  /** The executor over the script from `pos` on. */
  function Exec(script: seq<Event>, pos: nat): (x: Exchange)
    requires pos <= |script|
    ensures pos <= x.next <= |script|
    ensures x.next == pos ==> x.result == Err(NoReply)
    ensures x.result.Ok? ==> !(400 <= x.result.value.status < 600) && x.result.value.status != TooManyRequests
    decreases |script| - pos
  {
    if pos == |script| then Exchange(Err(NoReply), pos, [])
    else
      var ev := script[pos];
      if !IsRateLimited(ev) then Exchange(Answer(ev), pos + 1, [])
      else match RetryAfter(ev.response.headers)
        case Err(e) => Exchange(Err(e), pos + 1, [])
        case Ok(seconds) =>
          var rest := Exec(script, pos + 1);
          Exchange(rest.result, rest.next, [seconds] + rest.delays)
  }

  /** `n` copies of one request: what a call that resends identically puts
      on the wire. */
  function Copies(req: Request, n: nat): (s: seq<Request>)
    ensures |s| == n
    ensures forall i | 0 <= i < n :: s[i] == req
  {
    seq(n, _ => req)
  }

  /** A run of retryable 429s followed by an answer: `_request` returns (or
      raises) that first other answer, after sleeping exactly once per 429,
      for that response's `Retry-After`, in order. */
  lemma {:induction false} ExecFirstAnswer(script: seq<Event>, pos: nat, k: nat)
    requires pos <= k < |script|
    requires forall i | pos <= i < k :: IsRetry(script[i])
    requires !IsRateLimited(script[k])
    ensures Exec(script, pos).result == Answer(script[k])
    ensures Exec(script, pos).next == k + 1
    ensures |Exec(script, pos).delays| == k - pos
    ensures forall j | 0 <= j < k - pos :: Exec(script, pos).delays[j] == Wait(script[pos + j])
    decreases k - pos
  {
    if pos < k {
      ExecFirstAnswer(script, pos + 1, k);
      var rest := Exec(script, pos + 1);
      assert Exec(script, pos).delays == [Wait(script[pos])] + rest.delays;
    }
  }

  /** A run of retryable 429s followed by a 429 whose `Retry-After` is
      missing or malformed: `_request` raises the KeyError or ValueError of
      reading it, after the earlier waits. */
  lemma {:induction false} ExecBadRetryAfter(script: seq<Event>, pos: nat, k: nat)
    requires pos <= k < |script|
    requires forall i | pos <= i < k :: IsRetry(script[i])
    requires IsRateLimited(script[k]) && RetryAfter(script[k].response.headers).Err?
    ensures Exec(script, pos).result == Err(RetryAfter(script[k].response.headers).error)
    ensures Exec(script, pos).next == k + 1
    ensures |Exec(script, pos).delays| == k - pos
    ensures forall j | 0 <= j < k - pos :: Exec(script, pos).delays[j] == Wait(script[pos + j])
    decreases k - pos
  {
    if pos < k {
      ExecBadRetryAfter(script, pos + 1, k);
      assert Exec(script, pos).delays == [Wait(script[pos])] + Exec(script, pos + 1).delays;
    }
  }

  /** With no retry cap, a server that answers nothing but retryable 429s
      keeps the executor retrying until the server falls silent; it has
      waited once for each of them. */
  lemma {:induction false} ExecOnlyRetries(script: seq<Event>, pos: nat)
    requires pos <= |script|
    requires forall i | pos <= i < |script| :: IsRetry(script[i])
    ensures Exec(script, pos).result == Err(NoReply)
    ensures Exec(script, pos).next == |script|
    ensures |Exec(script, pos).delays| == |script| - pos
    ensures forall j | 0 <= j < |script| - pos :: Exec(script, pos).delays[j] == Wait(script[pos + j])
    decreases |script| - pos
  {
    if pos < |script| {
      ExecOnlyRetries(script, pos + 1);
      assert Exec(script, pos).delays == [Wait(script[pos])] + Exec(script, pos + 1).delays;
    }
  }

  /** A 429 followed by a 200, as a server that rate-limits once would send. */
  function RateLimitedOnce(seconds: nat, ok: Response): seq<Event> {
    [Reply(Response(TooManyRequests, map[RetryAfterName := SecondsText(seconds)], JNull)), Reply(ok)]
  }

  /** `Retry-After: n` then a 200: the executor waits n seconds once and
      returns the 200 without raising. */
  lemma RetryThenSuccess(seconds: nat, ok: Response)
    requires ok.status == 200
    ensures Exec(RateLimitedOnce(seconds, ok), 0) == Exchange(Ok(ok), 2, [seconds])
  {
    var script := RateLimitedOnce(seconds, ok);
    ParseSecondsText(seconds);
    ExecFirstAnswer(script, 0, 1);
  }

  /** The requests `_request` as written puts on the wire when it sends `n`
      times: the first with `json=data` (readwise/api.py:82), every retry with
      `data=data` (readwise/api.py:87), so a retried body is form-encoded. */
  function SentAsWritten(req: Request, n: nat): (s: seq<Request>)
    ensures |s| == n
    ensures n > 0 ==> s[0] == req
    ensures forall i | 0 < i < n :: s[i] == req.(body := FormBody(req.body.data))
  {
    if n == 0 then [] else [req] + Copies(req.(body := FormBody(req.body.data)), n - 1)
  }

  /** After one 429, the retry of a JSON request is not the request first
      sent: the source changes the body encoding between the two sends. */
  lemma RetryAsWrittenChangesBody(req: Request, seconds: nat, ok: Response)
    requires req.body.JsonBody? && ok.status == 200
    ensures |Exec(RateLimitedOnce(seconds, ok), 0).delays| + 1 == 2
    ensures SentAsWritten(req, 2)[1] != SentAsWritten(req, 2)[0]
    ensures SentAsWritten(req, 2)[1].body == FormBody(req.body.data)
  {
    RetryThenSuccess(seconds, ok);
  }

  /** `_request(method, endpoint, params, data)` corrected: every retry
      resends the identical JSON request, where ExecuteAsWritten switches
      to a form body. The clients call this one.
      It returns the first answer that is not a 429, or raises what
      `raise_for_status` or reading `Retry-After` raises. */
  method Execute(env: Environment, req: Request) returns (r: Result<Response>)
    requires env.Valid()
    modifies env
    ensures env.Valid()
    ensures var x := Exec(env.script, old(env.pos));
      && r == x.result
      && env.pos == x.next
      && env.sent == old(env.sent) + Copies(req, |x.delays| + 1)
      && env.sleeps == old(env.sleeps) + x.delays
  {
    ghost var x0 := Exec(env.script, env.pos);
    ghost var at: nat := env.pos;
    ghost var waited: seq<nat> := [];
    var ev := env.Send(req);
    while ev.Some? && IsRateLimited(ev.value)
      invariant env.Valid() && at <= |env.script|
      invariant ev.Some? ==> at < |env.script| && env.pos == at + 1 && ev.value == env.script[at]
      invariant ev.None? ==> env.pos == at == |env.script|
      invariant x0 == Exchange(Exec(env.script, at).result, Exec(env.script, at).next, waited + Exec(env.script, at).delays)
      invariant env.sent == old(env.sent) + Copies(req, |waited| + 1)
      invariant env.sleeps == old(env.sleeps) + waited
      decreases |env.script| - at
    {
      var seconds := RetryAfter(ev.value.response.headers);
      if seconds.Err? {
        return Err(seconds.error);
      }
      env.Sleep(seconds.value);
      ExecRetryStep(env.script, at);
      CopiesSnoc(req, |waited| + 1);
      waited := waited + [seconds.value];
      at := at + 1;
      ev := env.Send(req);
    }
    if ev.None? {
      r := Err(NoReply);
    } else {
      r := Answer(ev.value);
    }
  }

  /** `_request` as written (readwise/api.py:59-89, and readwise/api.py:551-576
      in the Reader client): the first send passes `json=data`, every retry
      after a 429 passes `data=data`. Outcome, script position and sleeps are
      those of `Exec`; what goes on the wire is SentAsWritten. */
  method ExecuteAsWritten(env: Environment, req: Request) returns (r: Result<Response>)
    requires env.Valid()
    modifies env
    ensures env.Valid()
    ensures var x := Exec(env.script, old(env.pos));
      && r == x.result
      && env.pos == x.next
      && env.sent == old(env.sent) + SentAsWritten(req, |x.delays| + 1)
      && env.sleeps == old(env.sleeps) + x.delays
  {
    ghost var x0 := Exec(env.script, env.pos);
    ghost var at: nat := env.pos;
    ghost var waited: seq<nat> := [];
    var retry := req.(body := FormBody(req.body.data));
    var ev := env.Send(req);
    while ev.Some? && IsRateLimited(ev.value)
      invariant env.Valid() && at <= |env.script|
      invariant ev.Some? ==> at < |env.script| && env.pos == at + 1 && ev.value == env.script[at]
      invariant ev.None? ==> env.pos == at == |env.script|
      invariant x0 == Exchange(Exec(env.script, at).result, Exec(env.script, at).next, waited + Exec(env.script, at).delays)
      invariant env.sent == old(env.sent) + SentAsWritten(req, |waited| + 1)
      invariant env.sleeps == old(env.sleeps) + waited
      decreases |env.script| - at
    {
      var seconds := RetryAfter(ev.value.response.headers);
      if seconds.Err? {
        return Err(seconds.error);
      }
      env.Sleep(seconds.value);
      ExecRetryStep(env.script, at);
      SentAsWrittenSnoc(req, |waited| + 1);
      waited := waited + [seconds.value];
      at := at + 1;
      ev := env.Send(retry);
    }
    if ev.None? {
      r := Err(NoReply);
    } else {
      r := Answer(ev.value);
    }
  }

  /** One more send as written is one more form-encoded retry. */
  lemma SentAsWrittenSnoc(req: Request, n: nat)
    requires n > 0
    ensures SentAsWritten(req, n + 1) == SentAsWritten(req, n) + [req.(body := FormBody(req.body.data))]
  {
    CopiesSnoc(req.(body := FormBody(req.body.data)), n - 1);
  }

  /** One retry of Exec: a retryable 429 at `at` adds its wait in front of
      the rest of the exchange. */
  lemma ExecRetryStep(script: seq<Event>, at: nat)
    requires at < |script| && IsRetry(script[at])
    ensures Exec(script, at).result == Exec(script, at + 1).result
    ensures Exec(script, at).next == Exec(script, at + 1).next
    ensures Exec(script, at).delays == [Wait(script[at])] + Exec(script, at + 1).delays
  {
  }

  lemma CopiesSnoc(req: Request, n: nat)
    ensures Copies(req, n + 1) == Copies(req, n) + [req]
  {
  }
}
