/** The HTTP exchange the client depends on, reduced to what the request
    layer looks at: requests as data, responses with a status, headers and
    an already decoded body, and an environment that plays a scripted
    server and records the requests it receives and the sleeps the client
    takes. */
module Http {
  import opened Common
  import opened Json

  /** Query parameters (`params=`) and request bodies (`json=`/`data=`) are
      dicts with string keys. */
  type Query = map<string, Json>

  datatype Method = GET | POST | DELETE

  /** How `requests` puts a body dict on the wire: `json=` sends it as JSON,
      `data=` form-encodes it. */
  datatype Body = JsonBody(data: Query) | FormBody(data: Query)

  datatype Request = Request(verb: Method, endpoint: string, query: Query, body: Body)

  datatype Response = Response(status: int, headers: map<string, string>, body: Json)

  /** What one send produces: a response, or a body that was cut off while
      being read (`ChunkedEncodingError`). */
  datatype Event = Reply(response: Response) | Dropped

  const TooManyRequests: int := 429
  const RetryAfterName: string := "Retry-After"

  /** `requests.Session.request(method, url, params=query, json=data)`, the
      call every first attempt makes. */
  function JsonRequest(verb: Method, endpoint: string, query: Query, data: Query): (r: Request)
    ensures r.body.JsonBody? && r.body.data == data && r.query == query
  {
    Request(verb, endpoint, query, JsonBody(data))
  }

  /** `raise_for_status()`: any status from 400 up to 599 raises. */
  function RaiseForStatus(r: Response): (res: Result<Response>)
    ensures res.Ok? <==> !(400 <= r.status < 600)
    ensures res.Ok? ==> res.value == r
    ensures res.Err? ==> res.error == HttpError(r.status)
  {
    if 400 <= r.status < 600 then Err(HttpError(r.status)) else Ok(r)
  }

  predicate IsDigit(c: char) { '0' <= c <= '9' }

  predicate AllDigits(s: string) { forall i | 0 <= i < |s| :: IsDigit(s[i]) }

  function DigitValue(c: char): nat
    requires IsDigit(c)
  {
    c as int - '0' as int
  }

  function DigitChar(d: nat): (c: char)
    requires d < 10
    ensures IsDigit(c) && DigitValue(c) == d
  {
    ('0' as int + d) as char
  }

  /** The number a string of decimal digits denotes, most significant first. */
  function DigitsValue(s: string): nat
    requires AllDigits(s)
  {
    if s == [] then 0 else DigitsValue(s[..|s| - 1]) * 10 + DigitValue(s[|s| - 1])
  }

  /** `int(text)` for a header value, as far as a wait time goes: a
      non-empty run of decimal digits is a number of seconds; anything else
      raises ValueError (a negative number does too, from `sleep`). */
  function ParseSeconds(text: string): (r: Result<nat>)
    ensures r.Ok? <==> text != [] && AllDigits(text)
    ensures r.Err? ==> r.error == ValueError
  {
    if text != [] && AllDigits(text) then Ok(DigitsValue(text)) else Err(ValueError)
  }

  /** How a server writes a wait time in whole seconds. */
  function SecondsText(n: nat): (s: string)
    ensures s != [] && AllDigits(s)
  {
    (if n < 10 then "" else SecondsText(n / 10)) + [DigitChar(n % 10)]
  }

  /** Reading back what a server wrote gives the same number of seconds. */
  lemma {:induction false} ParseSecondsText(n: nat)
    ensures ParseSeconds(SecondsText(n)) == Ok(n)
  {
    var s := SecondsText(n);
    var prefix := if n < 10 then "" else SecondsText(n / 10);
    assert s == prefix + [DigitChar(n % 10)];
    assert s[..|s| - 1] == prefix;
    if n >= 10 {
      ParseSecondsText(n / 10);
    }
    assert DigitsValue(prefix) == n / 10;
  }

  /** `int(response.headers["Retry-After"])`: a missing header raises
      KeyError, a malformed one ValueError. */
  function RetryAfter(headers: map<string, string>): (r: Result<nat>)
    ensures RetryAfterName !in headers ==> r == Err(KeyError(RetryAfterName))
    ensures RetryAfterName in headers ==> r == ParseSeconds(headers[RetryAfterName])
  {
    if RetryAfterName in headers then ParseSeconds(headers[RetryAfterName])
    else Err(KeyError(RetryAfterName))
  }

  /** The world outside the client: a server that answers the requests it is
      sent with the events of a fixed script, in order, and a clock. `sent`
      records every request put on the wire; `sleeps` every `sleep(seconds)`
      the client performs. Once the script is used up the server stays
      silent. */
  class Environment {
    const script: seq<Event>
    var pos: nat
    var sent: seq<Request>
    ghost var sleeps: seq<nat>

    ghost predicate Valid()
      reads this
    {
      pos <= |script|
    }

    constructor (script: seq<Event>)
      ensures Valid() && this.script == script
      ensures pos == 0 && sent == [] && sleeps == []
    {
      this.script := script;
      pos := 0;
      sent := [];
      sleeps := [];
    }

    /** Puts one request on the wire and returns the server's next scripted
        event, or None once the script is used up. */
    method Send(req: Request) returns (ev: Option<Event>)
      requires Valid()
      modifies this
      ensures Valid()
      ensures sent == old(sent) + [req] && sleeps == old(sleeps)
      ensures old(pos) < |script| ==> ev == Some(script[old(pos)]) && pos == old(pos) + 1
      ensures old(pos) == |script| ==> ev == None && pos == old(pos)
    {
      sent := sent + [req];
      if pos < |script| {
        ev := Some(script[pos]);
        pos := pos + 1;
      } else {
        ev := None;
      }
    }

    /** `time.sleep(seconds)`, recorded rather than waited. */
    method Sleep(seconds: nat)
      modifies this
      ensures sleeps == old(sleeps) + [seconds]
      ensures pos == old(pos) && sent == old(sent)
    {
      sleeps := sleeps + [seconds];
    }
  }
}
