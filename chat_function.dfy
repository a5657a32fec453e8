/**
 * The serverless chat endpoint (netlify/functions/chat.js): a process-wide map from the
 * caller's address to the time of its last accepted request, swept of entries older
 * than 60 000 ms on every POST that carries headers, which refuses a caller that comes
 * back within 3 000 ms.
 * The text generator is a parameter: the reply it would give, or None when it fails.
 */
module ChatFunction {
  import opened Wrappers

  const RetentionMs := 60000
  const SpacingMs := 3000

  const Post := "POST"
  const ClientIp := "client-ip"
  const ForwardedFor := "x-forwarded-for"
  const Unknown := "unknown"

  const MethodNotAllowed := "Method Not Allowed"
  const TooFast := "Doucement ! Tu parles trop vite \U{1F431}"
  const CommunicationError := "Erreur de communication avec le chat"

  /**
   * The request body after JSON.parse. `Malformed` is a body whose parsing throws or parses
   * to null, so that the destructuring throws. Otherwise `statsReadable` says whether reading
   * stats.hunger, stats.happiness and stats.energy for the prompt succeeds: it does not when
   * `stats` is missing or null. The stat values themselves only feed the prompt.
   */
  datatype Body = Malformed | ChatRequest(message: string, statsReadable: bool)

  /** A body the message-processing block gets through without throwing before the generator call. */
  predicate Readable(body: Body) {
    body.ChatRequest? && body.statsReadable
  }

  /** `headers` is None when the event has no headers object, so that reading a header throws. */
  datatype Event = Event(httpMethod: string, headers: Option<map<string, string>>, body: Body)

  /** The three bodies the handler returns: plain text, `{ error }` and `{ text }`. */
  datatype Payload = Plain(text: string) | ErrorJson(error: string) | TextJson(text: string)

  datatype Response = Response(statusCode: int, body: Payload)

  // ---------------------------------------------------------------------------
  // The pieces of the handler
  // ---------------------------------------------------------------------------

  /** A header JavaScript's `||` accepts: present and not the empty string. */
  predicate Usable(headers: map<string, string>, name: string) {
    name in headers && headers[name] != []
  }

  /** The rate-limit key: client-ip, else x-forwarded-for, else "unknown". */
  function RateKey(headers: map<string, string>): (key: string)
    ensures key != []
    ensures key == Unknown || key in headers.Values
    ensures Usable(headers, ClientIp) ==> key == headers[ClientIp]
    ensures !Usable(headers, ClientIp) && Usable(headers, ForwardedFor) ==> key == headers[ForwardedFor]
    ensures !Usable(headers, ClientIp) && !Usable(headers, ForwardedFor) ==> key == Unknown
  {
    if Usable(headers, ClientIp) then headers[ClientIp]
    else if Usable(headers, ForwardedFor) then headers[ForwardedFor]
    else Unknown
  }

  /** The map once the stale entries are gone: exactly the entries at most 60 000 ms old, values untouched. */
  function Swept(limits: map<string, int>, now: int): (r: map<string, int>)
    ensures forall key :: key in r <==> key in limits && now - limits[key] <= RetentionMs
    ensures forall key :: key in r ==> r[key] == limits[key]
  {
    map key | key in limits && now - limits[key] <= RetentionMs :: limits[key]
  }

  /** `rateLimit.get(ip) || 0`: a missing key counts as time 0. */
  function Last(limits: map<string, int>, key: string): (t: int)
    ensures key in limits ==> t == limits[key]
    ensures key !in limits ==> t == 0
  {
    if key in limits then limits[key] else 0
  }

  /** How the rate-limiting block ends, and the map it leaves. */
  datatype Gate = Throttled(limits: map<string, int>) | Passed(limits: map<string, int>)

  /**
   * The rate-limiting block. Without headers, reading the key throws before the sweep and
   * the catch lets the request through with the map untouched.
   */
  function RateGate(limits: map<string, int>, headers: Option<map<string, string>>, now: int): (g: Gate)
    ensures headers.None? ==> g == Passed(limits)
    ensures headers.Some? ==> forall key :: key in g.limits ==> now - g.limits[key] <= RetentionMs
    ensures headers.Some? && g.Passed? ==> RateKey(headers.value) in g.limits && g.limits[RateKey(headers.value)] == now
    ensures g.Throttled? ==> headers.Some? && g.limits == Swept(limits, now)
  {
    if headers.None? then Passed(limits)
    else
      var key := RateKey(headers.value);
      var swept := Swept(limits, now);
      if now - Last(swept, key) < SpacingMs then Throttled(swept) else Passed(swept[key := now])
  }

  /** The message-processing block: 500 for a malformed body or a failed generation, 200 with the reply otherwise. */
  function Answer(body: Body, generation: Option<string>): (r: Response)
    ensures r.statusCode == 200 <==> Readable(body) && generation.Some?
    ensures r.statusCode == 200 ==> r.body == TextJson(generation.value)
    ensures r.statusCode != 200 ==> r == Response(500, ErrorJson(CommunicationError))
  {
    match body
    case Malformed => Response(500, ErrorJson(CommunicationError))
    case ChatRequest(_, statsReadable) =>
      if !statsReadable then Response(500, ErrorJson(CommunicationError))
      else match generation
        case None => Response(500, ErrorJson(CommunicationError))
        case Some(text) => Response(200, TextJson(text))
  }

  /** The whole handler: the response and the map it leaves behind. */
  function Respond(limits: map<string, int>, event: Event, now: int, generation: Option<string>): (r: (Response, map<string, int>))
    ensures r.0.statusCode == 429 ==> r.1 == Swept(limits, now)
    ensures forall key :: key in r.1 && key !in limits ==> r.1[key] == now
    ensures forall key :: key in r.1 ==> key in limits || (event.headers.Some? && key == RateKey(event.headers.value))
  {
    if event.httpMethod != Post then (Response(405, Plain(MethodNotAllowed)), limits)
    else match RateGate(limits, event.headers, now)
      case Throttled(limits') => (Response(429, ErrorJson(TooFast)), limits')
      case Passed(limits') => (Answer(event.body, generation), limits')
  }

  // ---------------------------------------------------------------------------
  // What the handler promises, one request at a time
  // ---------------------------------------------------------------------------

  /** The method check comes first: 405 exactly for a non-POST request, and then the map is left as it was. */
  lemma MethodCheckedFirst(limits: map<string, int>, event: Event, now: int, generation: Option<string>)
    ensures Respond(limits, event, now, generation).0.statusCode == 405 <==> event.httpMethod != Post
    ensures event.httpMethod != Post ==> Respond(limits, event, now, generation).1 == limits
  {
  }

  /** The handler answers with one of four status codes. */
  lemma StatusCodes(limits: map<string, int>, event: Event, now: int, generation: Option<string>)
    ensures Respond(limits, event, now, generation).0.statusCode in {200, 405, 429, 500}
  {
  }

  /** A caller back within 3 000 ms of its last accepted request gets 429, and its entry is not renewed. */
  lemma TooSoonIsThrottled(limits: map<string, int>, event: Event, now: int, generation: Option<string>)
    requires event.httpMethod == Post && event.headers.Some?
    requires now - Last(Swept(limits, now), RateKey(event.headers.value)) < SpacingMs
    ensures Respond(limits, event, now, generation).0 == Response(429, ErrorJson(TooFast))
    ensures Respond(limits, event, now, generation).1 == Swept(limits, now)
  {
  }

  /**
   * A request let through records `now` under its key before the body is read: the entries
   * of the other keys are those the sweep kept, and a body that is malformed or lacks its
   * stats still costs the slot and gets 500.
   */
  lemma AcceptRecordsNow(limits: map<string, int>, event: Event, now: int, generation: Option<string>)
    requires event.httpMethod == Post && event.headers.Some?
    requires now - Last(Swept(limits, now), RateKey(event.headers.value)) >= SpacingMs
    ensures Respond(limits, event, now, generation).1 == Swept(limits, now)[RateKey(event.headers.value) := now]
    ensures Respond(limits, event, now, generation).0 == Answer(event.body, generation)
    ensures !Readable(event.body) ==> Respond(limits, event, now, generation).0.statusCode == 500
  {
  }

  /** Without a headers object the limiter is skipped altogether: no sweep, no record, no 429. */
  lemma NoHeadersSkipsLimiter(limits: map<string, int>, event: Event, now: int, generation: Option<string>)
    requires event.httpMethod == Post && event.headers.None?
    ensures Respond(limits, event, now, generation) == (Answer(event.body, generation), limits)
  {
  }

  /**
   * The sweep never opens the door early: a request that gets past the limiter under a key
   * the map knew comes at least 3 000 ms after that key's recorded time.
   */
  lemma PassedMeansSpaced(limits: map<string, int>, headers: map<string, string>, now: int)
    requires RateGate(limits, Some(headers), now).Passed?
    ensures RateKey(headers) in limits ==> now - limits[RateKey(headers)] >= SpacingMs
    ensures RateKey(headers) !in limits ==> now >= SpacingMs
  {
    var key := RateKey(headers);
    if key in limits && key !in Swept(limits, now) {
      assert now - limits[key] > RetentionMs;
    }
  }

  /** Sweeping at a time and again later is the same as sweeping once at the later time. */
  lemma SweepAgain(limits: map<string, int>, earlier: int, later: int)
    requires earlier <= later
    ensures Swept(Swept(limits, earlier), later) == Swept(limits, later)
  {
  }

  // ---------------------------------------------------------------------------
  // Over a run of requests
  // ---------------------------------------------------------------------------

  /** One invocation of the handler: the event, the time, and what the generator would answer. */
  datatype Request = Request(event: Event, now: int, generation: Option<string>)

  /** The map after handling `requests` in order, starting from `limits`. */
  function LimitsAfter(limits: map<string, int>, requests: seq<Request>): map<string, int>
    decreases |requests|
  {
    if requests == [] then limits
    else
      var r := requests[|requests| - 1];
      Respond(LimitsAfter(limits, requests[..|requests| - 1]), r.event, r.now, r.generation).1
  }

  /** The response to request `i` of the run. */
  function ResponseTo(limits: map<string, int>, requests: seq<Request>, i: nat): Response
    requires i < |requests|
  {
    var r := requests[i];
    Respond(LimitsAfter(limits, requests[..i]), r.event, r.now, r.generation).0
  }

  predicate InTimeOrder(requests: seq<Request>) {
    forall a, b :: 0 <= a <= b < |requests| ==> requests[a].now <= requests[b].now
  }

  /** A POST whose rate key is `key`. */
  predicate FromSource(r: Request, key: string) {
    r.event.httpMethod == Post && r.event.headers.Some? && RateKey(r.event.headers.value) == key
  }

  /**
   * Two requests from the same source that both get past the limiter are at least 3 000 ms
   * apart, whatever other sources do in between, as long as the clock does not go back.
   */
  lemma SameSourceSpaced(limits: map<string, int>, requests: seq<Request>, key: string, i: nat, j: nat)
    requires InTimeOrder(requests) && i < j < |requests|
    requires FromSource(requests[i], key) && FromSource(requests[j], key)
    requires ResponseTo(limits, requests, i).statusCode != 429
    requires ResponseTo(limits, requests, j).statusCode != 429
    ensures requests[j].now - requests[i].now >= SpacingMs
  {
    RememberedSince(limits, requests, key, i, j);
    var m := LimitsAfter(limits, requests[..j]);
    var now := requests[j].now;
    assert RateGate(m, requests[j].event.headers, now).Passed?;
    if key in m && m[key] >= requests[i].now && key !in Swept(m, now) {
      assert now - m[key] > RetentionMs;
    }
  }

  /**
   * After request `i` of source `key` got through, until request `p`: either the map still
   * holds a time for `key` no earlier than request `i`'s, or more than 60 000 ms have passed.
   */
  lemma {:induction false} RememberedSince(limits: map<string, int>, requests: seq<Request>, key: string, i: nat, p: nat)
    requires InTimeOrder(requests) && i < p <= |requests|
    requires FromSource(requests[i], key)
    requires ResponseTo(limits, requests, i).statusCode != 429
    ensures var m := LimitsAfter(limits, requests[..p]);
      (key in m && m[key] >= requests[i].now) || requests[p - 1].now - requests[i].now > RetentionMs
    decreases p
  {
    var before := LimitsAfter(limits, requests[..p - 1]);
    var r := requests[p - 1];
    assert requests[..p][..p - 1] == requests[..p - 1];
    if p - 1 == i {
      assert ResponseTo(limits, requests, i) == Respond(before, r.event, r.now, r.generation).0;
      SourceRecorded(before, r, key);
    } else {
      RememberedSince(limits, requests, key, i, p - 1);
      assert requests[p - 2].now <= r.now;
      if key in before && before[key] >= requests[i].now && r.now - requests[i].now <= RetentionMs {
        EntryKeptSince(before, r, key, requests[i].now);
      }
    }
  }

  /** A POST from `key` that is not refused with 429 leaves `key` mapped to its own time. */
  lemma SourceRecorded(limits: map<string, int>, r: Request, key: string)
    requires FromSource(r, key) && Respond(limits, r.event, r.now, r.generation).0.statusCode != 429
    ensures var m := Respond(limits, r.event, r.now, r.generation).1; key in m && m[key] == r.now
  {
  }

  /**
   * A request at most 60 000 ms after time `t` keeps every entry recorded at `t` or later,
   * and if it renews the entry, it renews it with a time no earlier than `t`.
   */
  lemma EntryKeptSince(limits: map<string, int>, r: Request, key: string, t: int)
    requires key in limits && t <= limits[key] && t <= r.now && r.now - t <= RetentionMs
    ensures var m := Respond(limits, r.event, r.now, r.generation).1; key in m && m[key] >= t
  {
  }

  // ---------------------------------------------------------------------------
  // The module-level map and the handler that updates it in place
  // ---------------------------------------------------------------------------

  class RateLimiter {
    var rateLimit: map<string, int>

    constructor ()
      ensures rateLimit == map[]
    {
      rateLimit := map[];
    }

    /** Deletes every entry older than 60 000 ms, one key at a time. */
    method Sweep(now: int)
      modifies this
      ensures rateLimit == Swept(old(rateLimit), now)
    {
      var pending := rateLimit.Keys;
      while pending != {}
        invariant pending <= old(rateLimit).Keys
        invariant forall key :: key in rateLimit <==>
                    key in old(rateLimit) && (key in pending || now - old(rateLimit)[key] <= RetentionMs)
        invariant forall key :: key in rateLimit ==> rateLimit[key] == old(rateLimit)[key]
        decreases pending
      {
        var key :| key in pending;
        if now - rateLimit[key] > RetentionMs {
          rateLimit := rateLimit - {key};
        }
        pending := pending - {key};
      }
    }

    /** exports.handler, with `Date.now()` as `now` and the generator's outcome as `generation`. */
    method Handle(event: Event, now: int, generation: Option<string>) returns (response: Response)
      modifies this
      ensures (response, rateLimit) == Respond(old(rateLimit), event, now, generation)
    {
      if event.httpMethod != Post {
        return Response(405, Plain(MethodNotAllowed));
      }
      if event.headers.Some? {
        var ip := RateKey(event.headers.value);
        Sweep(now);
        var lastRequest := Last(rateLimit, ip);
        if now - lastRequest < SpacingMs {
          return Response(429, ErrorJson(TooFast));
        }
        rateLimit := rateLimit[ip := now];
      }
      match event.body {
        case Malformed =>
          response := Response(500, ErrorJson(CommunicationError));
        case ChatRequest(_, statsReadable) =>
          if !statsReadable {
            response := Response(500, ErrorJson(CommunicationError));
          } else if generation.Some? {
            response := Response(200, TextJson(generation.value));
          } else {
            response := Response(500, ErrorJson(CommunicationError));
          }
      }
    }
  }
}
