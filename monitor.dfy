/**
 * `ZkConnect`: the client that connects to the attendance terminal, follows its live
 * capture, forwards each punch to the ingestion API and stops when the day changes.
 *
 * The terminal and the HTTP server are not modelled as programs: what they answer
 * is an input. Each element of the live capture arrives as a `Tick` that carries,
 * besides the punch (or the idle marker), what the outside world answers while the
 * element is handled: the device clock, the session cookie, the ingestion response,
 * the device's gate state, and the day the rollover check sees.
 */
module Monitor {
  import opened Wrappers
  import opened Calendar

  // ---------------------------------------------------------------- values

  /** One attendance record from the live capture. */
  datatype Punch = Punch(userId: string, timestamp: Timestamp, punch: int, status: int)

  /** The dictionary `monitor` passes to `_transmit`. */
  datatype Record = Record(userId: string, timestamp: string, punch: int, status: int)

  /** The `data` object of the ingestion request. */
  datatype Payload = Payload(userId: string, punch: int, timestamp: string, status: int, machineId: int)

  /** One ingestion request as it leaves the client. */
  datatype Request = Request(url: string, cookie: string, payload: Payload)

  /** What the ingestion response body parses as. */
  datatype Body = JsonObject | JsonOther | NotJson

  datatype Response = Response(status: int, body: Body)

  /** The result of `requests.post`: an HTTP answer, or an exception (connection refused, timeout, ...). */
  datatype PostOutcome = Answered(response: Response) | Unreachable

  /** One element of the live capture and the world's answers while it is handled. */
  datatype Tick = Tick(
    event: Option<Punch>,         // a punch, or `None` for an idle tick
    deviceTime: Option<Timestamp>, // `get_time()` on an idle tick: its answer, or `None` when it raises
    token: Option<string>,        // what `getToken()` returns
    post: PostOutcome,            // what the ingestion POST yields
    gate: bool,                   // `is_enabled` as the `finally` block of `_transmit` reads it
    today: CalendarDate)          // `date.today()` in the rollover check

  /** How `monitor` ends: by one of its three exceptions, or because the capture ran out. */
  datatype Stop =
    | NotConnected          // 'Connection is not established!'
    | DeviceFailed(at: nat) // the device call in the healthcheck of element `at` raised
    | EndOfDay(at: nat)     // '--END OF THE DAY--' after element `at`
    | StreamEnded

  /** The ingestion URL, which is fixed in the client (the configured endpoint is stored but not used). */
  const IngestionUrl: string := "http://agadirob.leansoft.ma:2020/api/ls.pointage.log"

  const EndOfDayMessage: string := "--END OF THE DAY--"

  /** The record `monitor` builds from a punch: the timestamp as `str(timestamp)`. */
  function RecordOf(p: Punch): Record {
    Record(p.userId, RenderTimestamp(p.timestamp), p.punch, p.status)
  }

  /** The payload `_transmit` builds from a record and the machine id. */
  function PayloadOf(data: Record, machineId: int): Payload {
    Payload(data.userId, data.punch, data.timestamp, data.status, machineId)
  }

  /** Every punch reaches the API with its fields intact and the timestamp readable back. */
  lemma PayloadCarriesPunch(p: Punch, machineId: int)
    ensures var payload := PayloadOf(RecordOf(p), machineId);
            && payload.userId == p.userId && payload.punch == p.punch && payload.status == p.status
            && payload.machineId == machineId
            && ParseTimestamp(payload.timestamp) == Some(p.timestamp)
  {
    TimestampRoundTrip(p.timestamp);
  }

  /** `raise_for_status()`: a client or server error status raises. */
  predicate RaisesForStatus(status: int) {
    400 <= status < 600
  }

  /**
   * Whether `_transmit` returns the response for a POST outcome: the body is printed as JSON
   * first, then the status is checked, then the body is read as a JSON object.
   */
  predicate Delivered(post: PostOutcome) {
    && post.Answered?
    // `print(response.json())` runs before `raise_for_status()`, so a non-JSON body fails first
    && post.response.body != NotJson
    && !RaisesForStatus(post.response.status)
    && post.response.body == JsonObject
  }

  // ---------------------------------------------------------------- rollover

  /** `_shouldStartNewFile`: raises exactly when today is not the day the run started. */
  function ShouldStartNewFile(startedAt: CalendarDate, today: CalendarDate): (r: Outcome<string>)
    ensures r.Fail? <==> today != startedAt
    ensures r.Fail? ==> r.error == EndOfDayMessage
  {
    if today != startedAt then Fail(EndOfDayMessage) else Pass
  }

  // ---------------------------------------------------------------- the loop, as functions of its input

  /** Whether handling `t` raises: a healthcheck that fails, or a rollover check on another day. */
  predicate Halts(t: Tick, startedAt: CalendarDate) {
    (t.event.None? && t.deviceTime.None?) || t.today != startedAt
  }

  /** The index of the first element whose handling raises, or `|ticks|` when none does. */
  function FirstHalt(ticks: seq<Tick>, startedAt: CalendarDate): (k: nat)
    ensures k <= |ticks|
    ensures forall j :: 0 <= j < k ==> !Halts(ticks[j], startedAt)
    ensures k < |ticks| ==> Halts(ticks[k], startedAt)
  {
    if ticks == [] then 0
    else if Halts(ticks[0], startedAt) then 0
    else 1 + FirstHalt(ticks[1..], startedAt)
  }

  /** How many elements the loop takes from the capture. */
  function Consumed(ticks: seq<Tick>, startedAt: CalendarDate): (n: nat)
    ensures n <= |ticks|
  {
    var k := FirstHalt(ticks, startedAt);
    if k < |ticks| then k + 1 else |ticks|
  }

  /** How the loop ends, for a connected client. */
  function RunOutcome(ticks: seq<Tick>, startedAt: CalendarDate): Stop {
    var k := FirstHalt(ticks, startedAt);
    if k == |ticks| then StreamEnded
    else if ticks[k].event.None? && ticks[k].deviceTime.None? then DeviceFailed(k)
    else EndOfDay(k)
  }

  /** The number of punches among the first `n` elements. */
  function Punches(ticks: seq<Tick>, n: nat): (count: nat)
    requires n <= |ticks|
    ensures count <= n
  {
    if n == 0 then 0 else Punches(ticks, n - 1) + (if ticks[n - 1].event.Some? then 1 else 0)
  }

  /** The request a transmitted element sends: one when it is a punch that got a token. */
  function TickRequests(t: Tick, machineId: int): seq<Request> {
    if t.event.Some? && t.token.Some?
    then [Request(IngestionUrl, t.token.value, PayloadOf(RecordOf(t.event.value), machineId))]
    else []
  }

  /** The requests the first `n` elements send when every punch is transmitted, in order. */
  function Requests(ticks: seq<Tick>, n: nat, machineId: int): seq<Request>
    requires n <= |ticks|
  {
    if n == 0 then [] else Requests(ticks, n - 1, machineId) + TickRequests(ticks[n - 1], machineId)
  }

  /**
   * The number of `enable_device` calls for the first `n` elements when every punch is
   * transmitted: one per punch that found the gate closed.
   */
  function Reenables(ticks: seq<Tick>, n: nat): (count: nat)
    requires n <= |ticks|
    ensures count <= Punches(ticks, n)
  {
    if n == 0 then 0 else Reenables(ticks, n - 1) + (if ticks[n - 1].event.Some? && !ticks[n - 1].gate then 1 else 0)
  }

  /** Every request that leaves the client carries a punch from the capture and the token fetched for it. */
  lemma {:induction false} RequestsComeFromPunches(ticks: seq<Tick>, n: nat, machineId: int, r: Request)
    requires n <= |ticks| && r in Requests(ticks, n, machineId)
    ensures exists j :: 0 <= j < n && ticks[j].event.Some? && ticks[j].token == Some(r.cookie)
                        && r == Request(IngestionUrl, r.cookie, PayloadOf(RecordOf(ticks[j].event.value), machineId))
  {
    if r in Requests(ticks, n - 1, machineId) {
      RequestsComeFromPunches(ticks, n - 1, machineId, r);
    } else {
      assert r in TickRequests(ticks[n - 1], machineId);
    }
  }

  /** Helper: no more requests than punches. */
  lemma {:induction false} RequestsAtMostPunches(ticks: seq<Tick>, n: nat, machineId: int)
    requires n <= |ticks|
    ensures |Requests(ticks, n, machineId)| <= Punches(ticks, n)
  {
    if n > 0 {
      RequestsAtMostPunches(ticks, n - 1, machineId);
    }
  }

  /** Helper: a punch among the first `n` elements that got no token leaves the requests short of the punches. */
  lemma {:induction false} MissingTokenLosesRequest(ticks: seq<Tick>, n: nat, machineId: int, k: nat)
    requires k < n <= |ticks| && ticks[k].event.Some? && ticks[k].token.None?
    ensures |Requests(ticks, n, machineId)| < Punches(ticks, n)
  {
    if k == n - 1 {
      RequestsAtMostPunches(ticks, n - 1, machineId);
    } else {
      MissingTokenLosesRequest(ticks, n - 1, machineId, k);
    }
  }

  /**
   * No more requests than punches; exactly one per punch precisely when every punch got a token.
   * Idle elements never ask for a token, so their `token` is not looked at.
   */
  lemma {:induction false} RequestsPerPunch(ticks: seq<Tick>, n: nat, machineId: int)
    requires n <= |ticks|
    ensures |Requests(ticks, n, machineId)| <= Punches(ticks, n)
    ensures (forall j :: 0 <= j < n && ticks[j].event.Some? ==> ticks[j].token.Some?)
            <==> |Requests(ticks, n, machineId)| == Punches(ticks, n)
  {
    RequestsAtMostPunches(ticks, n, machineId);
    if forall j :: 0 <= j < n && ticks[j].event.Some? ==> ticks[j].token.Some? {
      if n > 0 {
        RequestsPerPunch(ticks, n - 1, machineId);
      }
    } else {
      var k :| 0 <= k < n && ticks[k].event.Some? && ticks[k].token.None?;
      MissingTokenLosesRequest(ticks, n, machineId, k);
    }
  }

  /** Helper: extending a log by the requests of one more element. */
  lemma LogOneMore(log0: seq<Request>, log1: seq<Request>, ticks: seq<Tick>, i: nat, machineId: int)
    requires i < |ticks|
    requires log1 == (log0 + Requests(ticks, i, machineId)) + TickRequests(ticks[i], machineId)
    ensures log1 == log0 + Requests(ticks, i + 1, machineId)
  {
  }

  /**
   * The loop stops at the first element handled on a new day, unless a healthcheck failed earlier;
   * every punch up to and including that element has been handled.
   */
  lemma StopsAtFirstNewDay(ticks: seq<Tick>, startedAt: CalendarDate, k: nat)
    requires k < |ticks| && ticks[k].today != startedAt
    requires forall j :: 0 <= j < k ==> ticks[j].today == startedAt
    requires forall j :: 0 <= j <= k ==> ticks[j].event.None? ==> ticks[j].deviceTime.Some?
    ensures RunOutcome(ticks, startedAt) == EndOfDay(k)
    ensures Consumed(ticks, startedAt) == k + 1
  {
    var h := FirstHalt(ticks, startedAt);
    assert Halts(ticks[k], startedAt);
    assert h <= k;
  }

  /** On a day that does not change and with a device that answers, the whole capture is handled. */
  lemma RunsToEndOnOneDay(ticks: seq<Tick>, startedAt: CalendarDate)
    requires forall j :: 0 <= j < |ticks| ==> ticks[j].today == startedAt
    requires forall j :: 0 <= j < |ticks| ==> ticks[j].event.None? ==> ticks[j].deviceTime.Some?
    ensures RunOutcome(ticks, startedAt) == StreamEnded
    ensures Consumed(ticks, startedAt) == |ticks|
  {
  }

  // ---------------------------------------------------------------- the client

  /** The handle `ZK(...).connect()` returns; the device behind it is abstract. */
  datatype Link = Link(host: string, port: int)

  class ZkConnect {
    const host: string
    const port: int
    const endpoint: string
    const id: int
    const transmission: bool

    /** `None` until a connection is established. */
    var connection: Option<Link>
    /** The day the client was created; the run ends when the day changes. */
    var startedAt: CalendarDate
    /** The device's gate as last seen by the client (`is_enabled`). */
    var enabled: bool

    /** The ingestion requests sent so far. */
    ghost var posted: seq<Request>
    /** The number of `_transmit` calls so far. */
    ghost var attempts: nat
    /** The number of `enable_device` calls so far. */
    ghost var enableCalls: nat

    /**
     * `__init__`: records the settings and the day, then tries to connect. A failed
     * connection is only logged: the client is created with no connection.
     */
    constructor (host: string, port: int, endpoint: string, id: int, transmission: bool,
                 today: CalendarDate, reachable: bool)
      ensures this.host == host && this.port == port && this.endpoint == endpoint
      ensures this.id == id && this.transmission == transmission
      ensures startedAt == today
      ensures connection == (if reachable then Some(Link(host, port)) else None)
      ensures enabled == reachable
      ensures posted == [] && attempts == 0 && enableCalls == 0
    {
      this.host := host;
      this.port := port;
      this.endpoint := endpoint;
      this.id := id;
      this.transmission := transmission;
      connection := None;
      startedAt := today;
      enabled := false;
      posted := [];
      attempts := 0;
      enableCalls := 0;
      new;
      var _ := Connect(reachable);
    }

    /**
     * `_connect`: `connection` is set only when the device accepts; when `connect()` raises,
     * the assignment does not happen and the error is handed to the caller.
     */
    method Connect(reachable: bool) returns (connected: bool)
      modifies this`connection, this`enabled
      ensures connected == reachable
      ensures reachable ==> connection == Some(Link(host, port)) && enabled
      ensures !reachable ==> connection == old(connection) && enabled == old(enabled)
    {
      connected := reachable;
      if reachable {
        connection := Some(Link(host, port));
        enabled := true;
      }
    }

    /** `_healthcheck`: asks the device for its time; a failure is raised out of the loop. */
    method Healthcheck(deviceTime: Option<Timestamp>) returns (alive: bool)
      requires connection.Some?
      ensures alive <==> deviceTime.Some?
    {
      alive := deviceTime.Some?;
    }

    /**
     * `_transmit`: fetches a token; without one nothing is posted. With one, posts the
     * payload and returns the response only when it is delivered; every caught error
     * yields `None`. On every path the device's gate ends open, and `enable_device`
     * is called only when the gate was found closed.
     */
    method Transmit(data: Record, token: Option<string>, post: PostOutcome, gate: bool)
      returns (response: Option<Response>)
      requires connection.Some?
      modifies this`enabled, this`posted, this`attempts, this`enableCalls
      ensures attempts == old(attempts) + 1
      ensures posted == old(posted) + (if token.Some? then [Request(IngestionUrl, token.value, PayloadOf(data, id))] else [])
      ensures response.Some? <==> token.Some? && Delivered(post)
      ensures response.Some? ==> post == Answered(response.value)
      ensures enabled
      ensures enableCalls == old(enableCalls) + (if gate then 0 else 1)
    {
      attempts := attempts + 1;
      response := None;
      if token.Some? {
        posted := posted + [Request(IngestionUrl, token.value, PayloadOf(data, id))];
        match post
        case Unreachable =>
          // the request raised: caught by the generic handler
        case Answered(answer) =>
          if answer.body == NotJson {
            // printing `response.json()` raised
          } else if RaisesForStatus(answer.status) {
            // `raise_for_status()` raised the HTTP error
          } else if answer.body == JsonOther {
            // reading `message` from a JSON value that is not an object raised
          } else {
            response := Some(answer);
          }
      }
      // finally: the device may have closed its gate meanwhile
      enabled := gate;
      if !enabled {
        enableCalls := enableCalls + 1;
        enabled := true;
      }
    }

    /**
     * The body of `monitor`'s loop before the rollover check: a healthcheck for an idle
     * tick, a transmission for a punch when transmission is on, nothing otherwise.
     * `alive` is false when the healthcheck raised.
     */
    method HandleElement(t: Tick) returns (alive: bool)
      requires connection.Some?
      modifies this`enabled, this`posted, this`attempts, this`enableCalls
      ensures alive <==> !(t.event.None? && t.deviceTime.None?)
      ensures var sent := transmission && t.event.Some?;
              && attempts == old(attempts) + (if sent then 1 else 0)
              && posted == old(posted) + (if transmission then TickRequests(t, id) else [])
              && enableCalls == old(enableCalls) + (if sent && !t.gate then 1 else 0)
              && enabled == (old(enabled) || sent)
    {
      alive := true;
      match t.event {
        case None =>
          alive := Healthcheck(t.deviceTime);
        case Some(p) =>
          if transmission {
            var _ := Transmit(RecordOf(p), t.token, t.post, t.gate);
          }
      }
    }

    /**
     * `monitor`: refuses to start without a connection; otherwise handles the capture
     * element by element and runs the rollover check after every element. It stops at
     * the first element whose healthcheck or rollover check raises.
     */
    method Monitor(ticks: seq<Tick>) returns (stop: Stop)
      modifies this`enabled, this`posted, this`attempts, this`enableCalls
      ensures connection.None? ==> stop == NotConnected
      ensures connection.Some? ==> stop == RunOutcome(ticks, startedAt)
      ensures var n := if connection.Some? && transmission then Consumed(ticks, startedAt) else 0;
              && attempts == old(attempts) + Punches(ticks, n)
              && posted == old(posted) + Requests(ticks, n, id)
              && enableCalls == old(enableCalls) + Reenables(ticks, n)
      ensures enabled == (old(enabled) || attempts > old(attempts))
    {
      if connection.None? {
        return NotConnected;
      }
      var start := startedAt;
      ghost var posted0, attempts0, enableCalls0, enabled0 := posted, attempts, enableCalls, enabled;
      for i := 0 to |ticks|
        invariant forall j :: 0 <= j < i ==> !Halts(ticks[j], start)
        invariant var n := if transmission then i else 0;
                  && attempts == attempts0 + Punches(ticks, n)
                  && posted == posted0 + Requests(ticks, n, id)
                  && enableCalls == enableCalls0 + Reenables(ticks, n)
        invariant enabled == (enabled0 || attempts > attempts0)
      {
        var t := ticks[i];
        var alive := HandleElement(t);
        if transmission {
          LogOneMore(posted0, posted, ticks, i, id);
        }
        if !alive {
          assert FirstHalt(ticks, start) == i;
          assert Consumed(ticks, start) == i + 1;
          return DeviceFailed(i);
        }
        var check := ShouldStartNewFile(start, t.today);
        if check.Fail? {
          assert FirstHalt(ticks, start) == i;
          assert Consumed(ticks, start) == i + 1;
          return EndOfDay(i);
        }
      }
      assert Consumed(ticks, start) == |ticks|;
      stop := StreamEnded;
    }
  }

  // ---------------------------------------------------------------- runs of the whole client

  /**
   * A reachable device, three punches on the start day, then an idle tick on the next
   * day: three requests are sent, then the run stops at the fourth element, and the
   * punch that follows is never read.
   */
  method ThreePunchesThenNewDay(p: Punch, cookie: string, time: Timestamp, day: CalendarDate, nextDay: CalendarDate)
    returns (stop: Stop, ghost sent: seq<Request>)
    requires nextDay != day
    ensures stop == EndOfDay(3)
    ensures var r := Request(IngestionUrl, cookie, PayloadOf(RecordOf(p), 1));
            sent == [r, r, r]
  {
    var client := new ZkConnect("192.168.0.220", 4370, IngestionUrl, 1, true, day, true);
    var punch := Tick(Some(p), None, Some(cookie), Answered(Response(200, JsonObject)), false, day);
    var idle := Tick(None, Some(time), None, Unreachable, true, nextDay);
    var ticks := [punch, punch, punch, idle, punch];
    StopsAtFirstNewDay(ticks, day, 3);
    var r := Request(IngestionUrl, cookie, PayloadOf(RecordOf(p), 1));
    assert Requests(ticks, 1, 1) == [r];
    assert Requests(ticks, 2, 1) == [r, r];
    assert Requests(ticks, 3, 1) == [r, r, r];
    assert Requests(ticks, 4, 1) == [r, r, r];
    stop := client.Monitor(ticks);
    sent := client.posted;
  }

  /** When the device cannot be reached at start-up, the run refuses to start and nothing is sent. */
  method UnreachableDeviceSendsNothing(ticks: seq<Tick>, day: CalendarDate)
    returns (stop: Stop, ghost sent: seq<Request>)
    ensures stop == NotConnected && sent == []
  {
    var client := new ZkConnect("192.168.0.220", 4370, IngestionUrl, 1, true, day, false);
    stop := client.Monitor(ticks);
    sent := client.posted;
  }

  /** With transmission off, no element is ever sent, yet the run still ends at the first new day. */
  method TransmissionOffSendsNothing(ticks: seq<Tick>, day: CalendarDate)
    returns (stop: Stop, ghost sent: seq<Request>)
    ensures stop == RunOutcome(ticks, day) && sent == []
  {
    var client := new ZkConnect("192.168.0.220", 4370, IngestionUrl, 1, false, day, true);
    stop := client.Monitor(ticks);
    sent := client.posted;
  }
}
