/**
 * The reachability probe of the Raspberry Pi settings screen. A probe is modelled in two steps:
 * `CheckConnection` starts it (status `Checking`, a fresh abort controller) and `Settle`
 * delivers the outcome of its requests; `StopConnection` may run in between. How each request
 * settles is a parameter; once the controller is aborted, a pending request rejects with an
 * `AbortError`.
 */
module Probe {
  import opened Opt
  import opened JsString

  const ApiBaseUrl: string := "http://192.168.1.100:3000"

  datatype ConnectionStatus = Idle | Checking | Connected | Error | Cancelled

  /** The requests a probe issues, in order. */
  datatype Request = Root | LatestData {
    function Url(): string {
      match this
      case Root => ApiBaseUrl
      case LatestData => ApiBaseUrl + "/data/latest"
    }
  }

  /** The body of the `/data/latest` response: JSON with an optional timestamp, or not JSON at all. */
  datatype Payload = Json(timestamp: Option<string>) | NotJson

  /** How a request settles: a response (with its `ok` flag and body), or a rejection. */
  datatype FetchOutcome = Responded(ok: bool, payload: Payload) | Rejected(abortError: bool)

  predicate IsOk(o: FetchOutcome) {
    o.Responded? && o.ok
  }

  predicate IsAbort(o: FetchOutcome) {
    o.Rejected? && o.abortError
  }

  /** What the awaiting code sees: an aborted signal turns any pending request into an `AbortError`. */
  function Seen(o: FetchOutcome, aborted: bool): (s: FetchOutcome)
    ensures aborted ==> IsAbort(s)
    ensures !aborted ==> s == o
  {
    if aborted then Rejected(true) else o
  }

  /** The timestamp `lastSync` takes from a payload, when it has a non-empty one. */
  function SyncStamp(p: Payload): Option<string> {
    if p.Json? && p.timestamp.Some? && Truthy(p.timestamp.value) then p.timestamp else None
  }

  /**
   * The status a settled probe ends in: connected when both responses are ok and the data
   * parses; cancelled on an `AbortError` from either awaited request; an error otherwise.
   */
  function Verdict(root: FetchOutcome, latest: FetchOutcome): (s: ConnectionStatus)
    ensures s in {Connected, Error, Cancelled}
    ensures s == Connected <==> IsOk(root) && IsOk(latest) && latest.payload.Json?
    ensures s == Cancelled <==> IsAbort(root) || (IsOk(root) && IsAbort(latest))
  {
    if !IsOk(root) then
      if IsAbort(root) then Cancelled else Error
    else if !IsOk(latest) then
      if IsAbort(latest) then Cancelled else Error
    else if latest.payload.NotJson? then Error
    else Connected
  }

  /** `getStatusText`. */
  function StatusText(s: ConnectionStatus): (t: string)
    ensures t != []
  {
    match s
    case Connected => "Connected"
    case Checking => "Checking..."
    case Error => "Connection Failed"
    case Cancelled => "Cancelled"
    case Idle => "Idle"
  }

  /** `getStatusColor`: idle and checking fall through to the same default grey. */
  function StatusColor(s: ConnectionStatus): (c: string)
    ensures s in {Idle, Checking} <==> c == "#6b7d86"
  {
    match s
    case Connected => "#2ecc71"
    case Error => "#e74c3c"
    case Cancelled => "#f39c12"
    case _ => "#6b7d86"
  }

  /** Distinct states are shown with distinct texts. */
  lemma StatusTextInjective(a: ConnectionStatus, b: ConnectionStatus)
    requires StatusText(a) == StatusText(b)
    ensures a == b
  {
  }

  class ConnectionProbe {
    var status: ConnectionStatus
    var lastSync: Option<string>
    /** Whether `abortControllerRef.current` holds a controller. */
    var hasController: bool
    /** Whether that controller's `abort()` has been called. */
    var abortSignalled: bool

    /** A controller exists exactly while a probe is in flight, and an in-flight probe has no sync time yet. */
    ghost predicate Valid()
      reads this
    {
      (hasController <==> status == Checking) &&
      (!hasController ==> !abortSignalled) &&
      (status == Checking ==> lastSync == None)
    }

    constructor ()
      ensures Valid()
      ensures status == Idle && lastSync == None && !hasController
    {
      status, lastSync, hasController, abortSignalled := Idle, None, false, false;
    }

    /** `checkConnection` up to its first request: nothing while a probe is in flight. */
    method CheckConnection() returns (started: bool)
      requires Valid()
      modifies this
      ensures Valid()
      ensures started <==> old(status) != Checking
      ensures !started ==> status == old(status) && lastSync == old(lastSync) && abortSignalled == old(abortSignalled)
      ensures started ==> status == Checking && lastSync == None && hasController && !abortSignalled
    {
      if status == Checking {
        return false;
      }
      hasController, abortSignalled := true, false;
      status := Checking;
      lastSync := None;
      started := true;
    }

    /** `stopConnection`: aborts the in-flight probe's controller, if there is one. */
    method StopConnection() returns (signalled: bool)
      requires Valid()
      modifies this
      ensures Valid()
      ensures signalled == old(hasController)
      ensures status == old(status) && lastSync == old(lastSync) && hasController == old(hasController)
      ensures abortSignalled == (old(abortSignalled) || signalled)
    {
      signalled := hasController;
      if hasController {
        abortSignalled := true;
      }
    }

    /**
     * The rest of `checkConnection`: the root request, then, only if it is ok, the data request.
     * The probe ends in exactly one terminal state, the controller is dropped, `lastSync` is set
     * only on success with a timestamp, and the failure alert is raised exactly for `Error`.
     */
    method Settle(root: FetchOutcome, latest: FetchOutcome) returns (requests: seq<Request>, alert: bool)
      requires Valid() && status == Checking
      modifies this
      ensures Valid()
      ensures !hasController && !abortSignalled
      ensures status == Verdict(Seen(root, old(abortSignalled)), Seen(latest, old(abortSignalled)))
      ensures requests == [Root] + (if IsOk(Seen(root, old(abortSignalled))) then [LatestData] else [])
      ensures lastSync == (if status == Connected then SyncStamp(latest.payload) else None)
      ensures alert <==> status == Error
    {
      var aborted := abortSignalled;
      requests := [Root];
      var response := Seen(root, aborted);
      alert := false;
      if IsOk(response) {
        requests := requests + [LatestData];
        var dataResponse := Seen(latest, aborted);
        if IsOk(dataResponse) && dataResponse.payload.Json? {
          status := Connected;
          var stamp := SyncStamp(dataResponse.payload);
          if stamp.Some? {
            lastSync := stamp;
          }
        } else if IsAbort(dataResponse) {
          status := Cancelled;
        } else {
          status := Error;
          alert := true;
        }
      } else if IsAbort(response) {
        status := Cancelled;
      } else {
        status := Error;
        alert := true;
      }
      hasController, abortSignalled := false, false;
    }
  }

  /** After any probe has settled, pressing stop does nothing, and a new probe can start. */
  method StopAfterSettleIsInert(root: FetchOutcome, latest: FetchOutcome)
    returns (p: ConnectionProbe, signalled: bool, restarted: bool)
    ensures !signalled && restarted
    ensures p.status in {Connected, Error, Cancelled}
    ensures !p.hasController && !p.abortSignalled
  {
    p := new ConnectionProbe();
    var started := p.CheckConnection();
    var _, _ := p.Settle(root, latest);
    signalled := p.StopConnection();
    restarted := p.CheckConnection();
    var _, _ := p.Settle(root, latest);
  }
}
