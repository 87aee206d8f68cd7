/** The embedded grid hub: built from the hub property arguments (with an optional port
    patched in at a fixed position), started, stopped and probed over HTTP. */
module GridHub {
  import opened Common
  import GridProperties

  /** What one HTTP GET against the hub URL does. The status line parser accepts any
      non-negative status code. */
  datatype Probe =
    | Response(status: nat)          // a response arrived
    | ProtocolFailure                // ClientProtocolException
    | IoFailure                      // IOException, e.g. connection refused
    | OtherFailure                   // any other exception raised by the request

  datatype HubError =
    | PropertiesFailed(cause: GridProperties.PropertiesError)  // from getHubProperties
    | PortIndexOutOfBounds  // the argument array has no element at THIRD_PROPERTY
    | StartFailed           // "Unable to start the grid"
    | ProbeFailed           // an exception the status probe does not catch

  const ThirdProperty: nat := 3
  const StatusOk: int := 200

  /** checkPageResponse(): the status code, 0 when the request failed with a protocol or
      I/O error; other exceptions escape. */
  function PageResponse(probe: Probe): (r: Result<int, HubError>)
    ensures r.Err? <==> probe.OtherFailure?
    ensures r == Ok(0) <==> probe.ProtocolFailure? || probe.IoFailure? || probe == Response(0)
    ensures probe.Response? ==> r == Ok(probe.status)
  {
    match probe
    case Response(status) => Ok(status)
    case ProtocolFailure => Ok(0)
    case IoFailure => Ok(0)
    case OtherFailure => Err(ProbeFailed)
  }

  /** The hub argument array after the constructor's port patch. */
  function PatchedArguments(arguments: seq<string>, port: seq<Int32>): (r: Result<seq<string>, HubError>)
    ensures |port| == 0 ==> r == Ok(arguments)
    ensures |port| > 0 ==> (r.Ok? <==> |arguments| > ThirdProperty)
    ensures r.Err? ==> r.error == PortIndexOutOfBounds
    ensures |port| > 0 && r.Ok? ==>
              |r.value| == |arguments| &&
              r.value[ThirdProperty] == DecimalString(port[0] as int) &&
              forall i :: 0 <= i < |arguments| && i != ThirdProperty ==> r.value[i] == arguments[i]
  {
    if |port| == 0 then Ok(arguments)
    else if |arguments| <= ThirdProperty then Err(PortIndexOutOfBounds)
    else Ok(arguments[ThirdProperty := DecimalString(port[0] as int)])
  }

  /** `hubProperties[THIRD_PROPERTY] = String.valueOf(port[0])`, in place; `false` is the
      ArrayIndexOutOfBoundsException of a too short array. */
  method PatchPort(hubProperties: array<string>, port: seq<Int32>) returns (ok: bool)
    modifies hubProperties
    ensures ok == (|port| == 0 || hubProperties.Length > ThirdProperty)
    ensures ok ==> PatchedArguments(old(hubProperties[..]), port) == Ok(hubProperties[..])
    ensures !ok ==> hubProperties[..] == old(hubProperties[..])
  {
    if |port| > 0 {
      if hubProperties.Length <= ThirdProperty {
        return false;
      }
      hubProperties[ThirdProperty] := DecimalString(port[0] as int);
    }
    ok := true;
  }

  /** The patched port reads back as the port. */
  lemma PatchedPortReadsBack(arguments: seq<string>, port: seq<Int32>)
    requires |port| > 0 && |arguments| > ThirdProperty
    ensures ParseInt(PatchedArguments(arguments, port).value[ThirdProperty]) == Some(port[0])
  {
    ParseDecimalRoundTrip(port[0]);
  }

  /** The configuration new GridHub(port...) hands to GridHubConfiguration.build: the hub
      property arguments with the port patched in, or why there is none. `order` is the
      key order in which the property loader visited the hub properties. */
  function HubConfiguration(resources: string -> GridProperties.Resource, subst: GridProperties.Substitution,
                            port: seq<Int32>, order: seq<string>): (r: Result<seq<string>, HubError>)
    requires GridProperties.LoadProperties(Some(GridProperties.HubRole), resources, []).Ok? ==>
               Enumerates(order, GridProperties.LoadProperties(Some(GridProperties.HubRole), resources, []).value.Keys)
    ensures GridProperties.LoadProperties(Some(GridProperties.HubRole), resources, []).Err? ==>
              r.Err? && r.error.PropertiesFailed? && r.error.cause.LoadFailed? &&
              r.error.cause.message == GridProperties.HubLoadMessage
  {
    match GridProperties.Wrapped(GridProperties.HubLoadMessage,
            GridProperties.PropertiesOutcome(Some(GridProperties.HubRole), resources, [], subst, order))
    case Err(e) => Err(PropertiesFailed(e))
    case Ok(arguments) => PatchedArguments(arguments, port)
  }

  class GridHub {
    /** The arguments GridHubConfiguration.build received. */
    const configuration: seq<string>
    /** hub.getUrl() of the Hub built from that configuration. */
    const url: string
    /** Whether hub.start() has succeeded and no stop has succeeded since. */
    var running: bool

    constructor Build(configuration: seq<string>, url: string)
      ensures this.configuration == configuration && this.url == url && !running
    {
      this.configuration := configuration;
      this.url := url;
      running := false;
    }

    /** new GridHub(port...): loads the hub properties, patches the port and builds the
        Hub; `hubUrl` is the URL a Hub reports for a configuration, `order` the key order
        the property loader visited. */
    static method Create(resources: string -> GridProperties.Resource, subst: GridProperties.Substitution,
                         hubUrl: seq<string> -> string, port: seq<Int32>)
      returns (r: Result<GridHub, HubError>, ghost order: seq<string>)
      ensures GridProperties.LoadProperties(Some(GridProperties.HubRole), resources, []).Ok? ==>
                Enumerates(order, GridProperties.LoadProperties(Some(GridProperties.HubRole), resources, []).value.Keys)
      ensures match HubConfiguration(resources, subst, port, order)
              case Err(e) => r == Err(e)
              case Ok(patched) =>
                r.Ok? && fresh(r.value) && !r.value.running &&
                r.value.configuration == patched && r.value.url == hubUrl(patched)
    {
      var loaded;
      loaded, order := GridProperties.GetHubProperties(resources, subst);
      if loaded.Err? {
        return Err(PropertiesFailed(loaded.error)), order;
      }
      var hubProperties := new string[|loaded.value|](i requires 0 <= i < |loaded.value| => loaded.value[i]);
      assert hubProperties[..] == loaded.value;
      var ok := PatchPort(hubProperties, port);
      if !ok {
        return Err(PortIndexOutOfBounds), order;
      }
      var configuration := hubProperties[..];
      var hub := new GridHub.Build(configuration, hubUrl(configuration));
      r := Ok(hub);
    }

    /** run(): start the hub; a failure is the fatal "Unable to start the grid". */
    method Run(startSucceeds: bool) returns (r: Outcome<HubError>)
      modifies this
      ensures r == if startSucceeds then Pass else Fail(StartFailed)
      ensures running == (old(running) || startSucceeds)
    {
      if !startSucceeds {
        return Fail(StartFailed);
      }
      running := true;
      r := Pass;
    }

    /** stop(): a failing shutdown is logged, never reported. */
    method Stop(stopSucceeds: bool)
      modifies this
      ensures running == (old(running) && !stopSucceeds)
    {
      if stopSucceeds {
        running := false;
      }
    }

    /** checkPageResponse() against this hub's URL. */
    method CheckPageResponse(probe: Probe) returns (r: Result<int, HubError>)
      ensures r == PageResponse(probe)
    {
      var code: int := 0;
      match probe {
        case Response(status) => code := status;
        case ProtocolFailure =>
        case IoFailure =>
        case OtherFailure => return Err(ProbeFailed);
      }
      r := Ok(code);
    }

    /** isAlive(): true exactly when the page answers 200. */
    method IsAlive(probe: Probe) returns (r: Result<bool, HubError>)
      ensures r.Err? <==> probe.OtherFailure?
      ensures r.Ok? ==> (r.value <==> probe == Response(200))
      ensures r.Err? ==> PageResponse(probe) == Err(r.error)
    {
      var code := CheckPageResponse(probe);
      if code.Err? {
        return Err(code.error);
      }
      r := Ok(StatusOk == code.value);
    }
  }
}
