/** The grid bean: in local mode it owns an embedded hub and one node and starts them
    unless a grid already answers at the hub's URL; otherwise it holds nothing and a
    remote grid farm is used. */
module Grid {
  import opened Common
  import GridProperties
  import GridHub

  const ResponseStatus404: int := 404
  const ResponseStatus200: int := 200

  datatype GridError =
    | HubFailed(cause: GridHub.HubError)  // new GridHub() or grid.run() threw
    | NodeBuildFailed                     // "Unable to start selenium node"
    | NodeStartFailed                     // "Unable to start the node"

  /** The selenium node the grid starts beside its hub. Only its life cycle is modelled:
      whether building, starting and stopping the remote server succeed is decided
      outside the model. */
  class GridNode {
    var running: bool

    constructor Build()
      ensures !running
    {
      running := false;
    }

    /** start(): a failure is the fatal "Unable to start the node". */
    method Start(startSucceeds: bool) returns (r: Outcome<GridError>)
      modifies this
      ensures r == if startSucceeds then Pass else Fail(NodeStartFailed)
      ensures running == (old(running) || startSucceeds)
    {
      if !startSucceeds {
        return Fail(NodeStartFailed);
      }
      running := true;
      r := Pass;
    }

    /** stop(): the selenium server is stopped. */
    method Stop()
      modifies this
      ensures !running
    {
      running := false;
    }
  }

  class Grid {
    const isGridLocal: bool
    /** The embedded hub, present only for a local grid. */
    var grid: GridHub.GridHub?
    /** The embedded node, present only for a local grid. */
    var node: GridNode?

    constructor Init(isGridLocal: bool, grid: GridHub.GridHub?, node: GridNode?)
      ensures this.isGridLocal == isGridLocal && this.grid == grid && this.node == node
    {
      this.isGridLocal := isGridLocal;
      this.grid := grid;
      this.node := node;
    }

    /** parseGridStatus(): the status of a GET on the hub's URL; 0 when there is no hub,
        its URL is empty, or the request failed with a protocol or I/O error. Any other
        exception of the request escapes. */
    function ParseGridStatus(probe: GridHub.Probe): (r: Result<int, GridHub.HubError>)
      reads this
      ensures grid == null || grid.url == "" ==> r == Ok(0)
      ensures r.Err? <==> grid != null && grid.url != "" && probe.OtherFailure?
      ensures r.Ok? && r.value != 0 ==> grid != null && grid.url != "" && probe.Response? && probe.status == r.value
      ensures grid != null && grid.url != "" && probe.Response? ==> r == Ok(probe.status)
      ensures grid != null && grid.url != "" && (probe.ProtocolFailure? || probe.IoFailure?) ==> r == Ok(0)
    {
      if grid != null && grid.url != "" then GridHub.PageResponse(probe) else Ok(0)
    }

    /** isAlive(): the hub answered 200; every failure of the check reads as false. */
    function IsAlive(probe: GridHub.Probe): (r: bool)
      reads this
      ensures r <==> grid != null && grid.url != "" && probe == GridHub.Response(ResponseStatus200)
    {
      ParseGridStatus(probe) == Ok(ResponseStatus200)
    }

    /** isClosed(): the hub answered 404; every failure of the check reads as false, so a
        grid that cannot be reached at all is neither alive nor closed. */
    function IsClosed(probe: GridHub.Probe): (r: bool)
      reads this
      ensures r <==> grid != null && grid.url != "" && probe == GridHub.Response(ResponseStatus404)
      ensures r ==> !IsAlive(probe)
    {
      ParseGridStatus(probe) == Ok(ResponseStatus404)
    }

    /** new Grid(localGrid). For a local grid: the hub is built from the hub properties
        (`resources`, `subst`, `hubUrl` and `order` as in GridHub.Create), then the node
        (`nodeBuilds`), then the hub's URL is probed once (`probe`); only when that probe
        does not report the grid alive are the hub and then the node started
        (`hubStarts`, `nodeStarts`). `hub` is the hub object built on the way, so that a
        failure after it was built (the node failing to start leaves the hub running)
        can be observed. */
    static method Create(localGrid: bool, resources: string -> GridProperties.Resource,
                         subst: GridProperties.Substitution, hubUrl: seq<string> -> string,
                         nodeBuilds: bool, probe: GridHub.Probe, hubStarts: bool, nodeStarts: bool)
      returns (r: Result<Grid, GridError>, hub: GridHub.GridHub?, ghost order: seq<string>)
      ensures !localGrid ==>
                hub == null && r.Ok? && fresh(r.value) &&
                !r.value.isGridLocal && r.value.grid == null && r.value.node == null
      ensures localGrid && GridProperties.LoadProperties(Some(GridProperties.HubRole), resources, []).Ok? ==>
                Enumerates(order, GridProperties.LoadProperties(Some(GridProperties.HubRole), resources, []).value.Keys)
      ensures localGrid ==>
                match GridHub.HubConfiguration(resources, subst, [], order)
                case Err(e) => hub == null && r == Err(HubFailed(e))
                case Ok(configuration) =>
                  hub != null && fresh(hub) &&
                  hub.configuration == configuration && hub.url == hubUrl(configuration) &&
                  var alive := hub.url != "" && probe == GridHub.Response(ResponseStatus200);
                  (!nodeBuilds ==> r == Err(NodeBuildFailed) && !hub.running) &&
                  (nodeBuilds && !alive && !hubStarts ==> r == Err(HubFailed(GridHub.StartFailed)) && !hub.running) &&
                  (nodeBuilds && !alive && hubStarts && !nodeStarts ==> r == Err(NodeStartFailed) && hub.running) &&
                  (nodeBuilds && (alive || (hubStarts && nodeStarts)) ==>
                     r.Ok? && fresh(r.value) && r.value.isGridLocal && r.value.grid == hub &&
                     r.value.node != null && fresh(r.value.node) &&
                     hub.running == !alive && r.value.node.running == !alive)
    {
      order := [];
      if !localGrid {
        var g := new Grid.Init(false, null, null);
        return Ok(g), null, order;
      }
      var built;
      built, order := GridHub.GridHub.Create(resources, subst, hubUrl, []);
      if built.Err? {
        return Err(HubFailed(built.error)), null, order;
      }
      hub := built.value;
      if !nodeBuilds {
        return Err(NodeBuildFailed), hub, order;
      }
      var n := new GridNode.Build();
      var g := new Grid.Init(true, hub, n);
      if !g.IsAlive(probe) {
        var started := hub.Run(hubStarts);
        if started.Fail? {
          return Err(HubFailed(started.error)), hub, order;
        }
        var nodeStarted := n.Start(nodeStarts);
        if nodeStarted.Fail? {
          return Err(nodeStarted.error), hub, order;
        }
      }
      r := Ok(g);
    }

    /** close(): the node is stopped first; the hub is then probed through its own
        isAlive() and stopped (`hubStops` says whether its shutdown succeeds) only when it
        answers 200. An exception of that probe escapes after the node was stopped. */
    method Close(probe: GridHub.Probe, hubStops: bool) returns (r: Outcome<GridHub.HubError>)
      modifies node, grid
      ensures node != null ==> !node.running
      ensures grid == null ==> r == Pass
      ensures grid != null ==>
                match GridHub.PageResponse(probe)
                case Err(e) => r == Fail(e) && grid.running == old(grid.running)
                case Ok(code) =>
                  r == Pass &&
                  grid.running == (old(grid.running) && !(code == GridHub.StatusOk && hubStops))
    {
      if node != null {
        node.Stop();
      }
      r := Pass;
      if grid != null {
        var alive := grid.IsAlive(probe);
        if alive.Err? {
          return Fail(alive.error);
        }
        if alive.value {
          grid.Stop(hubStops);
        }
      }
    }
  }

  /** A grid that is not local has no hub to ask, so it is never reported alive or closed. */
  lemma RemoteGridIsNeitherAliveNorClosed(g: Grid, probe: GridHub.Probe)
    requires g.grid == null
    ensures g.ParseGridStatus(probe) == Ok(0)
    ensures !g.IsAlive(probe) && !g.IsClosed(probe)
  {
  }

  /** On a hub with a URL, the grid's liveness check agrees with the hub's own except that
      it swallows the exceptions the hub's check lets escape. */
  lemma AliveAgreesWithHub(g: Grid, probe: GridHub.Probe)
    requires g.grid != null && g.grid.url != ""
    ensures g.IsAlive(probe) <==> GridHub.PageResponse(probe) == Ok(GridHub.StatusOk)
    ensures GridHub.PageResponse(probe).Err? ==> !g.IsAlive(probe) && !g.IsClosed(probe)
  {
  }
}
