// The objects of client/DataProto.c and how they may point at each other.
module DataProtoState {
  class DataProtoSink {
    var up: bool
    var upReport: bool
    var upJob: bool               // the job that reports `up` is pending
    var timerRunning: bool        // receive_timer
    var detaching: FlowBuffer?    // detaching_buffer
    var sending: FlowBuffer?      // the flow the queue is sending from, null also for keep-alives
    var freeing: bool             // the queue is being freed

    constructor ()
      ensures !up && !upReport && !upJob && !timerRunning && !freeing
      ensures detaching == null && sending == null
    {
      up, upReport, upJob, timerRunning, freeing := false, false, false, false, false;
      detaching, sending := null, null;
    }

    // refresh_up_job
    method RefreshUpJob()
      modifies this`upJob
      ensures upJob <==> up != upReport
    {
      if up != upReport {
        upJob := true;
      } else {
        upJob := false;
      }
    }
  }

  class FlowBuffer {
    var flow: DataProtoFlow?      // null when the flow is gone
    var sink: DataProtoSink?      // where the buffer is attached
    var busyHandler: bool         // handler_busy of the queue flow

    constructor ()
      ensures flow == null && sink == null && !busyHandler
    {
      flow, sink, busyHandler := null, null, false;
    }

    // PacketPassFairQueueFlow_IsBusy
    predicate Busy()
      reads this, sink
    {
      sink != null && sink.sending == this
    }

    predicate Detaching()
      reads this, sink
    {
      sink != null && sink.detaching == this
    }
  }

  class DataProtoFlow {
    const sourceId: nat
    const destId: nat
    var sinkDesired: DataProtoSink?
    var b: FlowBuffer

    constructor (b: FlowBuffer, sourceId: nat, destId: nat)
      ensures sinkDesired == null && this.b == b && this.sourceId == sourceId && this.destId == destId
    {
      this.sourceId, this.destId := sourceId, destId;
      sinkDesired, this.b := null, b;
    }
  }

  type Desires = map<DataProtoFlow, DataProtoSink?>

  // What the rest of the client knows of the flows and sinks.
  datatype PlaneState = PlaneState(ok: bool, sinks: set<DataProtoSink>, flows: set<DataProtoFlow>,
                                   desired: Desires, reports: map<DataProtoSink, bool>)

  // Everything allocated and not yet freed.
  class DataPlane {
    ghost var sinks: set<DataProtoSink>
    ghost var flows: set<DataProtoFlow>
    ghost var buffers: set<FlowBuffer>
    ghost var desired: Desires
    ghost var reports: map<DataProtoSink, bool>

    // Flow and buffer belong together.
    ghost predicate FlowsOk()
      reads this, flows, buffers
    {
      && desired.Keys == flows
      && forall f <- flows ::
           && f.b in buffers && f.b.flow == f && desired[f] == f.sinkDesired
           && (f.sinkDesired != null ==> f.sinkDesired in sinks)
    }

    ghost predicate BufferAttached(b: FlowBuffer)
      reads this, b, b.sink
    {
      if b.sink == null then !b.busyHandler
      else b.sink in sinks && (b.busyHandler <==> b.sink.detaching == b)
    }

    // What a flow wants is where its buffer is, unless the buffer is detaching: it is still
    // being sent from.
    ghost predicate BufferOk(b: FlowBuffer)
      reads this, b, b.flow, b.sink
    {
      && BufferAttached(b)
      && (b.flow != null ==> b.flow in flows && b.flow.b == b)
      && (b.Detaching() || (b.flow != null && b.flow.sinkDesired == b.sink))
    }

    ghost predicate BuffersOk()
      reads this, sinks, flows, buffers
    {
      forall b <- buffers ::
        && (b.flow != null ==> b.flow in flows) && (b.sink != null ==> b.sink in sinks) && BufferOk(b)
    }

    // Valid, except for what the buffer of one flow owes to that flow.
    ghost predicate ValidBut(f: DataProtoFlow)
      reads this, sinks, flows, buffers
    {
      && FlowsOk() && SinksOk() && f in flows && (forall s <- sinks :: !s.freeing)
      && forall b <- buffers ::
        && (b.flow != null ==> b.flow in flows) && (b.sink != null ==> b.sink in sinks)
        && BufferAttached(b) && if b.flow == f then b == f.b else BufferOk(b)
    }

    ghost predicate SinksOk()
      reads this, sinks, buffers
    {
      && reports.Keys == sinks
      && forall s <- sinks ::
           && (s.sending != null ==> s.sending in buffers && s.sending.sink == s)
           && (s.detaching != null ==> s.sending == s.detaching)
           && (s.upJob <==> s.up != s.upReport) && reports[s] == s.upReport
    }

    ghost predicate Valid()
      reads this, sinks, flows, buffers
    {
      FlowsOk() && BuffersOk() && SinksOk() && forall s <- sinks :: !s.freeing
    }

    // Valid, while one sink is being freed.
    ghost predicate ValidFreeing(s: DataProtoSink)
      reads this, sinks, flows, buffers
    {
      && FlowsOk() && BuffersOk() && SinksOk() && s in sinks
      && forall t <- sinks :: t.freeing <==> t == s
    }

    ghost function State(): (s: PlaneState)
      reads this, sinks, flows, buffers
      ensures s == PlaneState(s.ok, sinks, flows, desired, reports)
      ensures s.ok ==> desired.Keys == flows && reports.Keys == sinks
    {
      PlaneState(Valid(), sinks, flows, desired, reports)
    }

    constructor ()
      ensures Valid() && sinks == {} && flows == {} && buffers == {} && desired == map[] && reports == map[]
    {
      sinks, flows, buffers := {}, {}, {};
      desired, reports := map[], map[];
    }
  }
}
