// The calls into client/DataProto.c that the relay and the peers make, in terms of the state
// of the whole plane: each changes what it says and keeps the plane in order.
module DataPlaneCalls {
  import opened DataProtoState
  import DataProto

  method NewFlow(p: DataPlane, sourceId: nat, destId: nat) returns (f: DataProtoFlow)
    requires p.State().ok
    modifies p
    ensures f.sourceId == sourceId && f.destId == destId
    ensures fresh(f) && fresh(p.buffers - old(p.buffers))
    ensures p.State() == old(p.State()).(flows := old(p.flows) + {f}, desired := old(p.desired)[f := null])
  {
    f := DataProto.FlowInit(p, sourceId, destId);
  }

  method FreeFlow(p: DataPlane, f: DataProtoFlow)
    requires p.State().ok && f in p.flows && p.desired[f] == null
    modifies p, p.sinks, p.flows, p.buffers
    ensures p.buffers <= old(p.buffers)
    ensures p.State() == old(p.State()).(flows := old(p.flows) - {f}, desired := old(p.desired) - {f})
  {
    DataProto.FlowFree(p, f);
  }

  // Attaches the flow if there is a link to attach it to.
  method Attach(p: DataPlane, f: DataProtoFlow, s: DataProtoSink?)
    requires p.State().ok && f in p.flows && p.desired[f] == null && (s != null ==> s in p.sinks)
    modifies p, p.sinks, p.flows, p.buffers
    ensures p.State() == old(p.State()).(desired := old(p.desired)[f := s]) && p.buffers == old(p.buffers)
  {
    if s != null {
      DataProto.FlowAttach(p, f, s);
    }
  }

  // Detaches the flow if it is attached to a link.
  method Detach(p: DataPlane, f: DataProtoFlow, linked: bool)
    requires p.State().ok && f in p.flows && (linked <==> p.desired[f] != null)
    modifies p, p.sinks, p.flows, p.buffers
    ensures p.State() == old(p.State()).(desired := old(p.desired)[f := null]) && p.buffers == old(p.buffers)
  {
    if linked {
      DataProto.FlowDetach(p, f);
    }
  }

  method NewSink(p: DataPlane) returns (s: DataProtoSink)
    requires p.State().ok
    modifies p
    ensures fresh(s) && p.buffers == old(p.buffers)
    ensures p.State() == old(p.State()).(sinks := old(p.sinks) + {s}, reports := old(p.reports)[s := false])
    ensures s !in old(p.sinks) && s !in p.desired.Values
  {
    s := DataProto.SinkInit(p);
  }

  // The sink may go when no flow wants it; afterwards no buffer points to it.
  method FreeSink(p: DataPlane, s: DataProtoSink)
    requires p.State().ok && s in p.sinks && s !in p.desired.Values
    modifies p, p.sinks, p.flows, p.buffers
    ensures p.buffers <= old(p.buffers) && forall b <- p.buffers :: b.sink != s
    ensures p.State() == old(p.State()).(sinks := old(p.sinks) - {s}, reports := old(p.reports) - {s})
  {
    DataProto.SinkFree(p, s);
  }

  method ReportUp(p: DataPlane, s: DataProtoSink) returns (up: bool)
    requires p.State().ok && s in p.sinks && s.upJob
    modifies p, p.sinks, p.flows, p.buffers
    ensures up == !old(p.reports[s]) && p.buffers == old(p.buffers)
    ensures p.State() == old(p.State()).(reports := old(p.reports)[s := up])
  {
    up := DataProto.UpJobHandler(p, s);
  }
}
