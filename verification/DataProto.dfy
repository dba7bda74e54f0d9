// client/DataProto.c: flows of frames, the sinks they are sent to, and the buffers between
// them. A flow asks for a sink; its buffer may have to stay on the previous sink until the
// sink's queue has finished sending from it.
module DataProto {
  import opened DataProtoState

  // flow_buffer_attach
  method BufferAttach(b: FlowBuffer, s: DataProtoSink)
    requires b.sink == null && !s.freeing
    modifies b`sink
    ensures b.sink == s
  {
    b.sink := s;
  }

  // flow_buffer_detach, with the freeing of the queue flow
  method BufferDetach(b: FlowBuffer)
    requires b.sink != null && (b.sink.sending != b || b.sink.freeing)
    modifies b`sink, b`busyHandler, b.sink`sending, b.sink`detaching
    ensures b.sink == null && !b.busyHandler
    ensures old(b.sink).detaching == if old(b.sink.detaching) == b then null else old(b.sink.detaching)
    ensures old(b.sink).sending == if old(b.sink.sending) == b then null else old(b.sink.sending)
  {
    if b.sink.sending == b {
      b.sink.sending := null;
    }
    b.busyHandler := false;
    if b.sink.detaching == b {
      b.sink.detaching := null;
    }
    b.sink := null;
  }

  // flow_buffer_schedule_detach
  method BufferScheduleDetach(b: FlowBuffer)
    requires b.sink != null && b.sink.sending == b && (b.sink.detaching == null || b.sink.detaching == b)
    requires b.sink.detaching == b ==> b.busyHandler
    modifies b`busyHandler, b.sink`detaching
    ensures b.sink.detaching == b && b.busyHandler
  {
    if b.sink.detaching == b {
      return;
    }
    b.busyHandler := true;
    b.sink.detaching := b;
  }

  // flow_buffer_finish_detach
  method BufferFinishDetach(p: DataPlane, b: FlowBuffer)
    requires b.sink != null && b.sink.detaching == b && (b.sink.sending != b || b.sink.freeing)
    requires b.flow != null && b.flow.sinkDesired != null ==> !b.flow.sinkDesired.freeing
    modifies p`buffers, b`sink, b`busyHandler, b.sink`sending, b.sink`detaching
    ensures !b.busyHandler && b.sink == if b.flow == null then null else b.flow.sinkDesired
    ensures p.buffers == if b.flow == null then old(p.buffers) - {b} else old(p.buffers)
    ensures old(b.sink).detaching == null
    ensures old(b.sink).sending == if old(b.sink.sending) == b then null else old(b.sink.sending)
  {
    BufferDetach(b);
    if b.flow == null {
      p.buffers := p.buffers - {b};
    } else if b.flow.sinkDesired != null {
      BufferAttach(b, b.flow.sinkDesired);
    }
  }

  // DataProtoSink_Init
  method SinkInit(p: DataPlane) returns (s: DataProtoSink)
    requires p.Valid()
    modifies p`sinks, p`reports
    ensures p.Valid() && fresh(s) && p.sinks == old(p.sinks) + {s} && p.reports == old(p.reports)[s := false]
    ensures forall f <- p.desired :: p.desired[f] != s
  {
    s := new DataProtoSink();
    p.sinks := p.sinks + {s};
    p.reports := p.reports[s := false];
  }

  // PacketPassFairQueue_PrepareFree
  method PrepareFree(p: DataPlane, s: DataProtoSink)
    requires p.Valid() && s in p.sinks
    modifies s`freeing
    ensures p.ValidFreeing(s)
  {
    s.freeing := true;
  }

  // The first part of DataProtoSink_Free: the buffer that waits to leave the sink leaves it.
  method ReleaseDetaching(p: DataPlane, s: DataProtoSink)
    requires p.ValidFreeing(s) && s !in p.desired.Values
    modifies p`buffers, s, p.buffers
    ensures p.ValidFreeing(s) && forall b <- p.buffers :: b.sink != s
    ensures p.buffers == if old(s.detaching) != null && old(s.detaching.flow) == null then
      old(p.buffers) - {old(s.detaching)} else old(p.buffers)
  {
    if s.detaching != null {
      BufferFinishDetach(p, s.detaching);
    }
  }

  method RemoveSink(p: DataPlane, s: DataProtoSink)
    requires p.ValidFreeing(s) && s !in p.desired.Values && forall b <- p.buffers :: b.sink != s
    modifies p`sinks, p`reports
    ensures p.Valid() && p.sinks == old(p.sinks) - {s} && p.reports == old(p.reports) - {s}
  {
    p.sinks := p.sinks - {s};
    p.reports := p.reports - {s};
  }

  // DataProtoSink_Free
  method SinkFree(p: DataPlane, s: DataProtoSink)
    requires p.Valid() && s in p.sinks && s !in p.desired.Values
    modifies p`sinks, p`reports, p`buffers, p.sinks, p.buffers
    ensures p.Valid() && p.sinks == old(p.sinks) - {s} && p.reports == old(p.reports) - {s}
    ensures forall b <- p.buffers :: b.sink != s
    ensures p.buffers == if old(s.detaching) != null && old(s.detaching.flow) == null then
      old(p.buffers) - {old(s.detaching)} else old(p.buffers)
  {
    PrepareFree(p, s);
    ReleaseDetaching(p, s);
    RemoveSink(p, s);
  }

  // DataProtoSink_Received. A peer that reports that it receives nothing is sent a keep-alive.
  method SinkReceived(p: DataPlane, s: DataProtoSink, peerReceiving: bool) returns (keepAlive: bool)
    requires p.Valid() && s in p.sinks
    modifies s`up, s`upJob, s`timerRunning
    ensures p.State() == old(p.State())
    ensures p.Valid() && s.timerRunning && s.up == peerReceiving && keepAlive == !peerReceiving
  {
    s.timerRunning := true;
    keepAlive := false;
    if !peerReceiving {
      s.up := false;
      keepAlive := true;
    } else {
      s.up := true;
    }
    s.RefreshUpJob();
  }

  // receive_timer_handler
  method ReceiveTimerHandler(p: DataPlane, s: DataProtoSink)
    requires p.Valid() && s in p.sinks && s.timerRunning
    modifies s`up, s`upJob, s`timerRunning
    ensures p.State() == old(p.State())
    ensures p.Valid() && !s.timerRunning && !s.up
  {
    s.timerRunning := false;
    s.up := false;
    s.RefreshUpJob();
  }

  // up_job_handler, up to the call of the user's handler
  method UpJobHandler(p: DataPlane, s: DataProtoSink) returns (up: bool)
    requires p.Valid() && s in p.sinks && s.upJob
    modifies p`reports, s`upReport, s`upJob
    ensures p.Valid() && up == !old(p.reports[s]) && p.reports == old(p.reports)[s := up] && !s.upJob
  {
    s.upJob := false;
    s.upReport := s.up;
    p.reports := p.reports[s := s.up];
    up := s.up;
  }

  method Register(p: DataPlane, f: DataProtoFlow)
    requires p.Valid() && f !in p.flows && f.b !in p.buffers && f.sinkDesired == null
    requires f.b.flow == f && f.b.sink == null && !f.b.busyHandler
    modifies p`flows, p`buffers, p`desired
    ensures p.Valid() && p.flows == old(p.flows) + {f} && p.buffers == old(p.buffers) + {f.b}
    ensures p.desired == old(p.desired)[f := null]
  {
    p.flows := p.flows + {f};
    p.buffers := p.buffers + {f.b};
    p.desired := p.desired[f := null];
  }

  // DataProtoFlow_Init
  method FlowInit(p: DataPlane, sourceId: nat, destId: nat) returns (f: DataProtoFlow)
    requires p.Valid()
    modifies p`flows, p`buffers, p`desired
    ensures p.Valid() && fresh(f) && fresh(f.b) && p.flows == old(p.flows) + {f} && p.buffers == old(p.buffers) + {f.b}
    ensures f.sourceId == sourceId && f.destId == destId
    ensures p.desired == old(p.desired)[f := null]
  {
    var b := new FlowBuffer();
    f := new DataProtoFlow(b, sourceId, destId);
    b.flow := f;
    Register(p, f);
  }

  method Suspend(p: DataPlane, b: FlowBuffer)
    requires p.Valid() && b in p.buffers && b.Busy()
    modifies b`busyHandler, b.sink`detaching
    ensures p.Valid() && b.Detaching()
  {
    BufferScheduleDetach(b);
  }

  method Forget(p: DataPlane, f: DataProtoFlow)
    requires p.Valid() && f in p.flows && f.b.Detaching()
    modifies p`flows, p`desired, f.b`flow
    ensures p.Valid() && p.flows == old(p.flows) - {f} && p.desired == old(p.desired) - {f}
    ensures f.b.flow == null
  {
    f.b.flow := null;
    p.flows := p.flows - {f};
    p.desired := p.desired - {f};
  }

  // The flow goes; its buffer is freed when the queue is done with it.
  method Orphan(p: DataPlane, f: DataProtoFlow)
    requires p.Valid() && f in p.flows && p.desired[f] == null && f.b.Busy()
    modifies p`flows, p`desired, f.b`flow, f.b`busyHandler, f.b.sink
    ensures p.Valid() && p.flows == old(p.flows) - {f} && p.desired == old(p.desired) - {f}
    ensures f.b.flow == null && f.b.Detaching()
  {
    Suspend(p, f.b);
    Forget(p, f);
  }

  // flow_buffer_free of an unattached buffer, together with its flow
  method Discard(p: DataPlane, f: DataProtoFlow)
    requires p.Valid() && f in p.flows && f.b.sink == null
    modifies p`flows, p`buffers, p`desired
    ensures p.Valid() && p.flows == old(p.flows) - {f} && p.desired == old(p.desired) - {f}
    ensures p.buffers == old(p.buffers) - {f.b}
  {
    p.buffers := p.buffers - {f.b};
    p.flows := p.flows - {f};
    p.desired := p.desired - {f};
  }

  // DataProtoFlow_Free. The flow wants no sink, so an attached buffer is busy.
  method FlowFree(p: DataPlane, f: DataProtoFlow)
    requires p.Valid() && f in p.flows && p.desired[f] == null
    modifies p`flows, p`buffers, p`desired, f.b`flow, f.b`busyHandler, f.b.sink
    ensures p.Valid() && p.flows == old(p.flows) - {f} && p.desired == old(p.desired) - {f}
    ensures p.buffers == if old(f.b.Busy()) then old(p.buffers) else old(p.buffers) - {f.b}
    ensures old(f.b.Busy()) ==> f.b.flow == null && f.b.Detaching()
  {
    if f.b.sink != null {
      if f.b.Busy() {
        Orphan(p, f);
      } else {
        assert false;
      }
    } else {
      Discard(p, f);
    }
  }

  // Sets the sink the flow wants, once its buffer is there or is being detached.
  method Want(p: DataPlane, f: DataProtoFlow, s: DataProtoSink?)
    requires p.ValidBut(f) && (f.b.Detaching() || f.b.sink == s) && (s == null || s in p.sinks)
    modifies p`desired, f`sinkDesired
    ensures p.Valid() && p.desired == old(p.desired)[f := s]
  {
    f.sinkDesired := s;
    p.desired := p.desired[f := s];
  }

  // DataProtoFlow_Attach. An attached buffer that is not busy would be moved at once, but
  // a flow that wants no sink has no such buffer.
  method FlowAttach(p: DataPlane, f: DataProtoFlow, s: DataProtoSink)
    requires p.Valid() && f in p.flows && s in p.sinks && p.desired[f] == null
    modifies p`desired, f`sinkDesired, f.b`sink, f.b`busyHandler, f.b.sink
    ensures p.Valid() && p.desired == old(p.desired)[f := s]
    ensures f.b.sink == if old(f.b.Busy()) then old(f.b.sink) else s
  {
    var b := f.b;
    if b.sink != null {
      if b.Busy() {
        BufferScheduleDetach(b);
      } else {
        assert false;
      }
    } else {
      BufferAttach(b, s);
    }
    Want(p, f, s);
  }

  // DataProtoFlow_Detach
  method FlowDetach(p: DataPlane, f: DataProtoFlow)
    requires p.Valid() && f in p.flows && p.desired[f] != null
    modifies p`desired, f`sinkDesired, f.b`sink, f.b`busyHandler, f.b.sink
    ensures p.Valid() && p.desired == old(p.desired)[f := null]
    ensures f.b.sink == if old(f.b.Busy()) then old(f.b.sink) else null
  {
    var b := f.b;
    if b.Busy() {
      BufferScheduleDetach(b);
    } else {
      BufferDetach(b);
    }
    Want(p, f, null);
  }

  // The queue of the sink starts sending from an attached buffer.
  method QueueStart(p: DataPlane, s: DataProtoSink, b: FlowBuffer)
    requires p.Valid() && s in p.sinks && b in p.buffers && b.sink == s && s.sending == null
    modifies s`sending
    ensures p.State() == old(p.State())
    ensures p.Valid() && b.Busy()
  {
    s.sending := b;
  }

  // output_handler_done of the queue: the busy handler finishes a detach that waited.
  method QueueDone(p: DataPlane, s: DataProtoSink)
    requires p.Valid() && s in p.sinks && s.sending != null
    modifies p`buffers, s`sending, s`detaching, s.sending`sink, s.sending`busyHandler
    ensures p.State() == old(p.State())
    ensures p.Valid() && s.sending == null && s.detaching == null
    ensures var b := old(s.sending);
      if b.flow == null then p.buffers == old(p.buffers) - {b}
      else p.buffers == old(p.buffers) && b.sink == b.flow.sinkDesired
  {
    var b := s.sending;
    s.sending := null;
    if b.busyHandler {
      BufferFinishDetach(p, b);
    }
  }

  // Once no buffer is waiting to be moved, every flow's buffer is on the sink the flow wants.
  lemma SettledPlane(p: DataPlane)
    requires p.Valid() && forall s <- p.sinks :: s.detaching == null
    ensures forall f <- p.flows :: f.b.sink == f.sinkDesired
    ensures forall b <- p.buffers :: b.flow != null
  {
    forall f <- p.flows ensures f.b.sink == f.sinkDesired {
      assert f.b in p.buffers;
    }
  }
}
