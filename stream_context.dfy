/**
 * The per-thread stack of active streams (src/common.h): `getCurrentCUDAStream`
 * reads its top, a `CUDAStreamContext` pushes on construction and pops on
 * destruction. Thread-local storage is one `StreamStack` object here.
 */
module StreamContext {

  /** A stream handle; 0 is the default (legacy) stream. */
  type Stream = int

  const DefaultStream: Stream := 0

  class StreamStack {
    var streams: seq<Stream>

    constructor ()
      ensures streams == []
    {
      streams := [];
    }

    /** `getCurrentCUDAStream`: the top of the stack, or the default stream when it is empty. */
    function CurrentStream(): (s: Stream)
      reads this
      ensures |streams| == 0 ==> s == DefaultStream
      ensures |streams| > 0 ==> s == streams[|streams| - 1]
    {
      if |streams| == 0 then DefaultStream else streams[|streams| - 1]
    }
  }

  /** A scoped guard that makes `stream` current while it lives. */
  class CudaStreamContext {
    const stream: Stream

    constructor (st: StreamStack, stream: Stream)
      modifies st
      ensures this.stream == stream
      ensures st.streams == old(st.streams) + [stream]
      ensures st.CurrentStream() == stream
    {
      this.stream := stream;
      new;
      st.streams := st.streams + [stream];
    }

    /** The destructor: the guard's stream must be on top, and it is popped. */
    method Exit(st: StreamStack)
      requires |st.streams| > 0 && st.streams[|st.streams| - 1] == stream
      modifies st
      ensures st.streams == old(st.streams)[..|old(st.streams)| - 1]
    {
      st.streams := st.streams[..|st.streams| - 1];
    }
  }

  /**
   * Two guards nested in stack discipline: each scope sees its own stream,
   * and leaving both restores the stack and the current stream exactly.
   */
  method NestedScopes(st: StreamStack, outer: Stream, inner: Stream)
    modifies st
    ensures st.streams == old(st.streams)
    ensures st.CurrentStream() == old(st.CurrentStream())
  {
    var a := new CudaStreamContext(st, outer);
    assert st.CurrentStream() == outer;
    var b := new CudaStreamContext(st, inner);
    assert st.CurrentStream() == inner;
    b.Exit(st);
    assert st.CurrentStream() == outer;
    a.Exit(st);
  }
}
