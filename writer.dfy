/** The connection's output, as an append-only sequence of response lines. */
module Output {
  import opened Protocol

  /** A PrintWriter over the client's output; flushing is not modelled. */
  class ResponseWriter {
    var sent: seq<Response>

    constructor ()
      ensures sent == []
    {
      sent := [];
    }

    /** println: one more line. */
    method Println(r: Response)
      modifies this
      ensures sent == old(sent) + [r]
    {
      sent := sent + [r];
    }
  }
}
