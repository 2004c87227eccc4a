/** helper.WriteToResponseBody: encodes the envelope as JSON and writes it to the body. The
    encoding is not modelled; the envelope itself is what the body receives. */
module Helper {
  import opened Web
  import opened Transport

  method WriteToResponseBody(writer: Recorder, response: WebResponse)
    requires writer.Valid()
    modifies writer
    ensures writer.Valid()
    ensures writer.calls == old(writer.calls) + [BodyWrite(response)]
    ensures writer.State() == Step(old(writer.State()), BodyWrite(response))
  {
    writer.Write(response);
  }
}
