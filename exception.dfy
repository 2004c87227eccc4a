/**
 * The central error responder: classifies a panic value and writes a 404 "NOT FOUND" or a
 * 500 "INTERNAL SERVER ERROR" response, always setting the JSON content type, then writing the
 * status line, then the envelope.
 */
module Exception {
  import opened Wrappers
  import opened Failures
  import opened Web
  import opened Transport
  import opened Helper

  /** The envelope of the not-found path: the data is the error's message. */
  function NotFoundResponse(message: string): WebResponse {
    WebResponse(StatusNotFound, "NOT FOUND", Message(message))
  }

  /** The envelope of the internal path: the data is the failure value itself. */
  function InternalResponse(err: Failure): WebResponse {
    WebResponse(StatusInternalServerError, "INTERNAL SERVER ERROR", Raw(err))
  }

  /** The envelope the responder produces for a failure: the not-found check first, the
      internal path otherwise. */
  function Respond(err: Failure): (r: WebResponse)
    ensures Labelled(r)
    ensures r.code == StatusNotFound <==> err.NotFound?
    ensures r.code == StatusInternalServerError <==> err.Other?
    ensures Recover(r) == Some(err)
  {
    match AsNotFound(err)
    case Some(message) => NotFoundResponse(message)
    case None => InternalResponse(err)
  }

  /** What the envelope's data holds about the failure: the message of a 404, the raw value of
      a 500. */
  function Recover(r: WebResponse): Option<Failure> {
    match r.data
    case Message(m) => if r.code == StatusNotFound then Some(NotFound(m)) else None
    case Raw(f) => if r.code == StatusInternalServerError && f.Other? then Some(f) else None
  }

  /** Two failures that get the same envelope are the same failure. */
  lemma RespondInjective(e: Failure, f: Failure)
    ensures Respond(e) == Respond(f) <==> e == f
  {
    if Respond(e) == Respond(f) {
      assert Recover(Respond(e)) == Recover(Respond(f));
    }
  }

  /** The calls either path makes on the writer, in order: content type, status line, envelope. */
  function ResponseCalls(r: WebResponse): seq<Call> {
    [HeaderSet(ContentType, ApplicationJson), HeaderWrite(r.code), BodyWrite(r)]
  }

  /** The effect of one error response on the writer: the content type is set and no other header
      changes, the status line goes out with that header unless one went out before, and exactly
      one envelope is appended. */
  lemma ResponseEffect(s: Observed, r: WebResponse)
    ensures var t := Replay(s, ResponseCalls(r));
      && t.headers == s.headers[ContentType := ApplicationJson]
      && (s.status.None? ==> t.status == Some(r.code) && t.sent == t.headers)
      && (s.status.Some? ==> t.status == s.status && t.sent == s.sent)
      && t.bodies == s.bodies + [r]
  {
    ReplayThree(s, HeaderSet(ContentType, ApplicationJson), HeaderWrite(r.code), BodyWrite(r));
  }

  /** Whatever the failure, the responder asks for exactly one status line and writes exactly one
      envelope. */
  lemma SingleTerminalWrite(err: Failure)
    ensures StatusLines(ResponseCalls(Respond(err))) == 1
    ensures Envelopes(ResponseCalls(Respond(err))) == 1
  {
    var c := ResponseCalls(Respond(err));
    assert c[..2] == [c[0], c[1]];
    assert c[..2][..1] == [c[0]];
    assert c[..2][..1][..0] == [];
    assert StatusLines([c[0]]) == 0 && Envelopes([c[0]]) == 0;
    assert StatusLines(c[..2]) == 1 && Envelopes(c[..2]) == 0;
  }

  /** On a writer nothing has been written to, the transport status equals the envelope's code and
      the JSON content type goes out with the status line. */
  lemma CodeMatchesTransport(s: Observed, err: Failure)
    requires s.status.None?
    ensures var t := Replay(s, ResponseCalls(Respond(err)));
      && t.status == Some(t.bodies[|t.bodies| - 1].code)
      && ContentType in t.sent && t.sent[ContentType] == ApplicationJson
      && (err.NotFound? ==> t.status == Some(StatusNotFound))
      && (err.Other? ==> t.status == Some(StatusInternalServerError))
  {
    ResponseEffect(s, Respond(err));
  }

  /** A NotFoundError on a new recorder, as a GET or DELETE of a missing id raises: status 404 with
      the JSON content type, and the single envelope 404 / "NOT FOUND" carrying the message. */
  lemma MissingIdResponse(message: string)
    ensures Replay(Fresh, ResponseCalls(Respond(NotFound(message))))
      == Observed(map[ContentType := ApplicationJson], Some(404),
                  map[ContentType := ApplicationJson], [WebResponse(404, "NOT FOUND", Message(message))])
  {
    ResponseEffect(Fresh, Respond(NotFound(message)));
  }

  /** A second failure on the same request cannot change the status line the first one wrote;
      its envelope is appended after the first. */
  lemma FirstStatusStands(s: Observed, e: Failure, f: Failure)
    requires s.status.None?
    ensures var t := Replay(s, ResponseCalls(Respond(e)) + ResponseCalls(Respond(f)));
      && t.status == Some(Respond(e).code)
      && t.bodies == s.bodies + [Respond(e), Respond(f)]
  {
    ReplayConcat(s, ResponseCalls(Respond(e)), ResponseCalls(Respond(f)));
    ResponseEffect(s, Respond(e));
    ResponseEffect(Replay(s, ResponseCalls(Respond(e))), Respond(f));
  }

  /** notFoundError: writes the 404 response and reports true when the value is a NotFoundError;
      otherwise reports false and makes no call on the writer. */
  method notFoundError(writer: Recorder, err: Failure) returns (handled: bool)
    requires writer.Valid()
    modifies writer
    ensures writer.Valid()
    ensures handled <==> err.NotFound?
    ensures handled ==> writer.calls == old(writer.calls) + ResponseCalls(Respond(err))
    ensures handled ==> writer.State() == Replay(old(writer.State()), ResponseCalls(Respond(err)))
    ensures !handled ==> writer.calls == old(writer.calls) && writer.State() == old(writer.State())
  {
    var exception := AsNotFound(err);
    if exception.Some? {
      ghost var s := writer.State();
      writer.SetHeader(ContentType, ApplicationJson);
      writer.WriteHeader(StatusNotFound);
      var webResponse := WebResponse(StatusNotFound, "NOT FOUND", Message(exception.value));
      WriteToResponseBody(writer, webResponse);
      ReplayThree(s, HeaderSet(ContentType, ApplicationJson), HeaderWrite(StatusNotFound), BodyWrite(webResponse));
      return true;
    } else {
      return false;
    }
  }

  /** internalServerError: writes the 500 response whose data is the failure value unchanged. */
  method internalServerError(writer: Recorder, err: Failure)
    requires writer.Valid()
    modifies writer
    ensures writer.Valid()
    ensures writer.calls == old(writer.calls) + ResponseCalls(InternalResponse(err))
    ensures writer.State() == Replay(old(writer.State()), ResponseCalls(InternalResponse(err)))
  {
    ghost var s := writer.State();
    writer.SetHeader(ContentType, ApplicationJson);
    writer.WriteHeader(StatusInternalServerError);
    var webResponse := WebResponse(StatusInternalServerError, "INTERNAL SERVER ERROR", Raw(err));
    WriteToResponseBody(writer, webResponse);
    ReplayThree(s, HeaderSet(ContentType, ApplicationJson), HeaderWrite(StatusInternalServerError), BodyWrite(webResponse));
  }

  /** ErrorHandler: the not-found path when it matches, the internal path otherwise, never both.
      It asks for exactly one status line and writes exactly one envelope. */
  method ErrorHandler(writer: Recorder, err: Failure)
    requires writer.Valid()
    modifies writer
    ensures writer.Valid()
    ensures writer.calls == old(writer.calls) + ResponseCalls(Respond(err))
    ensures StatusLines(writer.calls) == StatusLines(old(writer.calls)) + 1
    ensures Envelopes(writer.calls) == Envelopes(old(writer.calls)) + 1
    ensures writer.State() == Replay(old(writer.State()), ResponseCalls(Respond(err)))
    ensures writer.bodies == old(writer.bodies) + [Respond(err)]
    ensures writer.headers == old(writer.headers)[ContentType := ApplicationJson]
    ensures old(writer.status).None? ==> writer.status == Some(Respond(err).code) && writer.sent == writer.headers
    ensures old(writer.status).Some? ==> writer.status == old(writer.status) && writer.sent == old(writer.sent)
  {
    ResponseEffect(writer.State(), Respond(err));
    SingleTerminalWrite(err);
    CountsConcat(writer.calls, ResponseCalls(Respond(err)));
    var handled := notFoundError(writer, err);
    if handled {
      return;
    }
    internalServerError(writer, err);
  }
}
