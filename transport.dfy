/**
 * The response writer the responder writes to, modelled on httptest.ResponseRecorder, the writer
 * the tests use. Its behaviour is given twice: as a pure replay of the calls made on it (Step,
 * Replay) and as a class whose methods are proved to follow that replay.
 *
 * Behaviour kept from the recorder: `Header().Set` replaces one single-valued header; the first
 * `WriteHeader` commits the status line and takes a snapshot of the headers sent with it, later
 * calls are ignored; writing a body commits status 200 first when no status was written. The
 * recorder also keeps the calls made on it, so a method's contract can say which calls it made.
 * A server's http.ResponseWriter differs: it refuses a body after a 1xx, 204 or 304 status and
 * adds headers such as Date when it sends the status line.
 */
module Transport {
  import opened Wrappers
  import opened Web

  const ContentType := "Content-Type"
  const ApplicationJson := "application/json"

  /** One call made on the writer. */
  datatype Call =
    | HeaderSet(key: string, value: string)   // writer.Header().Set(key, value)
    | HeaderWrite(code: int)                  // writer.WriteHeader(code)
    | BodyWrite(body: WebResponse)            // one envelope written to the body

  /** What a client of the writer observes: the live header map, the committed status, the headers
      sent with the status line, and the envelopes written so far. */
  datatype Observed = Observed(
    headers: map<string, string>,
    status: Option<int>,
    sent: map<string, string>,
    bodies: seq<WebResponse>)

  /** The status line goes out once, with the headers set up to that moment. */
  function Commit(s: Observed, code: int): Observed {
    if s.status.Some? then s else s.(status := Some(code), sent := s.headers)
  }

  function Step(s: Observed, c: Call): Observed {
    match c
    case HeaderSet(k, v) => s.(headers := s.headers[k := v])
    case HeaderWrite(code) => Commit(s, code)
    case BodyWrite(body) => var t := Commit(s, StatusOK); t.(bodies := t.bodies + [body])
  }

  /** Number of envelopes a call sequence writes. */
  function Envelopes(calls: seq<Call>): nat {
    if calls == [] then 0
    else Envelopes(calls[..|calls| - 1]) + (if calls[|calls| - 1].BodyWrite? then 1 else 0)
  }

  /** Number of status lines a call sequence asks for. */
  function StatusLines(calls: seq<Call>): nat {
    if calls == [] then 0
    else StatusLines(calls[..|calls| - 1]) + (if calls[|calls| - 1].HeaderWrite? then 1 else 0)
  }

  /** The writer's state after the calls, in order. The body is append-only, one envelope per body
      write, and a committed status line never changes again. */
  function Replay(s: Observed, calls: seq<Call>): (t: Observed)
    ensures s.bodies <= t.bodies
    ensures |t.bodies| == |s.bodies| + Envelopes(calls)
    ensures s.status.Some? ==> t.status == s.status && t.sent == s.sent
    ensures StatusLines(calls) + Envelopes(calls) > 0 ==> t.status.Some?
    decreases |calls|
  {
    if calls == [] then s else Step(Replay(s, calls[..|calls| - 1]), calls[|calls| - 1])
  }

  /** Replaying a sequence made of two parts replays the first and then the second. */
  lemma {:induction false} ReplayConcat(s: Observed, a: seq<Call>, b: seq<Call>)
    ensures Replay(s, a + b) == Replay(Replay(s, a), b)
    decreases |b|
  {
    if b == [] {
      assert a + b == a;
    } else {
      var front := b[..|b| - 1];
      assert (a + b)[..|a + b| - 1] == a + front;
      assert (a + b)[|a + b| - 1] == b[|b| - 1];
      ReplayConcat(s, a, front);
    }
  }

  /** Calls made after others add their status lines and envelopes to the others'. */
  lemma {:induction false} CountsConcat(a: seq<Call>, b: seq<Call>)
    ensures StatusLines(a + b) == StatusLines(a) + StatusLines(b)
    ensures Envelopes(a + b) == Envelopes(a) + Envelopes(b)
    decreases |b|
  {
    if b == [] {
      assert a + b == a;
    } else {
      var front := b[..|b| - 1];
      assert (a + b)[..|a + b| - 1] == a + front;
      assert (a + b)[|a + b| - 1] == b[|b| - 1];
      CountsConcat(a, front);
    }
  }

  /** A three-call sequence is three steps. */
  lemma ReplayThree(s: Observed, x: Call, y: Call, z: Call)
    ensures Replay(s, [x, y, z]) == Step(Step(Step(s, x), y), z)
  {
    assert [x, y, z][..2] == [x, y];
    assert [x, y][..1] == [x];
    assert [x][..0] == [];
    assert Replay(s, [x]) == Step(s, x);
    assert Replay(s, [x, y]) == Step(Step(s, x), y);
  }

  /** The state of a new writer: no headers, nothing written. */
  const Fresh := Observed(map[], None, map[], [])

  /** One more call is one more step. */
  lemma ReplayAppend(s: Observed, calls: seq<Call>, c: Call)
    ensures Replay(s, calls + [c]) == Step(Replay(s, calls), c)
  {
    assert (calls + [c])[..|calls|] == calls;
  }

  class Recorder {
    var headers: map<string, string>
    var status: Option<int>
    var sent: map<string, string>
    var bodies: seq<WebResponse>
    /** Every call made on this writer so far, in order. */
    ghost var calls: seq<Call>

    function State(): Observed
      reads this
    {
      Observed(headers, status, sent, bodies)
    }

    /** What the writer shows is what its calls produced on a new writer. */
    ghost predicate Valid()
      reads this
    {
      State() == Replay(Fresh, calls)
    }

    /** A new recorder: no headers, nothing written, no calls made. */
    constructor ()
      ensures Valid()
      ensures State() == Fresh && calls == []
    {
      headers, status, sent, bodies := map[], None, map[], [];
      calls := [];
    }

    method SetHeader(key: string, value: string)
      requires Valid()
      modifies this
      ensures Valid()
      ensures calls == old(calls) + [HeaderSet(key, value)]
      ensures State() == Step(old(State()), HeaderSet(key, value))
    {
      headers := headers[key := value];
      ReplayAppend(Fresh, calls, HeaderSet(key, value));
      calls := calls + [HeaderSet(key, value)];
    }

    method WriteHeader(code: int)
      requires Valid()
      modifies this
      ensures Valid()
      ensures calls == old(calls) + [HeaderWrite(code)]
      ensures State() == Step(old(State()), HeaderWrite(code))
    {
      if status.None? {
        status, sent := Some(code), headers;
      }
      ReplayAppend(Fresh, calls, HeaderWrite(code));
      calls := calls + [HeaderWrite(code)];
    }

    /** Writes one envelope; the implicit commit of 200 is part of this call, not a call of its own. */
    method Write(body: WebResponse)
      requires Valid()
      modifies this
      ensures Valid()
      ensures calls == old(calls) + [BodyWrite(body)]
      ensures State() == Step(old(State()), BodyWrite(body))
    {
      if status.None? {
        status, sent := Some(StatusOK), headers;
      }
      bodies := bodies + [body];
      ReplayAppend(Fresh, calls, BodyWrite(body));
      calls := calls + [BodyWrite(body)];
    }
  }
}
