/** The response envelope `{Code, Status, Data}` and the status codes the responder uses. */
module Web {
  import opened Failures

  /** What `Data` can hold on the error paths: a message string, or the raw failure value. */
  datatype Payload = Message(text: string) | Raw(failure: Failure)

  datatype WebResponse = WebResponse(code: int, status: string, data: Payload)

  const StatusOK := 200
  const StatusNotFound := 404
  const StatusInternalServerError := 500

  /** The labels the error responder pairs with the codes it writes. */
  const ErrorLabels: map<int, string> :=
    map[StatusNotFound := "NOT FOUND", StatusInternalServerError := "INTERNAL SERVER ERROR"]

  /** The envelope carries an error code together with the label belonging to that code. */
  predicate Labelled(r: WebResponse) {
    r.code in ErrorLabels && ErrorLabels[r.code] == r.status
  }

  /** Each label belongs to one code only, so the label alone determines the code. */
  lemma LabelsDetermineCode(r: WebResponse, q: WebResponse)
    requires Labelled(r) && Labelled(q)
    ensures r.status == q.status <==> r.code == q.code
  {
  }
}
