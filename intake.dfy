/** Request intake of `POST /send-messages` (index.js:183-191): which field supplies the
    recipient list, the `autoSend` default and the rejection of an empty list. */
module Intake {
  import opened Results
  import opened JsValues

  /** The fields of the JSON body the handler reads; an absent field is `Undefined`. */
  datatype Request = Request(numbersList: JsValue, numbers: JsValue, message: string, autoSend: JsValue)

  /** The JSON response `{ status, message }`; `status` is "success" or "failed". */
  datatype Response = Response(status: string, message: string)

  function FailedWith(message: string): Response {
    Response("failed", message)
  }

  const NoNumbers: Response := FailedWith("No numbers")
  const Completed: Response := Response("success", "Broadcast Completed!")

  /** What the handler goes on with once the body has been accepted. */
  datatype Accepted = Accepted(numbers: JsValue, message: string, autoSend: bool)

  /** The recipient list: the first truthy one of `numbersList` and `numbers`, else an
      empty array. */
  function SelectNumbers(req: Request): (v: JsValue)
    ensures Truthy(v) || v == Arr([])
    ensures v == req.numbersList || v == req.numbers || v == Arr([])
  {
    if Truthy(req.numbersList) then req.numbersList
    else if Truthy(req.numbers) then req.numbers
    else Arr([])
  }

  /** Automatic sending is on when the body has no `autoSend` field, and otherwise follows
      the field's truthiness. */
  predicate AutoSend(req: Request) {
    if req.autoSend.Undefined? then true else Truthy(req.autoSend)
  }

  /** The handler up to its empty-list check: either the batch to run, or the response it
      sends at once, before any session work. */
  function Accept(req: Request): (r: Result<Accepted, Response>)
    ensures r.Err? ==> r.error == NoNumbers
    ensures r.Ok? ==> Truthy(r.value.numbers) && !LengthIsZero(r.value.numbers)
    ensures r.Ok? ==> r.value.message == req.message && r.value.autoSend == AutoSend(req)
  {
    var numbers := SelectNumbers(req);
    if !Truthy(numbers) || LengthIsZero(numbers) then Err(NoNumbers)
    else Ok(Accepted(numbers, req.message, AutoSend(req)))
  }

  /** A truthy `numbersList` is used whatever `numbers` holds, and so an empty
      `numbersList` array is rejected even beside a non-empty `numbers`. */
  lemma NumbersListTakesPrecedence(req: Request)
    requires Truthy(req.numbersList)
    ensures SelectNumbers(req) == req.numbersList
    ensures Accept(req).Ok? <==> !LengthIsZero(req.numbersList)
    ensures Accept(req).Ok? ==> Accept(req).value.numbers == req.numbersList
    ensures req.numbersList == Arr([]) ==> Accept(req) == Err(NoNumbers)
  {
  }

  /** `numbers` is the fallback when `numbersList` is missing or falsy. */
  lemma LegacyNumbersFallback(req: Request)
    requires !Truthy(req.numbersList) && Truthy(req.numbers)
    ensures Accept(req).Ok? <==> !LengthIsZero(req.numbers)
    ensures Accept(req).Ok? ==> Accept(req).value.numbers == req.numbers
  {
  }

  /** Rejection happens exactly when neither field yields a list with something in it. */
  lemma RejectedExactlyWhenEmpty(req: Request)
    ensures Accept(req) == Err(NoNumbers) <==> SelectNumbers(req) == Arr([])
  {
  }

  /** `autoSend` is on unless the body sets it to a falsy value (false, null, 0, ""). */
  lemma AutoSendDefaultsToTrue(req: Request)
    ensures req.autoSend.Undefined? ==> AutoSend(req)
    ensures !AutoSend(req) <==> req.autoSend in {Null, Bool(false), Num(0), Str("")}
  {
  }

  /** An accepted batch that can be iterated has at least one recipient. */
  lemma AcceptedBatchIsNonEmpty(req: Request)
    requires Accept(req).Ok?
    requires Iterate(Accept(req).value.numbers, "numbersList").Ok?
    ensures |Iterate(Accept(req).value.numbers, "numbersList").value| > 0
  {
  }
}
