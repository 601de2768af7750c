/** The client's complaint store and the four requests behind it. A
    request needs the stored sign-in token; without one it is never sent
    and the action is rejected with that request's fallback message. The
    server's answer is a parameter. */
module ComplaintSlice {
  import opened Base
  import opened ContactController

  datatype ComplaintState = ComplaintState(
    complaints: seq<Complaint>,
    loading: bool,
    success: bool,
    error: Option<string>)

  const Initial := ComplaintState([], false, false, None)

  const SubmitFailed := "Failed to submit complaint"
  const FetchFailed := "Failed to fetch complaints"
  const UpdateFailed := "Failed to update complaint"
  const DeleteFailed := "Failed to delete complaint"

  // ---------------------------------------------------------------------
  // Requests

  /** `authHeader`: the bearer credential for a stored token; None where
      the helper throws because no token is stored. */
  function AuthHeader(token: Option<string>): (h: Option<string>)
    ensures h.Some? <==> Filled(token)
    ensures h.Some? ==> h.value == "Bearer " + token.value
  {
    if Filled(token) then Some("Bearer " + token.value) else None
  }

  /** What the server does with a request that was sent: answers with
      data, or fails with an optional message in its response body. */
  datatype Answer<+T> = Answered(data: T) | Failed(message: Option<string>)

  /** How a request action settles. */
  datatype Settled<+T> = Fulfilled(value: T) | RejectedWith(message: string)

  /** The observable effect of a request action: whether the request went
      out, whether a list refresh was dispatched, and how it settled. */
  datatype Outcome<+T> = Outcome(sent: bool, refresh: bool, settled: Settled<T>)

  /** The shared shape of the four thunks. A missing token throws inside
      the try block, so the catch turns it into the fallback message. */
  function Run<T>(token: Option<string>, answer: Answer<T>, fallback: string,
                  refreshes: bool): (o: Outcome<T>)
    ensures AuthHeader(token).None? ==> o == Outcome(false, false, RejectedWith(fallback))
    ensures AuthHeader(token).Some? && answer.Answered? ==>
              o == Outcome(true, refreshes, Fulfilled(answer.data))
    ensures AuthHeader(token).Some? && answer.Failed? ==>
              o.sent && !o.refresh && o.settled.RejectedWith?
              && o.settled.message == (if Filled(answer.message) then answer.message.value else fallback)
  {
    match AuthHeader(token)
    case None => Outcome(false, false, RejectedWith(fallback))
    case Some(_) =>
      match answer
      case Answered(data) => Outcome(true, refreshes, Fulfilled(data))
      case Failed(m) => Outcome(true, false, RejectedWith(OrElse(m, Some(fallback)).value))
  }

  function SubmitComplaint(token: Option<string>, answer: Answer<Complaint>): Outcome<Complaint> {
    Run(token, answer, SubmitFailed, false)
  }

  function FetchComplaints(token: Option<string>, answer: Answer<seq<Complaint>>): Outcome<seq<Complaint>> {
    Run(token, answer, FetchFailed, false)
  }

  /** Update and delete ask for a fresh list once the server accepts. */
  function UpdateComplaint(token: Option<string>, answer: Answer<Complaint>): Outcome<Complaint> {
    Run(token, answer, UpdateFailed, true)
  }

  function DeleteComplaint(token: Option<string>, answer: Answer<string>): Outcome<string> {
    Run(token, answer, DeleteFailed, true)
  }

  /** Without a stored token nothing reaches the server, whatever it would
      have answered, and each action fails with its own fallback text. */
  lemma NoTokenNoRequest(token: Option<string>, c: Answer<Complaint>,
                         l: Answer<seq<Complaint>>, d: Answer<string>)
    requires !Filled(token)
    ensures SubmitComplaint(token, c) == Outcome(false, false, RejectedWith(SubmitFailed))
    ensures FetchComplaints(token, l) == Outcome(false, false, RejectedWith(FetchFailed))
    ensures UpdateComplaint(token, c) == Outcome(false, false, RejectedWith(UpdateFailed))
    ensures DeleteComplaint(token, d) == Outcome(false, false, RejectedWith(DeleteFailed))
  {
  }

  // ---------------------------------------------------------------------
  // Reducers

  /** `resetStatus`: the flags are cleared, the list kept. */
  function ResetStatus(s: ComplaintState): (t: ComplaintState)
    ensures !t.loading && !t.success && t.error.None? && t.complaints == s.complaints
  {
    s.(loading := false, success := false, error := None)
  }

  /** `clearComplaints`: the list is emptied, the flags kept. */
  function ClearComplaints(s: ComplaintState): (t: ComplaintState)
    ensures t.complaints == [] && t.loading == s.loading && t.success == s.success
            && t.error == s.error
  {
    s.(complaints := [])
  }

  function SubmitPending(s: ComplaintState): (t: ComplaintState)
    ensures t.loading && !t.success && t.error.None? && t.complaints == s.complaints
  {
    s.(loading := true, error := None, success := false)
  }

  function SubmitFulfilled(s: ComplaintState, c: Complaint): (t: ComplaintState)
    ensures !t.loading && t.success && t.error == s.error
    ensures t.complaints == s.complaints + [c]
  {
    s.(loading := false, success := true, complaints := s.complaints + [c])
  }

  /** `fetchComplaints.pending`: the success flag is left as it was. */
  function FetchPending(s: ComplaintState): (t: ComplaintState)
    ensures t.loading && t.error.None? && t.success == s.success && t.complaints == s.complaints
  {
    s.(loading := true, error := None)
  }

  function FetchFulfilled(s: ComplaintState, list: seq<Complaint>): (t: ComplaintState)
    ensures !t.loading && t.complaints == list && t.success == s.success && t.error == s.error
  {
    s.(loading := false, complaints := list)
  }

  /** `updateComplaint.pending` and `deleteComplaint.pending`: the error
      of an earlier failure stays. */
  function ChangePending(s: ComplaintState): (t: ComplaintState)
    ensures t.loading && !t.success && t.error == s.error && t.complaints == s.complaints
  {
    s.(loading := true, success := false)
  }

  /** `updateComplaint.fulfilled` and `deleteComplaint.fulfilled`: only the
      flags move; the list changes through the refresh that follows. */
  function ChangeFulfilled(s: ComplaintState): (t: ComplaintState)
    ensures !t.loading && t.success && t.error == s.error && t.complaints == s.complaints
  {
    s.(loading := false, success := true)
  }

  /** Every `rejected` case. */
  function RejectedCase(s: ComplaintState, message: string): (t: ComplaintState)
    ensures !t.loading && t.error == Some(message)
    ensures t.success == s.success && t.complaints == s.complaints
  {
    s.(loading := false, error := Some(message))
  }

  // ---------------------------------------------------------------------
  // Dispatch

  /** A submit from start to finish: pending, then the settled case. */
  function DispatchSubmit(s: ComplaintState, token: Option<string>,
                          answer: Answer<Complaint>): (t: ComplaintState)
    ensures t.success <==> Filled(token) && answer.Answered?
    ensures t.success ==> t.complaints == s.complaints + [answer.data] && t.error.None?
    ensures !t.success ==> t.complaints == s.complaints && t.error.Some?
    ensures !t.loading
  {
    var p := SubmitPending(s);
    match SubmitComplaint(token, answer).settled
    case Fulfilled(c) => SubmitFulfilled(p, c)
    case RejectedWith(m) => RejectedCase(p, m)
  }

  /** A delete from start to finish, including the refresh it triggers on
      success. The thunk dispatches the refresh before it returns, so the
      refresh's pending case lands before the delete's fulfilled case and
      the refresh settles last. The refresh's own answer is a parameter. */
  function DispatchDelete(s: ComplaintState, token: Option<string>, answer: Answer<string>,
                          refreshed: Answer<seq<Complaint>>): (t: ComplaintState)
    ensures !Filled(token) ==> t == s.(loading := false, success := false, error := Some(DeleteFailed))
    ensures Filled(token) && answer.Answered? && refreshed.Answered? ==>
              t.complaints == refreshed.data && t.success && t.error.None?
  {
    var p := ChangePending(s);
    var o := DeleteComplaint(token, answer);
    match o.settled
    case RejectedWith(m) => RejectedCase(p, m)
    case Fulfilled(_) =>
      var f := ChangeFulfilled(FetchPending(p));
      match FetchComplaints(token, refreshed).settled
      case Fulfilled(list) => FetchFulfilled(f, list)
      case RejectedWith(m) => RejectedCase(f, m)
  }
}
