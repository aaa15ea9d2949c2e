/** The status a copy-offload client is told, from the status stored in the API. */
module StatusResponse {

  /** State and reason as the API stores them; times only as set or not set. */
  datatype ApiStatus = ApiStatus(state: string, reason: string, started: bool, ended: bool, cancel: bool)

  const Untouched: ApiStatus := ApiStatus("", "", false, false, false)

  /** The status once the start of the command has been recorded. */
  function Begun(st: ApiStatus): ApiStatus {
    st.(state := "Running", started := true)
  }

  /** The final status, computed from the copy read when the command had ended. */
  function Ended(copy: ApiStatus, reason: string): ApiStatus {
    copy.(state := "Finished", reason := reason, ended := true)
  }

  datatype ClientState = Pending | Starting | Running | Completed | Cancelling | UnknownState

  datatype ClientStatus = Failed | Successful | Invalid | Cancelled | UnknownStatus

  datatype Answer =
    | NotFound
    | Broken                                    // state or reason could not be decoded
    | Told(state: ClientState, status: ClientStatus, startTime: bool, endTime: bool)

  const StateOf: map<string, ClientState> :=
    map["" := UnknownState, "Starting" := Starting, "Running" := Running, "Finished" := Completed]

  const StatusOf: map<string, ClientStatus> :=
    map["" := UnknownStatus, "Failed" := Failed, "Success" := Successful, "Invalid" := Invalid, "Cancelled" := Cancelled]

  function Build(st: ApiStatus): Answer {
    if !st.started && st.reason != "Invalid" then Told(Pending, UnknownStatus, false, false)
    else if st.state !in StateOf then Broken
    else
      var state := if StateOf[st.state] != Completed && st.cancel then Cancelling else StateOf[st.state];
      if st.reason !in StatusOf then Broken
      else Told(state, StatusOf[st.reason], st.started, st.ended)
  }

  /** A completed answer with an end time: after it the completion is reaped. */
  predicate IsFinal(answer: Answer) {
    answer.Told? && answer.state.Completed? && answer.endTime
  }

  /** A client hears "completed, with an end time" exactly for a decodable finished status
      with an end time that was either started or rejected as invalid, and hears the reason. */
  lemma FinalAnswer(st: ApiStatus)
    ensures IsFinal(Build(st)) <==>
              st.state == "Finished" && st.ended && st.reason in StatusOf && (st.started || st.reason == "Invalid")
    ensures IsFinal(Build(st)) ==>
              && (Build(st).status.Successful? <==> st.reason == "Success")
              && (Build(st).status.Failed? <==> st.reason == "Failed")
              && (Build(st).status.Cancelled? <==> st.reason == "Cancelled")
              && (Build(st).status.Invalid? <==> st.reason == "Invalid")
  {
  }

  /** The five answers, by what the object says: an object without a start is pending unless it was
      rejected; a state or reason that is not known cannot be told; otherwise a finished object is
      completed, any other with a request to cancel is cancelling, and else its state is told. */
  lemma AnswerMeans(st: ApiStatus)
    ensures !Build(st).NotFound?
    ensures !st.started && st.reason != "Invalid" ==> Build(st) == Told(Pending, UnknownStatus, false, false)
    ensures st.started || st.reason == "Invalid" ==>
              && (Build(st).Broken? <==>
                    st.state !in {"", "Starting", "Running", "Finished"} ||
                    st.reason !in {"", "Failed", "Success", "Invalid", "Cancelled"})
              && (Build(st).Told? ==>
                    && (Build(st).state.Completed? <==> st.state == "Finished")
                    && (Build(st).state.Cancelling? <==> st.state != "Finished" && st.cancel)
                    && (Build(st).state.Running? <==> st.state == "Running" && !st.cancel)
                    && (Build(st).state.Starting? <==> st.state == "Starting" && !st.cancel)
                    && (Build(st).state.UnknownState? <==> st.state == "" && !st.cancel)
                    && (Build(st).status.UnknownStatus? <==> st.reason == "")
                    && (Build(st).status.Successful? <==> st.reason == "Success")
                    && (Build(st).status.Failed? <==> st.reason == "Failed")
                    && (Build(st).status.Cancelled? <==> st.reason == "Cancelled")
                    && (Build(st).status.Invalid? <==> st.reason == "Invalid")
                    && Build(st).startTime == st.started && Build(st).endTime == st.ended)
  {
  }
}
