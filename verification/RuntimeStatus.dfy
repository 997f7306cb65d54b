/** Control status and its reading (internal/runtime/runtime.go, parse.go, recover.go). */
module RuntimeStatus {
  datatype Wire = WireUnloaded | WireLoading | WireReady | WireUnloading | WireFailed | WireOther
  datatype Residency = Resident | NotResident | UnsureResident | OtherResidency

  datatype Status = Status(state: Wire, residency: Residency, active: int)

  /** The request-time status matrix. */
  datatype Class =
    | RecInvalid | ReadyIdle | ReadyBusy | UnloadedIdle | FailedNotResidentIdle
    | FailedNotResidentBusy | FailedOccupied | InProgress

  datatype ErrKind = NoErr | EndpointDown | OtherErr

  /** The client's immediate reply to a recovery result. */
  datatype Ack = Applied | AckBusy | Stale

  /** validateStatus, with decodeActive's refusal of negative counts. */
  predicate Valid(st: Status) {
    && !st.state.WireOther? && !st.residency.OtherResidency? && st.active >= 0
    && (st.state.WireReady? ==> st.residency.Resident?)
    && (st.state.WireUnloaded? ==> st.residency.NotResident? && st.active == 0)
  }

  function ClassifyRecovery(st: Status): Class {
    if st.state.WireReady? && st.residency.Resident? && st.active == 0 then ReadyIdle
    else if st.state.WireReady? && st.residency.Resident? && st.active > 0 then ReadyBusy
    else if st.state.WireUnloaded? && st.residency.NotResident? && st.active == 0 then UnloadedIdle
    else if st.state.WireFailed? && st.residency.NotResident? && st.active == 0 then FailedNotResidentIdle
    else if st.state.WireFailed? && st.residency.NotResident? && st.active > 0 then FailedNotResidentBusy
    else if st.state.WireFailed? && (st.residency.Resident? || st.residency.UnsureResident?) then FailedOccupied
    else if st.state.WireLoading? || st.state.WireUnloading? then InProgress
    else RecInvalid
  }

  /**
   What the classification does not read: the residency and the count of a model in
   progress, and the count of one that failed and still occupies the device.
   */
  predicate Unread(st: Status) {
    || ((st.state.WireLoading? || st.state.WireUnloading?) && (st.residency.OtherResidency? || st.active < 0))
    || (st.state.WireFailed? && (st.residency.Resident? || st.residency.UnsureResident?) && st.active < 0)
  }

  /**
   The parser refuses exactly the statuses of the invalid class and those whose fault the
   classification does not read; so whatever passes the parser has a class.
   */
  lemma ClassifiesWhatParses(st: Status)
    ensures !Valid(st) <==> ClassifyRecovery(st).RecInvalid? || Unread(st)
    ensures !(ClassifyRecovery(st).RecInvalid? && Unread(st))
  {
  }
}
