/** The acknowledgement record handed back to the data provider
    (support/ResponseStatus.java and the ResponseState enumeration). */
module Support {
  import opened Lang

  datatype ResponseState = OK | ERROR | SKIPPED

  /** The contents of a ResponseStatus at one moment. The four fields are
      independent: the record keeps no invariant between them. */
  datatype Status = Status(
    id: Option<int>,
    success: bool,
    state: Option<ResponseState>,
    errorMessage: Option<string>)

  /** What a freshly allocated ResponseStatus holds. */
  const Blank: Status := Status(None, false, None, None)

  /** The mutable ResponseStatus bean: four fields, each with its own setter. */
  class ResponseStatus {
    var id: Option<int>
    var success: bool
    var state: Option<ResponseState>
    var errorMessage: Option<string>

    function Snapshot(): Status
      reads this
    {
      Status(id, success, state, errorMessage)
    }

    constructor ()
      ensures Snapshot() == Blank
    {
      id, success, state, errorMessage := None, false, None, None;
    }

    method SetId(v: Option<int>)
      modifies this
      ensures Snapshot() == old(Snapshot()).(id := v)
    {
      id := v;
    }

    method SetSuccess(v: bool)
      modifies this
      ensures Snapshot() == old(Snapshot()).(success := v)
    {
      success := v;
    }

    method SetState(v: Option<ResponseState>)
      modifies this
      ensures Snapshot() == old(Snapshot()).(state := v)
    {
      state := v;
    }

    method SetErrorMessage(v: Option<string>)
      modifies this
      ensures Snapshot() == old(Snapshot()).(errorMessage := v)
    {
      errorMessage := v;
    }
  }

  /** Setting the state leaves `success` alone, so a status can read SKIPPED
      and successful at once: nothing in the bean ties the fields together. */
  method SkippedAfterSuccess() returns (s: ResponseStatus)
    ensures s.state == Some(SKIPPED) && s.success && s.errorMessage == None
  {
    s := new ResponseStatus();
    s.SetSuccess(true);
    s.SetState(Some(SKIPPED));
  }
}
