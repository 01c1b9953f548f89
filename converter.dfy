/** EventDataToResponseStatusConverter: turns a record and an optional
    error message into a ResponseStatus.

    The converter's `convert` and `convertList` come from an external
    converter library; they are taken to mean "a fresh ResponseStatus
    followed by `update`" and "that, element by element, in order". */
module Converter {
  import opened Lang
  import opened Records
  import opened Support

  /** The status that `update(dest, orig, meta)` leaves in `dest`, whatever
      `dest` held before. */
  function Converted(orig: Record, meta: Option<string>): (s: Status)
    ensures s.id == orig.id
    ensures s.errorMessage == meta
    ensures s.success <==> IsEmpty(meta)
    ensures s.state == Some(OK) <==> s.success
    ensures s.state == Some(ERROR) <==> !s.success
  {
    var success := IsEmpty(meta);
    Status(orig.id, success, Some(if success then OK else ERROR), meta)
  }

  /** update(dest, orig, meta): writes all four fields of `dest` through its setters. */
  method Update(dest: ResponseStatus, orig: Record, meta: Option<string>)
    modifies dest
    ensures dest.Snapshot() == Converted(orig, meta)
  {
    dest.SetId(orig.id);
    var success := IsEmpty(meta);
    if success {
      dest.SetState(Some(OK));
    } else {
      dest.SetState(Some(ERROR));
    }
    dest.SetSuccess(success);
    dest.SetErrorMessage(meta);
  }

  /** update(dest, orig): the same as update with a null message, so always
      a successful OK status without a message. */
  method UpdateWithoutMessage(dest: ResponseStatus, orig: Record)
    modifies dest
    ensures dest.Snapshot() == Converted(orig, None)
    ensures dest.state == Some(OK) && dest.success && dest.errorMessage == None
    ensures dest.id == orig.id
  {
    Update(dest, orig, None);
  }

  /** convert(orig, meta): a fresh status, then update. */
  method Convert(orig: Record, meta: Option<string>) returns (s: ResponseStatus)
    ensures fresh(s)
    ensures s.Snapshot() == Converted(orig, meta)
  {
    s := new ResponseStatus();
    Update(s, orig, meta);
  }

  /** convertList(records, meta): one converted status per record, in order. */
  function ConvertedList(records: seq<Record>, meta: Option<string>): (r: seq<Status>)
    ensures |r| == |records|
    ensures forall i :: 0 <= i < |records| ==> r[i] == Converted(records[i], meta)
  {
    if records == [] then []
    else [Converted(records[0], meta)] + ConvertedList(records[1..], meta)
  }

  /** A non-empty message always yields a failed ERROR status carrying it. */
  lemma ErrorOnMessage(orig: Record, message: string)
    requires message != ""
    ensures Converted(orig, Some(message)) == Status(orig.id, false, Some(ERROR), Some(message))
  {
  }
}
