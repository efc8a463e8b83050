/**
 Shared vocabulary of the meeting-notes model: optional values, the outcome of
 an external call (a value or an error message), and the meeting record types
 that the client and the backend exchange.
 */
module Outcomes {

  /** An optional value (`null` / `None` / `undefined` in the source). */
  datatype Option<+T> = None | Some(value: T) {

    /** The held value, or `default` when there is none. */
    function GetOr(default: T): T {
      match this
      case Some(v) => v
      case None => default
    }
  }

  /**
   The outcome of a call into code outside the model: it either returns a
   value or raises/rejects with an error whose message is `msg`.
   */
  datatype Outcome<+T> = Ok(value: T) | Err(msg: string)

  /**
   Truthiness of an optional string, the same in JavaScript and in Python:
   present and not empty.
   */
  predicate Truthy(s: Option<string>) {
    s.Some? && s.value != ""
  }

  /** The `status` column of a meeting row. */
  datatype MeetingStatus = Pending | Processing | Processed | Failed {

    /** The string stored in the database for this status. */
    function Wire(): string {
      match this
      case Pending => "pending"
      case Processing => "processing"
      case Processed => "processed"
      case Failed => "failed"
    }
  }

  /** Reads a stored status string back; any other string is not a status. */
  function ParseStatus(s: string): (r: Option<MeetingStatus>)
    ensures r.Some? ==> r.value.Wire() == s
  {
    if s == "pending" then Some(Pending)
    else if s == "processing" then Some(Processing)
    else if s == "processed" then Some(Processed)
    else if s == "failed" then Some(Failed)
    else None
  }

  /** The four status strings are distinct, so storing and reading back a status is lossless. */
  lemma StatusRoundTrip(st: MeetingStatus)
    ensures ParseStatus(st.Wire()) == Some(st)
  {
  }

  /** The columns of a new `meetings` row as the client inserts it. */
  datatype MeetingRow = MeetingRow(
    userId: string,
    title: Option<string>,
    summary: Option<string>,
    transcript: Option<string>,
    audioUrl: string,
    status: MeetingStatus)

  /** The JSON body of a `POST /process-meeting` request. */
  datatype ProcessRequest = ProcessRequest(
    audioUrl: string,
    meetingId: string,
    pushToken: Option<string>)
}
