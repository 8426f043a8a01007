/**
 * The deserialised response bodies. Every response type derives from
 * `BaseResponse` (`Response`, `Message`); the derived fields are the payload.
 */
module Responses {
  import opened Wrappers

  /** A `BaseResponse` together with the fields of the derived response type. */
  datatype Envelope<P> = Envelope(response: Option<string>, message: Option<string>, payload: P) {
    /** `BaseResponse.IsValid`: the server said "Ok", compared ordinally. */
    predicate IsValid() {
      response == Some("Ok")
    }
  }

  /** `BaseResponse` itself carries no further fields. */
  type BaseResponse = Envelope<()>

  /** `ValueResponse.value` */
  type ValueResponse = Envelope<Option<string>>

  /** A point in time, kept opaque. */
  datatype DateTime = DateTime(ticks: int)

  /** `LogEntry`: one element of `HistoryResponse.History`. */
  datatype LogEntry = LogEntry(
    active: bool,
    override: Option<string>,
    id: int,
    value: Option<string>,
    datetime: DateTime,
    protect: bool,
    name: Option<string>,
    author: Option<string>)

  type HistoryResponse = Envelope<seq<LogEntry>>

  /** `ChildResponse`: one element of `ChildrenResponse.children`. */
  datatype ChildResponse = ChildResponse(
    override: Option<string>,
    path: Option<string>,
    id: int,
    value: Option<string>,
    protect: bool,
    name: Option<string>)

  datatype ChildrenPayload = ChildrenPayload(path: Option<string>, children: seq<ChildResponse>)

  type ChildrenResponse = Envelope<ChildrenPayload>

  /** `EnvironmentResponse.Users` (user name to rights) and `UserInfoResponse.Environments`. */
  type RightsResponse = Envelope<map<string, int>>

  /** Validity is decided by `Response` alone; "Ok" is the only valid status. */
  lemma ValidityIsStatusOnly<P>(e: Envelope<P>, message: Option<string>, payload: P)
    ensures e.IsValid() <==> e.response == Some("Ok")
    ensures Envelope(e.response, message, payload).IsValid() == e.IsValid()
    ensures Envelope(None, message, payload).IsValid() == false
    ensures Envelope(Some("Failure"), message, payload).IsValid() == false
    ensures Envelope(Some("ok"), message, payload).IsValid() == false
  {
    assert "ok" != "Ok" by { assert "ok"[0] != "Ok"[0]; }
    assert "Failure" != "Ok" by { assert |"Failure"| != |"Ok"|; }
  }
}
