/** The exceptions the client raises, collapsed into one datatype. */
module Exceptions {
  import opened Wrappers
  import opened Wire

  /** Why an `ErrorFromCityHallException` was raised by the request executor. */
  datatype Fault =
    | NoResponse(verb: Method, resource: string)  // the transport returned nothing
    | NoData(statusCode: int)                      // a response without a deserialised body
    | Rejected(message: Option<string>)            // the server's envelope was not "Ok"

  datatype Error =
    | NotLoggedIn                       // NotLoggedInException
    | InvalidRequest                    // InvalidRequestException
    | MissingConfig                     // MissingConfigSection
    | ErrorFromCityHall(fault: Fault)   // ErrorFromCityHallException
    | NullReference                     // a NullReferenceException escaping the legacy executor

  type Outcome<R> = Result<R, Error>
}
