/** The exceptions the three programs raise, as values. */
module Errors {

  /** Identity of one websocket connection of the relay. */
  type ConnId = nat

  datatype Error =
    | DaysOverLimit                  // the fetchers' ValueError for more than 10 days
    | FetchFailed(date: string)      // the fetchers' exception for a non-200 answer on `date`
    | InvalidLiteral(token: string)  // ValueError from int(token)
    | MissingKey(key: string)        // KeyError on a dict lookup
    | NotRegistered(conn: ConnId)    // KeyError from set.remove
    | ConnectionClosed(conn: ConnId) // a send to a connection that has gone away
}
