/** The database connection, as far as it can fail. */
module Connections {
  /** A connection whose n-th round trip fails or not as `fails` says. */
  class Connection {
    const fails: nat -> bool
    var calls: nat

    constructor (fails: nat -> bool)
      ensures calls == 0 && this.fails == fails
    {
      this.fails, calls := fails, 0;
    }

    method RoundTrip() returns (ok: bool)
      modifies this
      ensures calls == old(calls) + 1 && ok == !fails(old(calls))
    {
      ok := !fails(calls);
      calls := calls + 1;
    }
  }

  ghost predicate NeverFails(connection: Connection) {
    forall n :: !connection.fails(n)
  }
}
