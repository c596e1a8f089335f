/** The caller's leave to go on: once it is withdrawn it stays withdrawn. */
module Contexts {
  class Context {
    var done: bool

    constructor ()
      ensures !done
    {
      done := false;
    }

    /** Asks once more. */
    method Done() returns (now: bool)
      modifies this
      ensures now == done && (old(done) ==> done)
    {
      var withdrawn: bool := *;
      done := done || withdrawn;
      now := done;
    }
  }
}
