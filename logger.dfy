/** The logger the greeter reports to, `loggerWriteLog` of logger.h. Its
    implementation is linked in from elsewhere (in the tests, the mock); the
    model records every message it receives and answers with a scripted
    return code. */
module Logger {
  import opened Wrappers
  import opened CString

  class Logger {
    /** Every message received so far, oldest first. */
    ghost var messages: seq<string>
    /** The code each call returns (0, or -1 to report a failure). */
    var returnCode: int

    constructor (returnCode: int)
      ensures messages == [] && this.returnCode == returnCode
    {
      messages := [];
      this.returnCode := returnCode;
    }

    /** `loggerWriteLog(message)`: records the C string `message` points to. */
    method WriteLog(message: array<char>) returns (rc: int)
      requires CStringAt(message[..]).Some?
      modifies this
      ensures messages == old(messages) + [CStringAt(message[..]).value]
      ensures returnCode == old(returnCode) && rc == returnCode
    {
      messages := messages + [CStringAt(message[..]).value];
      rc := returnCode;
    }
  }
}
