/** The link-time stand-in for `loggerWriteLog` of mock/logger_mock.cpp: it
    looks up the live `LoggerMock` through its `Single` slot and forwards the
    message to it. */
module LoggerMock {
  import opened Wrappers
  import opened CString
  import opened Logger
  import opened Single

  /** `loggerWriteLog(message)` in a test binary: throws when no mock is
      live, otherwise the live mock records the message and its return code
      is passed back. */
  method LoggerWriteLog(mocks: Single<Logger>, message: array<char>) returns (r: Result<int, string>)
    requires CStringAt(message[..]).Some?
    modifies if mocks.instance.Some? then {mocks.instance.value} else {}
    ensures mocks.instance.None? ==> r == Failure(UninitializedMessage)
    ensures mocks.instance.Some? ==> var mock := mocks.instance.value;
      r == Success(mock.returnCode) && mock.returnCode == old(mock.returnCode) &&
      mock.messages == old(mock.messages) + [CStringAt(message[..]).value]
  {
    var found := mocks.GetInstance();
    if found.Failure? {
      return Failure(found.error);
    }
    var rc := found.value.WriteLog(message);
    r := Success(rc);
  }
}
