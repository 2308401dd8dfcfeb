# GTest4C core, modelled in Dafny

GTest4C shows how to unit-test C code with a C++ test framework. Its own code
is small: a greeter module (`src/greeter.c`) that formats `"<greeting>,
<name>!"` into a fixed 100-byte buffer and reports it to a logger, and the
`Single<T>` helper (`mock/single.hh`) that keeps the one live instance of a
mock type in a static slot, so that C call sites can reach it. This project
models both, plus the one-line `loggerWriteLog` forward of
`mock/logger_mock.cpp` that joins them, and proves what the code promises.

Files, one module each:

- `wrappers.dfy` (`Wrappers`): `Option` for a nullable C string argument,
  `Result` for an operation that may throw.
- `cstring.dfy` (`CString`): reading a NUL-terminated C string out of a
  character buffer. Each `char` stands for one C byte; multi-byte UTF-8 text
  is given as its bytes.
- `logger.dfy` (`Logger`): the logger the greeter calls (`loggerWriteLog` of
  `logger.h`, which is not part of this model). It records every message in a
  ghost log and answers with a scripted return code, like the tests' mock.
- `greeter.dfy` (`Greeter`): `struct greeter_t` as class `Greeter` with a
  `greeting` and a 100-element `buffer` array; `greeterCreate`,
  `greeterGreet` and `greeterDestroy` as methods, specified against the pure
  function `GreetText`. `greeterGreet` returns the greeter's own buffer, as
  the C code does, so a later greet changes what an earlier result reads.
  The caller's `greeter_t *` variable is class `GreeterHandle`.
- `single.dfy` (`Single`): the static `instance` slot as class `Single<T>`
  with `instance: Option<T>` and a ghost set of live objects. The C++
  constructor, destructor and `GetInstance` are its methods; thrown
  `std::runtime_error`s become result values carrying the same messages.
  Each method is tied to `Step`, a function over `SlotState`, and the lemmas
  about `Step` and `Run` prove that at most one instance is ever alive.
- `logger_mock.dfy` (`LoggerMock`): `loggerWriteLog` in a test binary, which
  looks up the live mock through `GetInstance` and forwards the message.

`~Single()` clears the slot unconditionally (mock/single.hh:20-22);
`Single.DestroyClearsOwnSlot` proves that under the invariant the destroyed
object is always the registered one, so the clear never drops another
object's registration.

## Model

| member | source | states |
|---|---|---|
| CString.CStringAt | src/greeter.c:26-28 | the C string read from a buffer is NUL-free and is exactly the characters before the buffer's first NUL; there is none exactly when the buffer holds no NUL |
| CString.ReadBack | src/greeter.c:26-28 | a NUL-free text written at the start of a buffer followed by a NUL is read back as exactly that text, whatever lies beyond the terminator |
| Greeter.FormattedLayout | src/greeter.c:26 | the `"%s, %s!"` text is the greeting, then ", ", then the name, then "!", of length \|greeting\| + \|name\| + 3 |
| Greeter.Truncated | src/greeter.c:26 | `snprintf` into `size` bytes keeps a prefix of the text of length min(length, size - 1), and all of it when it fits |
| Greeter.GreetText | src/greeter.c:26 | the greet text is a prefix of `greeting + ", " + name + "!"` (NULL name: "World") of length min(\|greeting\| + \|name\| + 3, 99), equals it when it fits, and holds no NUL when its inputs hold none |
| Greeter.GoodMorningExamples | tests/greeter_test.cpp:68-74 | "Good Morning" greets "Vietnam" and "Sunshine" as "Good Morning, Vietnam!" and "Good Morning, Sunshine!" |
| Greeter.BonjourExamples | tests/greeter_test.cpp:76-88 | "Bonjour" greets "Alice" as "Bonjour, Alice!" and "Bob" as "Bonjour, Bob!", of length 13 |
| Greeter.HelloExamples | tests/greeter_param_test.cpp:69-81 | "Hello" greets a NULL name and "World" both as "Hello, World!", "Leo" as "Hello, Leo!" and "Clarice" as "Hello, Clarice!" |
| Greeter.FixtureExample | tests/greeter_test_fixture.cpp:29-32 | "Hello" greets "Szia, Szevasz" as "Hello, Szia, Szevasz!" |
| Greeter.EmptyGreetingExample | src/greeter.c:26 | an empty greeting, which `greeterCreate` accepts, formats like any other: ", !" for an empty name and ", World!" for a NULL one |
| Greeter.TruncationExample | src/greeter.c:12 | with a 98-character greeting only the comma fits in the 100-byte buffer |
| Greeter.Greeter.constructor | src/greeter.c:18-19 | a new greeter holds a copy of the greeting and a fresh 100-element buffer |
| Greeter.FormatGreeting | src/greeter.c:26 | the formatted, truncated text and its NUL are written at the start of the buffer, the bytes after the NUL are unchanged, and the untruncated length is returned |
| Greeter.GreeterCreate | src/greeter.c:15-21 | the result is NULL exactly when the greeting is NULL; otherwise it is a new valid greeter whose greeting equals the argument, the empty string included |
| Greeter.GreeterGreet | src/greeter.c:23-29 | a NULL greeter gives NULL and logs nothing; otherwise the greeter's own buffer is returned, it reads as `GreetText(greeting, name)`, the bytes after its NUL are unchanged, the logger received exactly that one message, and nothing depends on the logger's return code |
| Greeter.GreeterDestroy | src/greeter.c:31-38 | the handle is NULL afterwards, so a second call on the same handle changes nothing; the handle's own address is non-null by type (the `assert`) |
| Greeter.NullScenario | tests/greeter_test.cpp:25-59 | replays `greeterCreate(NULL)` giving NULL and `greeterGreet(NULL, "asdf")` giving NULL with nothing logged, against the contracts |
| Greeter.GreetAndDestroyScenario | tests/greeter_test.cpp:42-66 | replays greeting a NULL name and "Bob" with "Hello": both results are the same buffer, it reads as the latest text, two messages are logged, and destroying the handle twice leaves it NULL |
| Greeter.IgnoredLoggerErrorScenario | tests/greeter_mock_test.cpp:61-73 | replays greeting with a logger that returns -1: the buffer still reads "Oh, Yeah!" and the one message is logged |
| Logger.Logger.WriteLog | mock/logger_mock.hh:11-15 | the message the C string points to is appended to the log, and the scripted return code is returned unchanged |
| Single.Step | mock/single.hh:13-34 | an event throws exactly when constructing on an occupied slot or looking up an empty one; a throw or a lookup leaves the state as it was; destruction empties the slot; a successful construction registers the new object as live; a found instance is the registered one |
| Single.Run | mock/single.hh:13-34 | a run of events yields one outcome per event |
| Single.StepKeepsInv | mock/single.hh:13-22 | one legal construction, destruction or lookup keeps the slot either empty with nothing alive or holding the single live instance |
| Single.RunKeepsInv | mock/single.hh:6-39 | any legal sequence of constructions, destructions and lookups keeps that invariant, so at most one instance is ever alive |
| Single.SecondConstructionFails | mock/single.hh:14-16 | constructing while an instance is registered throws "Single instance usage only!!" and leaves the slot on the original |
| Single.DestroyClearsOwnSlot | mock/single.hh:20-22 | under the invariant the object destroyed is the registered one, and destroying it leaves the slot empty with nothing alive |
| Single.ConstructAfterDestroy | mock/single.hh:13-22 | construct, destroy, construct another, look up: all succeed and the lookup finds the second object |
| Single.ConstructSucceedsAfterDestroy | mock/single.hh:13-22 | from any reachable state, after the live instance is destroyed a new construction succeeds and registers the new object as the only live one |
| Single.LookupsChangeNothing | mock/single.hh:29-34 | any run of lookups leaves the state as it was, each throwing "Uninitialized singleton instance use!" on an empty slot and returning the instance otherwise |
| Single.Single.constructor | mock/single.hh:38-39 | the slot starts empty with no instance alive |
| Single.Single.Construct | mock/single.hh:13-18 | agrees with `Step`: throws and changes nothing when the slot is occupied, otherwise registers the new object; the invariant is kept |
| Single.Single.Destroy | mock/single.hh:20-22 | agrees with `Step`: the slot is empty and nothing is alive afterwards; the invariant is kept |
| Single.Single.GetInstance | mock/single.hh:29-34 | fails with "Uninitialized singleton instance use!" exactly when the slot is empty, otherwise returns the registered instance; changes nothing |
| Single.SingleScenario | mock/single.hh:13-34 | replays lookup on an empty slot (throws), construct, a second construct (throws), lookup (finds the first), destroy, construct the second, lookup (finds it), against the class contracts |
| LoggerMock.LoggerWriteLog | mock/logger_mock.cpp:7-9 | with no live mock the call throws the uninitialised-use error; otherwise the live mock records the message and its return code is returned |

## Left out

- Google Mock's expectation matching, cardinalities, `NiceMock`, `ON_CALL` and `EXPECT_CALL`: library code, not part of the repository. The logger's return code is a field the client sets instead.
- `externC/hash.cpp` and `extern_C/hash.cpp`: thin wrappers over `std::hash`, whose algorithm is not visible.
- `externC/main.c` and `src/module_m.c`: `printf` drivers, I/O only.
- Memory: `malloc` and `strdup` are taken to succeed (the code does not check them), and freeing is not modelled; `greeterDestroy` only clears the handle.
- Wild pointers (the segmentation-fault death tests) are undefined behaviour and have no counterpart; the `assert(self)` of `greeterDestroy` is the non-null parameter type.
- Deleted copy and move operations of `Single<T>`: the model has no copy operation, so no second instance can arise that way.
- Character encoding: strings are byte sequences; the UTF-8 test "Helló" and the character-count matcher are not restated.
- GreeterGreet: takes the logger as a parameter rather than reaching the mock through `loggerWriteLog`, so an exception thrown when no mock is live (modelled in `LoggerMock.LoggerWriteLog`) is not propagated through the greeter.
- Single: the static `instance` is one slot per type; the model's `Single<T>` is an object that can be allocated more than once, so "at most one live instance" holds per slot object, and every caller (constructors, destructors, `LoggerMock.LoggerWriteLog`) must be given the same one.
- GreeterGreet: `name` is a value, so passing a greeter's own buffer back as the name (`greeterGreet(g, greeterGreet(g, x))`), where `snprintf`'s source overlaps its destination and the C behaviour is undefined, gets a defined result in the model.
