/** The greeter of src/greeter.c: an object holding a greeting and a
    100-byte output buffer that every greet overwrites in place. */
module Greeter {
  import opened Wrappers
  import opened CString
  import opened Logger

  /** `sizeof(self->buffer)`. */
  const BufferSize: nat := 100
  /** The name greeted when the caller passes NULL. */
  const DefaultName: string := "World"

  /** The untruncated text of the format `"%s, %s!"`. */
  function Formatted(greeting: string, name: string): string {
    greeting + ", " + name + "!"
  }

  /** The layout of the format: the greeting, a comma and a space, the name
      and an exclamation mark, nothing else. */
  lemma FormattedLayout(greeting: string, name: string)
    ensures var r := Formatted(greeting, name);
      |r| == |greeting| + |name| + 3 &&
      r[..|greeting|] == greeting && r[|greeting|..|greeting| + 2] == ", " &&
      r[|greeting| + 2..|r| - 1] == name && r[|r| - 1] == '!'
  {
  }

  /** What `snprintf` into `size` bytes keeps of `s`: at most `size - 1`
      characters, the last byte being reserved for the terminator. */
  function Truncated(s: string, size: nat): (r: string)
    requires size > 0
    ensures r <= s
    ensures |r| == Min(|s|, size - 1)
    ensures |s| < size ==> r == s
  {
    s[..Min(|s|, size - 1)]
  }

  /** The text a greeter with `greeting` produces for `name` (None: NULL). */
  function GreetText(greeting: string, name: Option<string>): (r: string)
    ensures var full := Formatted(greeting, name.GetOr(DefaultName));
      r <= full && |r| == Min(|greeting| + |name.GetOr(DefaultName)| + 3, BufferSize - 1)
    ensures |greeting| + |name.GetOr(DefaultName)| + 3 < BufferSize ==>
      r == greeting + ", " + name.GetOr(DefaultName) + "!"
    ensures NUL !in greeting && (name.Some? ==> NUL !in name.value) ==> NUL !in r
  {
    var full := Formatted(greeting, name.GetOr(DefaultName));
    assert NUL !in greeting && NUL !in name.GetOr(DefaultName) ==> NUL !in full;
    Truncated(full, BufferSize)
  }

  /** Outputs the plain unit tests spell out for "Good Morning". */
  lemma GoodMorningExamples()
    ensures GreetText("Good Morning", Some("Vietnam")) == "Good Morning, Vietnam!"
    ensures GreetText("Good Morning", Some("Sunshine")) == "Good Morning, Sunshine!"
  {
  }

  /** Outputs the plain unit tests spell out for "Bonjour". */
  lemma BonjourExamples()
    ensures GreetText("Bonjour", Some("Alice")) == "Bonjour, Alice!"
    ensures GreetText("Bonjour", Some("Bob")) == "Bonjour, Bob!" && |GreetText("Bonjour", Some("Bob"))| == 13
  {
  }

  /** Outputs the parameterised tests spell out for "Hello", NULL name
      included. */
  lemma HelloExamples()
    ensures GreetText("Hello", None) == "Hello, World!"
    ensures GreetText("Hello", Some("World")) == "Hello, World!"
    ensures GreetText("Hello", Some("Leo")) == "Hello, Leo!"
    ensures GreetText("Hello", Some("Clarice")) == "Hello, Clarice!"
  {
  }

  /** The output the fixture test spells out: a name may itself hold ", ". */
  lemma FixtureExample()
    ensures GreetText("Hello", Some("Szia, Szevasz")) == "Hello, Szia, Szevasz!"
  {
  }

  /** An empty greeting is accepted and greets like any other. */
  lemma EmptyGreetingExample()
    ensures GreetText("", Some("")) == ", !"
    ensures GreetText("", None) == ", World!"
  {
  }

  /** A greeting of 98 characters leaves room for only one more. */
  lemma TruncationExample(greeting: string)
    requires |greeting| == 98
    ensures GreetText(greeting, Some("Bob")) == greeting + ","
  {
  }

  /** `struct greeter_t`. */
  class Greeter {
    /** The private copy of the greeting made by `strdup`. */
    const greeting: string
    /** The output buffer, `char buffer[100]`. */
    const buffer: array<char>

    ghost predicate Valid() {
      buffer.Length == BufferSize && NUL !in greeting
    }

    /** The allocation and filling done by `greeterCreate`; the buffer starts
        with unspecified contents. */
    constructor (greeting: string)
      requires NUL !in greeting
      ensures Valid() && this.greeting == greeting && fresh(buffer)
    {
      this.greeting := greeting;
      buffer := new char[BufferSize];
    }
  }

  /** `snprintf(buf, sizeof buf, "%s, %s!", greeting, name)`: writes the
      truncated text and its terminator, leaves the bytes after the
      terminator alone, and returns the untruncated length. */
  method FormatGreeting(buf: array<char>, greeting: string, name: string) returns (n: nat)
    requires buf.Length > 0
    modifies buf
    ensures var text := Truncated(Formatted(greeting, name), buf.Length);
      buf[..|text|] == text && buf[|text|] == NUL && buf[|text| + 1..] == old(buf[|text| + 1..])
    ensures n == |greeting| + |name| + 3
  {
    var text := Truncated(Formatted(greeting, name), buf.Length);
    forall i | 0 <= i < |text| {
      buf[i] := text[i];
    }
    buf[|text|] := NUL;
    n := |Formatted(greeting, name)|;
  }

  /** `greeterCreate(greeting)`: NULL for a NULL greeting, otherwise a new
      greeter holding a copy of it (allocation is taken to succeed). */
  method GreeterCreate(greeting: Option<string>) returns (g: Greeter?)
    requires greeting.Some? ==> NUL !in greeting.value
    ensures g == null <==> greeting.None?
    ensures g != null ==> fresh(g) && fresh(g.buffer) && g.Valid() && g.greeting == greeting.value
  {
    if greeting.None? {
      return null;
    }
    g := new Greeter(greeting.value);
  }

  /** `greeterGreet(self, name)`: NULL for a NULL greeter; otherwise formats
      the greeting into the greeter's own buffer, sends that buffer to the
      logger exactly once, ignores the logger's return code and returns the
      buffer itself (so a later greet changes what an earlier result reads). */
  method GreeterGreet(self: Greeter?, name: Option<string>, logger: Logger) returns (r: array?<char>)
    requires self != null ==> self.Valid()
    requires name.Some? ==> NUL !in name.value
    modifies if self != null then {self.buffer, logger} else {}
    ensures self == null ==> r == null
    ensures self != null ==> r == self.buffer
    ensures self != null ==> CStringAt(r[..]) == Some(GreetText(self.greeting, name))
    ensures self != null ==> var n := |GreetText(self.greeting, name)|;
      r[n + 1..] == old(r[n + 1..])
    ensures self != null ==> logger.messages == old(logger.messages) + [GreetText(self.greeting, name)]
    ensures logger.returnCode == old(logger.returnCode)
  {
    if self == null {
      return null;
    }
    var _ := FormatGreeting(self.buffer, self.greeting, name.GetOr(DefaultName));
    ReadBack(GreetText(self.greeting, name), self.buffer[..]);
    var _ := logger.WriteLog(self.buffer);
    r := self.buffer;
  }

  /** The caller's `greeter_t *` variable whose address is passed to
      `greeterDestroy`. */
  class GreeterHandle {
    var target: Greeter?

    constructor (target: Greeter?)
      ensures this.target == target
    {
      this.target := target;
    }
  }

  /** `greeterDestroy(&handle)`: the handle's address must not be NULL (the
      `assert`, expressed by the non-null type); a NULL handle is left alone,
      otherwise the greeter is released and the handle set to NULL. */
  method GreeterDestroy(handle: GreeterHandle)
    modifies handle
    ensures handle.target == null
  {
    if handle.target == null {
      return;
    }
    handle.target := null;
  }

  /** NULL in, NULL out, and nothing logged. */
  method NullScenario()
  {
    var logger := new Logger(0);
    var none := GreeterCreate(None);
    assert none == null;
    var nobody := GreeterGreet(none, Some("asdf"), logger);
    assert nobody == null && logger.messages == [];
  }

  /** Two greets through one greeter, then destroying its handle twice. */
  method GreetAndDestroyScenario()
  {
    var logger := new Logger(0);
    var g := GreeterCreate(Some("Hello"));
    HelloExamples();
    var out := GreeterGreet(g, None, logger);
    assert CStringAt(out[..]) == Some("Hello, World!");
    assert GreetText("Hello", Some("Bob")) == "Hello, Bob!";
    var again := GreeterGreet(g, Some("Bob"), logger);
    assert again == out && CStringAt(out[..]) == Some("Hello, Bob!");
    assert logger.messages == ["Hello, World!", "Hello, Bob!"];

    var h := new GreeterHandle(g);
    GreeterDestroy(h);
    assert h.target == null;
    GreeterDestroy(h);
    assert h.target == null;
  }

  /** A logger that reports failure does not change what is greeted. */
  method IgnoredLoggerErrorScenario()
  {
    var logger := new Logger(-1);
    var oh := GreeterCreate(Some("Oh"));
    var out := GreeterGreet(oh, Some("Yeah"), logger);
    assert GreetText("Oh", Some("Yeah")) == "Oh, Yeah!";
    assert CStringAt(out[..]) == Some("Oh, Yeah!") && logger.messages == ["Oh, Yeah!"];
  }
}
