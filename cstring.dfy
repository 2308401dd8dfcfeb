/** C strings as the greeter and the logger see them: a character array read
    from its start up to the first NUL. Each `char` stands for one C byte. */
module CString {
  import opened Wrappers

  const NUL: char := '\0'

  function Min(a: nat, b: nat): nat {
    if a <= b then a else b
  }

  /** The C string stored at the start of `buf`, as `strlen` and `%s` read it:
      every character before the first NUL. None when `buf` holds no NUL
      (reading it would run off the end). */
  function CStringAt(buf: seq<char>): (r: Option<string>)
    ensures r.Some? ==> |r.value| < |buf| && buf[..|r.value|] == r.value && buf[|r.value|] == NUL
    ensures r.Some? ==> NUL !in r.value
    ensures r.None? <==> NUL !in buf
  {
    if |buf| == 0 then None
    else if buf[0] == NUL then Some("")
    else match CStringAt(buf[1..])
      case None => None
      case Some(rest) => Some([buf[0]] + rest)
  }

  /** Writing a NUL-free `s` followed by a NUL at the start of a buffer is
      read back as exactly `s`, whatever follows the terminator. */
  lemma ReadBack(s: string, buf: seq<char>)
    requires NUL !in s
    requires |s| < |buf| && buf[..|s|] == s && buf[|s|] == NUL
    ensures CStringAt(buf) == Some(s)
  {
  }
}
