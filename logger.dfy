/** The anonymous `log` of src/utils/logger.cpp: the message is formatted
    into a static 1024-character buffer, a newline is appended when the text
    lacks one and there is room, and the NUL-terminated result is printed
    between a colour escape and a reset. The formatted text is an input;
    the escape sequences and the stream are not modelled. */
module Logging {

  /** `sizeof(buffer)`. */
  const BUFFER_SIZE: nat := 1024

  function Min(x: int, y: int): int { if x <= y then x else y }

  /** The text a C string denotes: everything before the first NUL. */
  function CString(s: seq<char>): seq<char>
  {
    if s == [] || s[0] == '\0' then [] else [s[0]] + CString(s[1..])
  }

  /** The guard of the newline rule. The length check comes before the read
      of `buffer[bytes_written - 1]`, so that read is always in bounds. */
  predicate AppendsNewline(buf: seq<char>, bytesWritten: int)
    requires |buf| == BUFFER_SIZE
  {
    bytesWritten > 0 && bytesWritten + 1 < BUFFER_SIZE && buf[bytesWritten - 1] != '\n'
  }

  /** The buffer after the newline rule: at most the two cells at
      `bytes_written` and `bytes_written + 1` change, to a newline and a NUL,
      and only when the text does not already end with a newline. */
  function NewlineRule(buf: seq<char>, bytesWritten: int): (r: seq<char>)
    requires |buf| == BUFFER_SIZE
    ensures |r| == |buf|
    ensures forall i :: 0 <= i < |buf| && i < bytesWritten ==> r[i] == buf[i]
    ensures forall i :: 0 <= i < |buf| && i != bytesWritten && i != bytesWritten + 1 ==> r[i] == buf[i]
    ensures AppendsNewline(buf, bytesWritten) ==>
              0 < bytesWritten && bytesWritten + 1 < |r| && r[bytesWritten] == '\n' && r[bytesWritten + 1] == '\0'
    ensures !AppendsNewline(buf, bytesWritten) ==> r == buf
    ensures 0 < bytesWritten <= |buf| && buf[bytesWritten - 1] == '\n' ==> r == buf
  {
    if AppendsNewline(buf, bytesWritten) then buf[bytesWritten := '\n'][bytesWritten + 1 := '\0']
    else buf
  }

  /** What `log` prints for a formatted text: the text cut to what fits in
      the buffer, with a newline added when the whole text fits with room to
      spare and does not already end in one. */
  function Message(text: string): string
  {
    if 0 < |text| && |text| + 1 < BUFFER_SIZE && text[|text| - 1] != '\n' then text + "\n"
    else text[..Min(|text|, BUFFER_SIZE - 1)]
  }

  /** A C string ends at its first NUL. */
  lemma {:induction false} CStringUpTo(s: seq<char>, k: nat)
    requires k < |s| && s[k] == '\0'
    requires forall i :: 0 <= i < k ==> s[i] != '\0'
    ensures CString(s) == s[..k]
  {
    if k > 0 {
      CStringUpTo(s[1..], k - 1);
      assert s[..k] == [s[0]] + s[1..][..k - 1];
    }
  }

  /** The printed message always fits the buffer with its NUL, starts with
      as much of the text as fits, ends in a newline whenever the text is
      short enough to receive one, and is the text unchanged when the text
      already ends in a newline and fits. */
  lemma MessageLaws(text: string)
    ensures |Message(text)| <= BUFFER_SIZE - 1
    ensures Message(text)[..Min(|text|, BUFFER_SIZE - 1)] == text[..Min(|text|, BUFFER_SIZE - 1)]
    ensures 0 < |text| <= BUFFER_SIZE - 2 ==> Message(text)[|Message(text)| - 1] == '\n'
    ensures 0 < |text| <= BUFFER_SIZE - 1 && text[|text| - 1] == '\n' ==> Message(text) == text
    ensures |text| >= BUFFER_SIZE - 1 ==> Message(text) == text[..BUFFER_SIZE - 1]
  {
    if 0 < |text| && |text| + 1 < BUFFER_SIZE && text[|text| - 1] != '\n' {
      assert (text + "\n")[..|text|] == text;
    }
  }

  /** `vsnprintf(buffer, sizeof(buffer), msg, args)` for a formatted `text`:
      copies as much of the text as fits before a NUL and returns the full
      length. */
  method Vsnprintf(buffer: array<char>, text: string) returns (bytesWritten: int)
    requires buffer.Length == BUFFER_SIZE
    modifies buffer
    ensures bytesWritten == |text|
    ensures var n := Min(|text|, BUFFER_SIZE - 1);
              buffer[..n] == text[..n] && buffer[n] == '\0' && buffer[n + 1..] == old(buffer[n + 1..])
  {
    var n := Min(|text|, BUFFER_SIZE - 1);
    var i := 0;
    while i < n
      invariant 0 <= i <= n
      invariant buffer[..i] == text[..i]
      invariant buffer[i..] == old(buffer[i..])
    {
      buffer[i] := text[i];
      i := i + 1;
      assert buffer[..i] == buffer[..i - 1] + [text[i - 1]];
    }
    buffer[n] := '\0';
    assert buffer[n + 1..] == old(buffer[n + 1..]) by {
      assert forall j :: n + 1 <= j < BUFFER_SIZE ==> buffer[j] == old(buffer[j]);
    }
    bytesWritten := |text|;
  }

  /** The newline rule, in place. */
  method TerminateLine(buffer: array<char>, bytesWritten: int)
    requires buffer.Length == BUFFER_SIZE
    modifies buffer
    ensures buffer[..] == NewlineRule(old(buffer[..]), bytesWritten)
  {
    if bytesWritten > 0 && bytesWritten + 1 < buffer.Length && buffer[bytesWritten - 1] != '\n' {
      buffer[bytesWritten] := '\n';
      buffer[bytesWritten + 1] := '\0';
    }
  }

  /** `log`, up to the `fprintf`: returns the text printed between the colour
      escape and the reset. The formatted text is a C string. */
  method Log(buffer: array<char>, text: string) returns (printed: string)
    requires buffer.Length == BUFFER_SIZE
    requires forall i :: 0 <= i < |text| ==> text[i] != '\0'
    modifies buffer
    ensures printed == Message(text)
  {
    var bytesWritten := Vsnprintf(buffer, text);
    ghost var formatted := buffer[..];
    TerminateLine(buffer, bytesWritten);
    var n := Min(|text|, BUFFER_SIZE - 1);
    assert formatted[..n] == text[..n];
    if AppendsNewline(formatted, bytesWritten) {
      assert buffer[..n] == text && buffer[n] == '\n' && buffer[n + 1] == '\0';
      CStringUpTo(buffer[..], n + 1);
      assert buffer[..n + 1] == text + "\n";
    } else {
      assert forall i :: 0 <= i < n ==> buffer[i] == text[i];
      CStringUpTo(buffer[..], n);
    }
    printed := CString(buffer[..]);
  }
}
