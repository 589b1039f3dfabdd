/**
 * Validation of the file name a new work is saved under, and of its page
 * size. A name is a string whose length is measured the way the program
 * measures it: in bytes of its UTF-8 encoding.
 */
module Filenames {

  /** The verdict of a validator: accepted, or refused with a message for the user. */
  datatype Verdict = Accepted | Refused(message: string)

  const EMPTY_MESSAGE: string := "File name cannot be empty"
  const LENGTH_MESSAGE: string := "File name is longer than 63 letter"
  const SLASH_MESSAGE: string := "File name cannot contain \U{201C}/\U{201D} letter."

  /** The longest name accepted, in bytes. */
  const MAX_NAME_BYTES: nat := 63

  /** Number of bytes UTF-8 spends on one character. */
  function CharBytes(c: char): (n: nat)
    ensures 1 <= n <= 4
    ensures n == 1 <==> c as int < 0x80
  {
    if c as int < 0x80 then 1
    else if c as int < 0x800 then 2
    else if c as int < 0x1_0000 then 3
    else 4
  }

  /** Length of the UTF-8 encoding of `s`, which is what the length check compares. */
  function Utf8Length(s: string): (n: nat)
  {
    if |s| == 0 then 0 else CharBytes(s[0]) + Utf8Length(s[1..])
  }

  /** A name encodes to at least one and at most four bytes per character. */
  lemma {:induction false} Utf8LengthBounds(s: string)
    ensures |s| <= Utf8Length(s) <= 4 * |s|
    ensures Utf8Length(s) == 0 <==> |s| == 0
  {
    if |s| > 0 {
      Utf8LengthBounds(s[1..]);
    }
  }

  /** A name made only of ASCII characters has as many bytes as characters. */
  lemma {:induction false} AsciiLength(s: string)
    requires forall i :: 0 <= i < |s| ==> s[i] as int < 0x80
    ensures Utf8Length(s) == |s|
  {
    if |s| > 0 {
      AsciiLength(s[1..]);
    }
  }

  /** `n` copies of one character take `n` times that character's bytes. */
  lemma {:induction false} RepeatedLength(c: char, n: nat)
    ensures Utf8Length(seq(n, _ => c)) == n * CharBytes(c)
  {
    if n > 0 {
      var s := seq(n, _ => c);
      assert s[1..] == seq(n - 1, _ => c);
      RepeatedLength(c, n - 1);
    }
  }

  /**
   * The name checks, in the program's order: empty, then too long, then a
   * slash. The first failing check decides the message.
   */
  function IsValidFilename(name: string): (r: Verdict)
    ensures r == Accepted <==> 0 < Utf8Length(name) <= MAX_NAME_BYTES && '/' !in name
    ensures r.Refused? ==> r.message in {EMPTY_MESSAGE, LENGTH_MESSAGE, SLASH_MESSAGE}
  {
    if Utf8Length(name) == 0 then Refused(EMPTY_MESSAGE)
    else if Utf8Length(name) > MAX_NAME_BYTES then Refused(LENGTH_MESSAGE)
    else if '/' in name then Refused(SLASH_MESSAGE)
    else Accepted
  }

  /** The three messages differ, so the message tells which check failed. */
  lemma MessagesDistinct()
    ensures EMPTY_MESSAGE != LENGTH_MESSAGE
    ensures LENGTH_MESSAGE != SLASH_MESSAGE
    ensures EMPTY_MESSAGE != SLASH_MESSAGE
  {
    assert EMPTY_MESSAGE[10] != LENGTH_MESSAGE[10];
    assert LENGTH_MESSAGE[10] != SLASH_MESSAGE[10];
    assert EMPTY_MESSAGE[17] != SLASH_MESSAGE[17];
  }

  /** Each refusal names the check that failed, in terms of the name itself. */
  lemma {:induction false} RefusalReasons(name: string)
    ensures IsValidFilename(name) == Refused(EMPTY_MESSAGE) <==> |name| == 0
    ensures IsValidFilename(name) == Refused(LENGTH_MESSAGE) <==> Utf8Length(name) > MAX_NAME_BYTES
    ensures IsValidFilename(name) == Refused(SLASH_MESSAGE)
            <==> 0 < |name| && Utf8Length(name) <= MAX_NAME_BYTES && '/' in name
  {
    Utf8LengthBounds(name);
    MessagesDistinct();
  }

  /** A name too long and holding a slash reports the length, not the slash. */
  lemma LengthCheckedBeforeSlash(name: string)
    requires Utf8Length(name) > MAX_NAME_BYTES && '/' in name
    ensures IsValidFilename(name) == Refused(LENGTH_MESSAGE)
  {
  }

  /** An ASCII name is accepted exactly when it has 1 to 63 characters and no slash. */
  lemma {:induction false} AsciiNameAccepted(name: string)
    requires forall i :: 0 <= i < |name| ==> name[i] as int < 0x80
    ensures IsValidFilename(name) == Accepted <==> 1 <= |name| <= 63 && '/' !in name
  {
    AsciiLength(name);
  }

  /**
   * The limit counts bytes, not letters: 32 Arabic letters (two bytes each)
   * are refused with the length message although the message speaks of 63 letters.
   */
  lemma {:induction false} LimitCountsBytes()
    ensures IsValidFilename(seq(32, _ => '\U{0628}')) == Refused(LENGTH_MESSAGE)
  {
    RepeatedLength('\U{0628}', 32);
  }

  /** The page size of a new work is never refused. */
  function IsValidSize(): (r: Verdict)
    ensures r == Accepted
  {
    Accepted
  }
}
