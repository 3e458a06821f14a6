/**
 * The input validators of src/validator/validator.go.
 *
 * Go measures `len(value)` in bytes of the UTF-8 encoding, so lengths here are
 * `Utf8Len`, not the number of characters. The two regular expressions only
 * admit ASCII characters, which is where the two measures agree.
 */
module Validator {
  import opened Wrappers

  /** The `error` values the validators return; `None` stands for `nil`. */
  datatype ValidationError =
    | LengthOutOfRange(minLength: int, maxLength: int)  // "must contain from %d-%d"
    | NotUsernameCharacters                              // "Must contain only lowercaseletters, digits, or underscore"
    | NotEmailAddress                                    // "is not a valid email address"
    | NotFullNameCharacters                              // "Must contain only letters or spaces"

  /** Bytes taken by one character in UTF-8. */
  function Utf8Width(c: char): (w: nat)
    ensures 1 <= w <= 4
    ensures w == 1 <==> c as int < 0x80
  {
    if c as int < 0x80 then 1
    else if c as int < 0x800 then 2
    else if c as int < 0x1_0000 then 3
    else 4
  }

  /** Go's `len` of a string: the length of its UTF-8 encoding. */
  function Utf8Len(s: string): (n: nat)
    ensures n >= |s|
    ensures s == [] <==> n == 0
  {
    if s == [] then 0 else Utf8Width(s[0]) + Utf8Len(s[1..])
  }

  predicate IsAscii(s: string) {
    forall i :: 0 <= i < |s| ==> s[i] as int < 0x80
  }

  /** Byte length and character count agree exactly on ASCII strings. */
  lemma {:induction false} Utf8LenAscii(s: string)
    ensures Utf8Len(s) == |s| <==> IsAscii(s)
  {
    if s != [] {
      Utf8LenAscii(s[1..]);
      assert IsAscii(s) <==> s[0] as int < 0x80 && IsAscii(s[1..]) by {
        if s[0] as int < 0x80 && IsAscii(s[1..]) {
          forall i | 0 <= i < |s| ensures s[i] as int < 0x80 {
            if i > 0 { assert s[i] == s[1..][i - 1]; }
          }
        }
      }
    }
  }

  /** `validateString`: both bounds inclusive, measured in bytes. */
  function ValidateString(value: string, minLength: int, maxLength: int): (r: Option<ValidationError>)
    ensures r.None? <==> minLength <= Utf8Len(value) <= maxLength
    ensures r.Some? ==> r.value == LengthOutOfRange(minLength, maxLength)
  {
    var n := Utf8Len(value);
    if n < minLength || n > maxLength then Some(LengthOutOfRange(minLength, maxLength)) else None
  }

  /** A member of the class `[a-z0-9_]`. */
  predicate IsUsernameChar(c: char) {
    ('a' <= c <= 'z') || ('0' <= c <= '9') || c == '_'
  }

  /** `^[a-z0-9_]+$`: one or more characters, every one of them in the class. */
  predicate MatchesUsername(s: string) {
    |s| > 0 && forall i :: 0 <= i < |s| ==> IsUsernameChar(s[i])
  }

  /**
   * A member of the class `[a-zA-Z\\s]` as written in a Go raw string: inside
   * the brackets `\\` is one literal backslash and `s` a literal letter, so
   * the class is the ASCII letters and the backslash, and no white space.
   */
  predicate IsFullNameChar(c: char) {
    ('a' <= c <= 'z') || ('A' <= c <= 'Z') || c == '\\'
  }

  predicate MatchesFullName(s: string) {
    |s| > 0 && forall i :: 0 <= i < |s| ==> IsFullNameChar(s[i])
  }

  function ValidateUsername(value: string): (r: Option<ValidationError>)
    // accepted exactly when 3..100 characters long and all from [a-z0-9_]
    ensures r.None? <==> 3 <= |value| <= 100 && forall i :: 0 <= i < |value| ==> IsUsernameChar(value[i])
    // the length check runs first and decides the error
    ensures !(3 <= Utf8Len(value) <= 100) ==> r == Some(LengthOutOfRange(3, 100))
    ensures 3 <= Utf8Len(value) <= 100 && r.Some? ==> r == Some(NotUsernameCharacters)
  {
    Utf8LenAscii(value);
    var lengthErr := ValidateString(value, 3, 100);
    if lengthErr.Some? then lengthErr
    else if !MatchesUsername(value) then Some(NotUsernameCharacters)
    else None
  }

  /** Any characters at all; only the byte length counts. */
  function ValidatePassword(value: string): (r: Option<ValidationError>)
    ensures r.None? <==> 3 <= Utf8Len(value) <= 100
    ensures r.Some? ==> r == Some(LengthOutOfRange(3, 100))
  {
    ValidateString(value, 3, 100)
  }

  /**
   * `parseAddress` stands for `net/mail.ParseAddress` succeeding: it is not
   * modelled and enters as an uninterpreted predicate.
   */
  function ValidateEmail(value: string, parseAddress: string -> bool): (r: Option<ValidationError>)
    ensures r.None? <==> 3 <= Utf8Len(value) <= 200 && parseAddress(value)
    ensures !(3 <= Utf8Len(value) <= 200) ==> r == Some(LengthOutOfRange(3, 200))
    ensures 3 <= Utf8Len(value) <= 200 && r.Some? ==> r == Some(NotEmailAddress)
  {
    var lengthErr := ValidateString(value, 3, 200);
    if lengthErr.Some? then lengthErr
    else if !parseAddress(value) then Some(NotEmailAddress)
    else None
  }

  function ValidateFullName(value: string): (r: Option<ValidationError>)
    ensures r.None? <==> 3 <= |value| <= 100 && forall i :: 0 <= i < |value| ==> IsFullNameChar(value[i])
    ensures !(3 <= Utf8Len(value) <= 100) ==> r == Some(LengthOutOfRange(3, 100))
    ensures 3 <= Utf8Len(value) <= 100 && r.Some? ==> r == Some(NotFullNameCharacters)
  {
    Utf8LenAscii(value);
    var lengthErr := ValidateString(value, 3, 100);
    if lengthErr.Some? then lengthErr
    else if !MatchesFullName(value) then Some(NotFullNameCharacters)
    else None
  }

  /** The length check comes before the parser: a bad length is rejected whatever the parser says. */
  lemma EmailLengthBeforeParser(value: string, p1: string -> bool, p2: string -> bool)
    requires !(3 <= Utf8Len(value) <= 200)
    ensures ValidateEmail(value, p1) == ValidateEmail(value, p2) == Some(LengthOutOfRange(3, 200))
  {
  }

  /** A username with an upper-case letter is rejected even when its length is fine. */
  lemma UsernameRejectsUpperCase(value: string, i: nat)
    requires i < |value| && 'A' <= value[i] <= 'Z'
    ensures ValidateUsername(value).Some?
  {
  }

  /** A full name containing a space is rejected, despite the message promising spaces. */
  lemma FullNameRejectsSpace(value: string, i: nat)
    requires i < |value| && value[i] == ' '
    ensures ValidateFullName(value).Some?
  {
  }

  /** "AB" breaks both rules; it is the length error that is reported. */
  lemma ShortUsernameGetsLengthError()
    ensures ValidateUsername("AB") == Some(LengthOutOfRange(3, 100))
  {
    Utf8LenAscii("AB");
  }

  lemma FullNameExamples()
    ensures ValidateFullName("Ann Lee") == Some(NotFullNameCharacters)
    ensures ValidateFullName("AnnLee") == None
  {
    FullNameRejectsSpace("Ann Lee", 3);
    Utf8LenAscii("Ann Lee");
  }
}
