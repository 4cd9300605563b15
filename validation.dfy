/** The input check of the registration form (`validateForm` in MainActivity.kt).

    Strings are `seq<char>`, where a `char` is a Unicode scalar value. Kotlin's
    `String.length` counts UTF-16 code units instead, so it is modelled by
    `Utf16Length`, which counts a character outside the Basic Multilingual
    Plane twice.
 */
module Validation {

  /** A character that UTF-16 encodes as a surrogate pair. */
  predicate IsSupplementary(c: char) {
    c as int >= 0x1_0000
  }

  /** Kotlin's `String.length`: the number of UTF-16 code units of `s`. */
  function Utf16Length(s: string): (n: nat)
    ensures |s| <= n <= 2 * |s|
    ensures n == |s| <==> forall i :: 0 <= i < |s| ==> !IsSupplementary(s[i])
    ensures n == 2 * |s| <==> forall i :: 0 <= i < |s| ==> IsSupplementary(s[i])
    decreases |s|
  {
    if s == [] then 0
    else
      var rest := Utf16Length(s[1..]);
      assert forall i :: 1 <= i < |s| ==> s[1..][i - 1] == s[i];
      (if IsSupplementary(s[0]) then 2 else 1) + rest
  }

  /** A password shorter than this is rejected. */
  const MinPasswordLength: nat := 6

  /** Kotlin's `CharSequence.contains(other)` with `ignoreCase = false`:
      `sub` occurs as a contiguous block somewhere in `s` (the empty block
      occurs everywhere). */
  function Contains(s: string, sub: string): (r: bool)
    ensures r <==> exists i :: 0 <= i <= |s| && sub <= s[i..]
    decreases |s|
  {
    if sub <= s then
      assert s[0..] == s;
      true
    else if s == [] then
      assert s[0..] == s;
      false
    else
      var r := Contains(s[1..], sub);
      assert forall i :: 1 <= i <= |s| ==> s[1..][i - 1..] == s[i..];
      assert s[0..] == s;
      r
  }

  /** Searching for a one-character string is searching for that character. */
  lemma ContainsChar(s: string, c: char)
    ensures Contains(s, [c]) <==> c in s
  {
    if c in s {
      var i :| 0 <= i < |s| && s[i] == c;
      assert [c] <= s[i..];
    } else {
      forall i | 0 <= i <= |s|
        ensures !([c] <= s[i..])
      {
        if i < |s| {
          assert s[i..][0] == s[i];
        }
      }
    }
  }

  /** `validateForm`: the first name is non-empty, the e-mail holds an `@`
      somewhere (nothing more is checked of its shape) and the password has
      at least six UTF-16 code units. The last name is not an input. */
  function ValidateForm(firstName: string, email: string, password: string): (ok: bool)
    ensures ok <==> |firstName| > 0 && '@' in email && Utf16Length(password) >= MinPasswordLength
  {
    ContainsChar(email, '@');
    firstName != "" && Contains(email, "@") && Utf16Length(password) >= MinPasswordLength
  }

  /** Four sample inputs: an empty first name, an e-mail without `@` and a
      five-character password are refused; the fourth input is accepted. */
  lemma ValidateFormExamples()
    ensures !ValidateForm("", "a@b.com", "123456")
    ensures !ValidateForm("Jo", "invalid-email", "123456")
    ensures !ValidateForm("Jo", "a@b.com", "12345")
    ensures ValidateForm("Jo", "a@b.com", "123456")
  {
    assert "a@b.com"[1] == '@';
  }

  /** Three characters outside the Basic Multilingual Plane make a password of
      six code units, which is long enough; three plain letters are not. */
  lemma SupplementaryPassword()
    ensures ValidateForm("Jo", "a@b", "\U{1F600}\U{1F600}\U{1F600}")
    ensures !ValidateForm("Jo", "a@b", "abc")
  {
    assert "a@b"[1] == '@';
    assert Utf16Length("\U{1F600}\U{1F600}\U{1F600}") == 6;
  }
}
