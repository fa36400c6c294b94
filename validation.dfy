/** Client-side checks shared by the forms: the required-field scan with its humanised
    messages, the e-mail pattern `^[^\s@]+@[^\s@]+\.[^\s@]+$`, the password length,
    the sign-in checks and the image checks of `handleImageChange`. */
module Validation {
  import opened Wrappers
  import opened Text
  import opened Record
  import opened Http

  const InvalidEmailMessage := "Please enter a valid email address"
  const ShortPasswordMessage := "Password must be at least 6 characters long"
  const MinPasswordLength := 6
  const UsernameRequiredMessage := "Username is required"
  const PasswordRequiredMessage := "Password is required"
  const InvalidImageMessage := "Please select a valid image file"
  const LargeImageMessage := "Image size should be less than 5MB"
  const MaxImageBytes := 5 * 1024 * 1024

  // ---------------------------------------------------------------------------
  // The field-name humaniser:
  //   field.replace(/([A-Z])/g, " $1").replace(/^./, (str) => str.toUpperCase())

  /** Inserts a space before every ASCII capital letter. */
  function SpaceBeforeCapitals(s: string): string {
    if |s| == 0 then ""
    else (if 'A' <= s[0] <= 'Z' then [' ', s[0]] else [s[0]]) + SpaceBeforeCapitals(s[1..])
  }

  /** Characters that the regular-expression `.` does not match. */
  predicate IsLineTerminator(c: char) {
    c == '\n' || c == '\r' || c == '\U{2028}' || c == '\U{2029}'
  }

  /** Upper-cases the first character, if `/^./` matches it. */
  function UpperFirst(s: string): string {
    if |s| > 0 && !IsLineTerminator(s[0]) then [ToUpperAscii(s[0])] + s[1..] else s
  }

  /** The label of a camelCase field name, as in "studRollNo" to "Stud Roll No". */
  function Humanise(field: string): string {
    UpperFirst(SpaceBeforeCapitals(field))
  }

  /** The message for the first missing required field. */
  function MissingMessage(field: string): string {
    Humanise(field) + " is required"
  }

  /** The field names the forms declare: a lower-case ASCII letter first, no spaces. */
  predicate IsCamelName(s: string) {
    |s| > 0 && 'a' <= s[0] <= 'z' && ' ' !in s
  }

  function RemoveSpaces(s: string): string {
    if |s| == 0 then "" else (if s[0] == ' ' then "" else [s[0]]) + RemoveSpaces(s[1..])
  }

  function LowerFirstAscii(s: string): string {
    if |s| > 0 && 'A' <= s[0] <= 'Z' then [(s[0] as int + 32) as char] + s[1..] else s
  }

  /** Recovers a field name from its label: the inverse of `Humanise`. */
  function Camelise(caption: string): string {
    LowerFirstAscii(RemoveSpaces(caption))
  }

  lemma {:induction false} RemoveSpacesAfterInsert(s: string)
    requires ' ' !in s
    ensures RemoveSpaces(SpaceBeforeCapitals(s)) == s
  {
    if |s| > 0 {
      RemoveSpacesAfterInsert(s[1..]);
      var head := if 'A' <= s[0] <= 'Z' then [' ', s[0]] else [s[0]];
      RemoveSpacesConcat(head, SpaceBeforeCapitals(s[1..]));
      assert RemoveSpaces(head) == [s[0]] by {
        if 'A' <= s[0] <= 'Z' {
          assert head[1..] == [s[0]];
        }
      }
      assert s == [s[0]] + s[1..];
    }
  }

  lemma {:induction false} RemoveSpacesConcat(a: string, b: string)
    ensures RemoveSpaces(a + b) == RemoveSpaces(a) + RemoveSpaces(b)
  {
    if |a| > 0 {
      RemoveSpacesConcat(a[1..], b);
      assert (a + b)[1..] == a[1..] + b;
    } else {
      assert a + b == b;
    }
  }

  /** Humanising a field name loses nothing: `Camelise` gives the name back. */
  lemma HumaniseRoundTrip(field: string)
    requires IsCamelName(field)
    ensures Camelise(Humanise(field)) == field
  {
    var spaced := SpaceBeforeCapitals(field);
    assert spaced == [field[0]] + SpaceBeforeCapitals(field[1..]);
    var upper := [ToUpperAscii(field[0])] + spaced[1..];
    assert Humanise(field) == upper;
    RemoveSpacesConcat([ToUpperAscii(field[0])], spaced[1..]);
    RemoveSpacesConcat([field[0]], spaced[1..]);
    RemoveSpacesAfterInsert(field);
    assert spaced == [field[0]] + spaced[1..];
    assert RemoveSpaces(spaced) == [field[0]] + RemoveSpaces(spaced[1..]);
    assert RemoveSpaces(upper) == [ToUpperAscii(field[0])] + RemoveSpaces(spaced[1..]);
  }

  /** Distinct field names always produce distinct missing-field messages,
      so the message names the field that is missing. */
  lemma MissingMessageInjective(a: string, b: string)
    requires IsCamelName(a) && IsCamelName(b) && MissingMessage(a) == MissingMessage(b)
    ensures a == b
  {
    var suffix := " is required";
    assert Humanise(a) == MissingMessage(a)[..|MissingMessage(a)| - |suffix|];
    assert Humanise(b) == MissingMessage(b)[..|MissingMessage(b)| - |suffix|];
    HumaniseRoundTrip(a);
    HumaniseRoundTrip(b);
  }

  /** Inserting the spaces distributes over concatenation. */
  lemma {:induction false} SpaceBeforeCapitalsConcat(a: string, b: string)
    ensures SpaceBeforeCapitals(a + b) == SpaceBeforeCapitals(a) + SpaceBeforeCapitals(b)
  {
    if |a| > 0 {
      assert (a + b)[1..] == a[1..] + b;
      SpaceBeforeCapitalsConcat(a[1..], b);
    } else {
      assert a + b == b;
    }
  }

  /** Every capital letter starts a new word: a space is put before it, and only there. */
  lemma CapitalStartsWord(a: string, c: char, b: string)
    requires 'A' <= c <= 'Z'
    ensures SpaceBeforeCapitals(a + [c] + b) == SpaceBeforeCapitals(a) + [' ', c] + SpaceBeforeCapitals(b)
  {
    SpaceBeforeCapitalsConcat(a + [c], b);
    SpaceBeforeCapitalsConcat(a, [c]);
    assert [c][1..] == [];
  }

  /** A one-word field name only has its first letter raised. */
  lemma MajorLabel()
    ensures MissingMessage("major") == "Major is required"
  {
    assert Humanise("major") == "Major";
    assert "Major" + " is required" == "Major is required";
  }

  // ---------------------------------------------------------------------------
  // The e-mail pattern ^[^\s@]+@[^\s@]+\.[^\s@]+$

  /** Every character is matched by `[^\s@]`. */
  predicate PlainChars(t: string) {
    forall k :: 0 <= k < |t| ==> !IsSpace(t[k]) && t[k] != '@'
  }

  /** The regular expression read literally: three non-empty runs of `[^\s@]`, the
      first two separated by "@" and the last two by ".", covering the whole input. */
  ghost predicate MatchesEmailPattern(s: string) {
    exists i, j :: 0 < i && i + 1 < j < |s| - 1 && s[i] == '@' && s[j] == '.'
      && PlainChars(s[..i]) && PlainChars(s[i + 1..j]) && PlainChars(s[j + 1..])
  }

  /** Index of the first `c` in `s`, or `|s|` if there is none. */
  function IndexOf(s: string, c: char): (i: nat)
    ensures i <= |s| && (i < |s| ==> s[i] == c)
    ensures forall k :: 0 <= k < i ==> s[k] != c
  {
    if |s| == 0 then 0 else if s[0] == c then 0 else 1 + IndexOf(s[1..], c)
  }

  /** `emailRegex.test(email)`, decided by locating the single "@". */
  predicate IsValidEmail(s: string) {
    var i := IndexOf(s, '@');
    && 0 < i < |s|
    && PlainChars(s[..i]) && PlainChars(s[i + 1..])
    && exists j :: i + 1 < j < |s| - 1 && s[j] == '.'
  }

  /** Whatever the executable test accepts matches the pattern. */
  lemma EmailTestSound(s: string)
    requires IsValidEmail(s)
    ensures MatchesEmailPattern(s)
  {
    var i := IndexOf(s, '@');
    var j :| i + 1 < j < |s| - 1 && s[j] == '.';
    var rest := s[i + 1..];
    PlainSlice(rest, 0, j - (i + 1));
    PlainSlice(rest, j - i, |rest|);
    assert rest[0..j - (i + 1)] == s[i + 1..j];
    assert rest[j - i..|rest|] == s[j + 1..];
  }

  /** Whatever matches the pattern is accepted by the executable test. */
  lemma EmailTestComplete(s: string)
    requires MatchesEmailPattern(s)
    ensures IsValidEmail(s)
  {
    var a, b :| 0 < a && a + 1 < b < |s| - 1 && s[a] == '@' && s[b] == '.'
      && PlainChars(s[..a]) && PlainChars(s[a + 1..b]) && PlainChars(s[b + 1..]);
    EmailAcceptedAt(s, a, b);
  }

  lemma EmailAcceptedAt(s: string, a: nat, b: nat)
    requires 0 < a && a + 1 < b < |s| - 1 && s[a] == '@' && s[b] == '.'
    requires PlainChars(s[..a]) && PlainChars(s[a + 1..b]) && PlainChars(s[b + 1..])
    ensures IsValidEmail(s)
  {
    var i := IndexOf(s, '@');
    NoAtBefore(s[..a]);
    assert i == a;
    assert s[i + 1..] == s[a + 1..b] + [s[b]] + s[b + 1..];
    assert PlainChars([s[b]]);
    PlainConcat(s[a + 1..b], [s[b]]);
    PlainConcat(s[a + 1..b] + [s[b]], s[b + 1..]);
    assert i + 1 < b < |s| - 1 && s[b] == '.';
  }

  /** The executable test agrees with the pattern in both directions. */
  lemma EmailTestMatchesPattern(s: string)
    ensures IsValidEmail(s) <==> MatchesEmailPattern(s)
  {
    if IsValidEmail(s) {
      EmailTestSound(s);
    }
    if MatchesEmailPattern(s) {
      EmailTestComplete(s);
    }
  }

  lemma NoAtBefore(t: string)
    requires PlainChars(t)
    ensures forall k :: 0 <= k < |t| ==> t[k] != '@'
  {
  }

  lemma PlainSlice(t: string, a: nat, b: nat)
    requires PlainChars(t) && a <= b <= |t|
    ensures PlainChars(t[a..b])
  {
    assert forall k :: 0 <= k < b - a ==> t[a..b][k] == t[a + k];
  }

  lemma PlainConcat(t: string, u: string)
    requires PlainChars(t) && PlainChars(u)
    ensures PlainChars(t + u)
  {
    assert forall k :: 0 <= k < |t + u| ==> (t + u)[k] == if k < |t| then t[k] else u[k - |t|];
  }

  /** An ordinary address passes. */
  lemma EmailAcceptedExample()
    ensures IsValidEmail("bob@uni.edu")
  {
    var s := "bob@uni.edu";
    assert s[..3] == "bob" && s[4..7] == "uni" && s[8..] == "edu";
    assert PlainChars("bob") && PlainChars("uni") && PlainChars("edu");
    EmailAcceptedAt(s, 3, 7);
  }

  /** An address without "@" fails. */
  lemma EmailWithoutAt()
    ensures !IsValidEmail("bob.uni.edu")
  {
  }

  /** An address with a space fails. */
  lemma EmailWithSpace()
    ensures !IsValidEmail("b b@uni.edu")
  {
    assert "b b@uni.edu"[..3][1] == ' ';
  }

  // ---------------------------------------------------------------------------
  // Registration: `validateForm` of the three sign-up forms

  /** A value that `!value.trim()` treats as missing: nothing but white space
      (`Text.TrimEmptyIffAllSpace` ties this to `trim`). */
  predicate IsBlank(v: string) {
    AllSpace(v)
  }

  /** Index of the first required field at or after `from` whose value is blank,
      or `|required|` when there is none. */
  function MissingFrom(form: Entries, required: seq<string>, from: nat): (k: nat)
    requires HasAll(form, required) && from <= |required|
    ensures from <= k <= |required|
    ensures k < |required| ==> IsBlank(Lookup(form, required[k]))
    ensures forall j :: from <= j < k ==> !IsBlank(Lookup(form, required[j]))
    decreases |required| - from
  {
    if from == |required| then from
    else
      assert required[from] in required;
      if IsBlank(Lookup(form, required[from])) then from
      else
        var k := MissingFrom(form, required, from + 1);
        assert !IsBlank(Lookup(form, required[from]));
        k
  }

  /** The message of the required-field scan: the first blank field only, or nothing. */
  function RequiredFieldError(form: Entries, required: seq<string>): Option<string>
    requires HasAll(form, required)
  {
    var k := MissingFrom(form, required, 0);
    if k < |required| then Some(MissingMessage(required[k])) else None
  }

  /** The whole registration check: required fields, then the e-mail pattern, then the
      password length, each reached only when everything before it passed. */
  function RegistrationError(form: Entries, required: seq<string>): Option<string>
    requires HasAll(form, required) && "email" in Keys(form) && "password" in Keys(form)
  {
    match RequiredFieldError(form, required)
    case Some(m) => Some(m)
    case None =>
      if !IsValidEmail(Lookup(form, "email")) then Some(InvalidEmailMessage)
      else if Utf16Length(Lookup(form, "password")) < MinPasswordLength then Some(ShortPasswordMessage)
      else None
  }

  lemma {:induction false} MissingFromIs(form: Entries, required: seq<string>, from: nat, k: nat)
    requires HasAll(form, required) && from <= k <= |required|
    requires k < |required| ==> IsBlank(Lookup(form, required[k]))
    requires forall j :: from <= j < k ==> !IsBlank(Lookup(form, required[j]))
    ensures MissingFrom(form, required, from) == k
    decreases k - from
  {
    if from < k {
      MissingFromIs(form, required, from + 1, k);
    }
  }

  /** The `for (const field of requiredFields)` loop with its early return. */
  method FirstMissingField(form: Entries, required: seq<string>) returns (message: Option<string>)
    requires HasAll(form, required)
    ensures message == RequiredFieldError(form, required)
  {
    for i := 0 to |required|
      invariant forall j :: 0 <= j < i ==> !IsBlank(Lookup(form, required[j]))
    {
      TrimEmptyIffAllSpace(Lookup(form, required[i]));
      if Trim(Lookup(form, required[i])) == "" {
        MissingFromIs(form, required, 0, i);
        return Some(MissingMessage(required[i]));
      }
    }
    MissingFromIs(form, required, 0, |required|);
    return None;
  }

  /** `validateForm` of a sign-up form, minus the `setError` call its caller makes. */
  method ValidateRegistration(form: Entries, required: seq<string>) returns (ok: bool, message: string)
    requires HasAll(form, required) && "email" in Keys(form) && "password" in Keys(form)
    ensures ok <==> RegistrationError(form, required).None?
    ensures !ok ==> message == RegistrationError(form, required).value
  {
    var missing := FirstMissingField(form, required);
    if missing.Some? {
      return false, missing.value;
    }
    if !IsValidEmail(Lookup(form, "email")) {
      return false, InvalidEmailMessage;
    }
    if Utf16Length(Lookup(form, "password")) < MinPasswordLength {
      return false, ShortPasswordMessage;
    }
    return true, "";
  }

  /** Only the first blank required field is reported; no later check runs. */
  lemma FirstBlankFieldReported(form: Entries, required: seq<string>, k: nat)
    requires HasAll(form, required) && "email" in Keys(form) && "password" in Keys(form)
    requires k < |required| && IsBlank(Lookup(form, required[k]))
    requires forall j :: 0 <= j < k ==> !IsBlank(Lookup(form, required[j]))
    ensures RegistrationError(form, required) == Some(MissingMessage(required[k]))
  {
    MissingFromIs(form, required, 0, k);
  }

  /** The form passes exactly when no required field is blank, the e-mail matches the
      pattern and the password is at least six UTF-16 code units long. */
  lemma RegistrationAccepted(form: Entries, required: seq<string>)
    requires HasAll(form, required) && "email" in Keys(form) && "password" in Keys(form)
    ensures RegistrationError(form, required).None? <==>
      && (forall j :: 0 <= j < |required| ==> !IsBlank(Lookup(form, required[j])))
      && MatchesEmailPattern(Lookup(form, "email"))
      && Utf16Length(Lookup(form, "password")) >= MinPasswordLength
  {
    EmailTestMatchesPattern(Lookup(form, "email"));
    if forall j :: 0 <= j < |required| ==> !IsBlank(Lookup(form, required[j])) {
      MissingFromIs(form, required, 0, |required|);
    }
  }

  /** The e-mail message appears only when every required field is filled, and the
      password message only when the e-mail passed as well. */
  lemma LaterChecksNeedEarlierOnes(form: Entries, required: seq<string>)
    requires HasAll(form, required) && "email" in Keys(form) && "password" in Keys(form)
    requires forall f :: f in required ==> IsCamelName(f)
    ensures RegistrationError(form, required) == Some(InvalidEmailMessage) ==>
      (forall j :: 0 <= j < |required| ==> !IsBlank(Lookup(form, required[j])))
      && !MatchesEmailPattern(Lookup(form, "email"))
    ensures RegistrationError(form, required) == Some(ShortPasswordMessage) ==>
      (forall j :: 0 <= j < |required| ==> !IsBlank(Lookup(form, required[j])))
      && MatchesEmailPattern(Lookup(form, "email")) && Utf16Length(Lookup(form, "password")) < MinPasswordLength
  {
    EmailTestMatchesPattern(Lookup(form, "email"));
    var k := MissingFrom(form, required, 0);
    if k < |required| {
      NotAFieldMessage(required[k]);
    }
  }

  /** A missing-field message never reads like the e-mail or password message. */
  lemma NotAFieldMessage(field: string)
    ensures MissingMessage(field) != InvalidEmailMessage
    ensures MissingMessage(field) != ShortPasswordMessage
  {
    var m := MissingMessage(field);
    var n := |m|;
    assert m[n - 1] == 'd';
    assert InvalidEmailMessage[|InvalidEmailMessage| - 1] == 's';
    assert ShortPasswordMessage[|ShortPasswordMessage| - 1] == 'g';
  }

  /** The length check is the last one: with everything else valid, a length of five
      UTF-16 code units fails and six pass. */
  lemma PasswordBoundary(form: Entries, required: seq<string>)
    requires HasAll(form, required) && "email" in Keys(form) && "password" in Keys(form)
    requires forall j :: 0 <= j < |required| ==> !IsBlank(Lookup(form, required[j]))
    requires IsValidEmail(Lookup(form, "email"))
    ensures Utf16Length(Lookup(form, "password")) == 5 ==> RegistrationError(form, required) == Some(ShortPasswordMessage)
    ensures Utf16Length(Lookup(form, "password")) == 6 ==> RegistrationError(form, required) == None
  {
    MissingFromIs(form, required, 0, |required|);
  }

  /** The length is counted as JavaScript counts it: three emoji are six code units, so
      such a password passes although it has only three characters. */
  lemma EmojiPasswordPasses(form: Entries, required: seq<string>)
    requires HasAll(form, required) && "email" in Keys(form) && "password" in Keys(form)
    requires forall j :: 0 <= j < |required| ==> !IsBlank(Lookup(form, required[j]))
    requires IsValidEmail(Lookup(form, "email"))
    requires Lookup(form, "password") == "\U{1F600}\U{1F600}\U{1F600}"
    ensures RegistrationError(form, required) == None
  {
    Utf16LengthOfEmoji();
    MissingFromIs(form, required, 0, |required|);
  }

  // ---------------------------------------------------------------------------
  // Sign-in: `validateForm` of the three sign-in forms

  /** The username is checked trimmed and first; the password is checked untrimmed. */
  function SignInError(username: string, password: string): Option<string> {
    if Trim(username) == "" then Some(UsernameRequiredMessage)
    else if password == "" then Some(PasswordRequiredMessage)
    else None
  }

  /** A sign-in passes exactly when the username has a non-space character and the
      password is not empty; a password of spaces passes. */
  lemma SignInAccepted(username: string, password: string)
    ensures SignInError(username, password).None? <==> !AllSpace(username) && password != ""
    ensures SignInError(username, "   ") == if AllSpace(username) then Some(UsernameRequiredMessage) else None
  {
    TrimEmptyIffAllSpace(username);
  }

  // ---------------------------------------------------------------------------
  // `handleImageChange`

  /** The reason a chosen file is refused, type first, then size; `None` when accepted. */
  function ImageRejection(f: File): Option<string> {
    if !("image/" <= f.mimeType) then Some(InvalidImageMessage)
    else if f.size > MaxImageBytes then Some(LargeImageMessage)
    else None
  }

  /** A file is accepted exactly when its MIME type starts with "image/" and it has at
      most 5 MiB; exactly 5 MiB passes and one byte more fails. */
  lemma ImageAccepted(f: File)
    ensures ImageRejection(f).None? <==> "image/" <= f.mimeType && f.size <= 5242880
    ensures "image/" <= f.mimeType && f.size == 5242881 ==> ImageRejection(f) == Some(LargeImageMessage)
  {
  }
}
