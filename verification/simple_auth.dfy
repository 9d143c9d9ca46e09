/** The mock authentication: input checks of sign-in and sign-up and the user
    record they make up. */
module SimpleAuth {
  import opened Wrappers
  import opened Strings
  import opened Format

  datatype User = User(id: string, email: string, name: Option<string>)

  const MissingFields: string := "Email and password are required"
  const ShortPassword: string := "Password must be at least 8 characters"

  /** The shortest password sign-up accepts. */
  const MinPasswordLength: nat := 8

  /** The first piece of `s.split(c)` is the part of `s` before the first `c`. */
  lemma {:induction false} SplitHead(s: string, c: char)
    ensures var h := Split(s, c)[0];
            && c !in h && |h| <= |s| && s[..|h|] == h
            && (|h| < |s| ==> s[|h|] == c)
            && (c !in s ==> h == s)
  {
    if |s| > 0 {
      SplitHead(s[1..], c);
      if s[0] != c {
        assert s == [s[0]] + s[1..];
      }
    }
  }

  /** `email.split('@')[0]`: the email up to its first '@', or all of it. */
  function EmailName(email: string): (n: string)
    ensures '@' !in n && StartsWith(email, n)
    ensures |n| < |email| ==> email[|n|] == '@'
    ensures '@' !in email ==> n == email
  {
    SplitHead(email, '@');
    Split(email, '@')[0]
  }

  /** `signIn`: both fields are required; any such pair is accepted as user
      '1', named after the email. */
  function SignIn(email: string, password: string): (r: Result<User, string>)
    ensures r.Failure? <==> email == "" || password == ""
    ensures r.Failure? ==> r.error == MissingFields
    ensures r.Success? ==> r.value == User("1", email, Some(EmailName(email)))
  {
    if email == "" || password == "" then Failure(MissingFields)
    else Success(User("1", email, Some(EmailName(email))))
  }

  /** `signUp`: both fields are required, checked before the password's
      length, which `password.length` counts in UTF-16 code units; the id
      is the clock reading `now` in decimal, and the name the given one
      when it is non-empty, else the email's. */
  function SignUp(email: string, password: string, name: Option<string>, now: nat): (r: Result<User, string>)
    ensures email == "" || password == "" ==> r == Failure(MissingFields)
    ensures email != "" && password != "" ==> (r == Failure(ShortPassword) <==> |Utf16(password)| < MinPasswordLength)
    ensures r.Success? <==> email != "" && |Utf16(password)| >= MinPasswordLength
    ensures r.Success? ==> r.value.email == email && r.value.id == NatToString(now)
    ensures r.Success? ==> r.value.name == Some(if name.Some? && name.value != "" then name.value else EmailName(email))
  {
    if email == "" || password == "" then Failure(MissingFields)
    else if |Utf16(password)| < MinPasswordLength then Failure(ShortPassword)
    else Success(User(NatToString(now), email, Some(if name.Some? && name.value != "" then name.value else EmailName(email))))
  }

  /** Four characters above U+FFFF are eight code units, long enough for
      `password.length >= 8`; four characters of the Basic Multilingual
      Plane are not. */
  lemma SurrogatePairsCount()
    ensures SignUp("a@b.c", "\U{1F600}\U{1F600}\U{1F600}\U{1F600}", None, 0).Success?
    ensures SignUp("a@b.c", "abcd", None, 0) == Failure(ShortPassword)
  {
    var p := "\U{1F600}\U{1F600}\U{1F600}\U{1F600}";
    assert Utf16(p[3..]) == CodeUnits(p[3]) == [0xD83D, 0xDE00];
    assert Utf16(p[2..]) == CodeUnits(p[2]) + Utf16(p[3..]);
    assert Utf16(p[1..]) == CodeUnits(p[1]) + Utf16(p[2..]);
    assert Utf16(p) == CodeUnits(p[0]) + Utf16(p[1..]);
  }
}
