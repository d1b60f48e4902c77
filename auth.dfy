/**
 * The account routes' input checks: the password rule and the e-mail
 * address pattern `^[a-zA-Z0-9._%+-]+@[a-zA-Z0-9.-]+\.[a-zA-Z]{2,}$`
 * applied with `re.match`.
 */
module AuthRoutes {
  import opened Common

  // ---------------------------------------------------------------------------
  // validate_password

  const PasswordTooShort := "Password must be at least 8 characters long"
  const PasswordNoLetter := "Password must contain at least one letter"
  const PasswordNoNumber := "Password must contain at least one number"
  const PasswordValid := "Valid password"

  predicate HasLetter(s: string)
  {
    exists i :: 0 <= i < |s| && IsAsciiLetter(s[i])
  }

  predicate HasDigit(s: string)
  {
    exists i :: 0 <= i < |s| && IsAsciiDigit(s[i])
  }

  /** `validate_password`: whether the password is accepted, and the message for the first rule it breaks. */
  function ValidatePassword(password: string): (r: (bool, string))
  {
    if |password| < 8 then (false, PasswordTooShort)
    else if !HasLetter(password) then (false, PasswordNoLetter)
    else if !HasDigit(password) then (false, PasswordNoNumber)
    else (true, PasswordValid)
  }

  /**
   * A password is accepted exactly when it has at least eight characters, a
   * letter and a digit; a rejection names the first of those rules it breaks,
   * so a short password gets the length message whatever it contains.
   */
  lemma ValidatePasswordSpec(password: string)
    ensures ValidatePassword(password).0 <==> |password| >= 8 && HasLetter(password) && HasDigit(password)
    ensures |password| < 8 ==> ValidatePassword(password).1 == PasswordTooShort
    ensures |password| >= 8 && !HasLetter(password) ==> ValidatePassword(password).1 == PasswordNoLetter
    ensures |password| >= 8 && HasLetter(password) && !HasDigit(password) ==>
      ValidatePassword(password).1 == PasswordNoNumber
    ensures ValidatePassword(password).0 <==> ValidatePassword(password).1 == PasswordValid
  {
  }

  /** "password1" is accepted; "password" and "12345678" are not, each for its own reason. */
  lemma PasswordExamples()
    ensures ValidatePassword("password1") == (true, PasswordValid)
    ensures ValidatePassword("password") == (false, PasswordNoNumber)
    ensures ValidatePassword("12345678") == (false, PasswordNoLetter)
  {
    assert IsAsciiLetter("password1"[0]) && IsAsciiDigit("password1"[8]);
    assert IsAsciiLetter("password"[0]);
    assert forall i :: 0 <= i < 8 ==> !IsAsciiDigit("password"[i]);
    assert forall i :: 0 <= i < 8 ==> !IsAsciiLetter("12345678"[i]);
  }

  // ---------------------------------------------------------------------------
  // validate_email

  /** `[a-zA-Z0-9._%+-]`, the characters of the local part. */
  predicate LocalChar(c: char)
  {
    IsAsciiLetter(c) || IsAsciiDigit(c) || c == '.' || c == '_' || c == '%' || c == '+' || c == '-'
  }

  /** `[a-zA-Z0-9.-]`, the characters of the domain. */
  predicate DomainChar(c: char)
  {
    IsAsciiLetter(c) || IsAsciiDigit(c) || c == '.' || c == '-'
  }

  predicate AllLocal(s: string) { forall i :: 0 <= i < |s| ==> LocalChar(s[i]) }

  predicate AllDomain(s: string) { forall i :: 0 <= i < |s| ==> DomainChar(s[i]) }

  predicate AllLetters(s: string) { forall i :: 0 <= i < |s| ==> IsAsciiLetter(s[i]) }

  /**
   * The pattern matches all of `body` with the '@' at `at` and the escaped
   * dot at `dot`: a non-empty local part before `at`, a non-empty domain
   * between them, and at least two letters after `dot`.
   */
  predicate MatchesAt(body: string, at: int, dot: int)
  {
    && 0 < at && at + 1 < dot && dot < |body|
    && body[at] == '@' && AllLocal(body[..at])
    && AllDomain(body[at + 1..dot])
    && body[dot] == '.' && |body| - (dot + 1) >= 2 && AllLetters(body[dot + 1..])
  }

  /** Some way of placing the '@' and the last dot makes the pattern match `body`. */
  ghost predicate PatternMatches(body: string)
  {
    exists at, dot :: MatchesAt(body, at, dot)
  }

  /** `re.match(pattern, email)` succeeds: `$` matches at the end or just before a final newline. */
  ghost predicate Accepted(email: string)
  {
    PatternMatches(email)
    || (|email| > 0 && email[|email| - 1] == '\n' && PatternMatches(email[..|email| - 1]))
  }

  /** The index of the last `c` in `s`, or -1 when there is none. */
  function LastIndex(s: string, c: char): (r: int)
    ensures -1 <= r < |s|
    ensures r >= 0 ==> s[r] == c
    ensures forall i :: r < i < |s| ==> s[i] != c
  {
    if s == [] then -1
    else if s[|s| - 1] == c then |s| - 1
    else LastIndex(s[..|s| - 1], c)
  }

  /** The match decided directly: the '@' can only be the first one, the dot only the last. */
  predicate BodyMatches(body: string)
  {
    MatchesAt(body, FindEither(body, '@', '@'), LastIndex(body, '.'))
  }

  /** `validate_email`. */
  predicate ValidateEmail(email: string)
  {
    BodyMatches(email)
    || (|email| > 0 && email[|email| - 1] == '\n' && BodyMatches(email[..|email| - 1]))
  }

  /**
   * Wherever the pattern matches, the '@' is the first '@' (no character of
   * the local part is one) and the dot is the last '.' (no letter is one).
   */
  lemma {:induction false} MatchPositions(body: string, at: int, dot: int)
    requires MatchesAt(body, at, dot)
    ensures at == FindEither(body, '@', '@')
    ensures dot == LastIndex(body, '.')
  {
    forall k | 0 <= k < at
      ensures body[k] != '@'
    {
      assert body[..at][k] == body[k];
    }
    forall k | dot < k < |body|
      ensures body[k] != '.'
    {
      assert body[dot + 1..][k - dot - 1] == body[k];
    }
  }

  lemma BodyMatchesIff(body: string)
    ensures BodyMatches(body) <==> PatternMatches(body)
  {
    if PatternMatches(body) {
      var at, dot :| MatchesAt(body, at, dot);
      MatchPositions(body, at, dot);
    }
  }

  /** The computed check agrees with the regular expression on every input. */
  lemma ValidateEmailSpec(email: string)
    ensures ValidateEmail(email) <==> Accepted(email)
  {
    BodyMatchesIff(email);
    if |email| > 0 {
      BodyMatchesIff(email[..|email| - 1]);
    }
  }

  /**
   * An accepted address without a final newline has exactly one '@', a
   * non-empty local part of pattern characters before it, a non-empty
   * domain segment after it, and at least two letters after its last '.'.
   */
  lemma AcceptedShape(email: string)
    requires ValidateEmail(email)
    requires |email| > 0 && email[|email| - 1] != '\n'
    ensures var at := FindEither(email, '@', '@');
      && at < |email|
      && (forall i :: 0 <= i < |email| && email[i] == '@' ==> i == at)
      && 0 < at && AllLocal(email[..at])
    ensures var dot := LastIndex(email, '.');
      && FindEither(email, '@', '@') + 1 < dot
      && |email| - (dot + 1) >= 2 && AllLetters(email[dot + 1..])
  {
    var at := FindEither(email, '@', '@');
    var dot := LastIndex(email, '.');
    assert BodyMatches(email);
    assert MatchesAt(email, at, dot);
    forall i | 0 <= i < |email| && email[i] == '@'
      ensures i == at
    {
      OnlyOneAt(email, at, dot, i);
    }
  }

  lemma OnlyOneAt(email: string, at: int, dot: int, i: int)
    requires MatchesAt(email, at, dot)
    requires 0 <= i < |email| && email[i] == '@'
    requires forall k :: 0 <= k < at ==> email[k] != '@'
    ensures i == at
  {
    forall k | at < k < dot
      ensures email[k] != '@'
    {
      assert email[at + 1..dot][k - at - 1] == email[k];
    }
    forall k | dot < k < |email|
      ensures email[k] != '@'
    {
      assert email[dot + 1..][k - dot - 1] == email[k];
    }
  }

  /** A single trailing newline is accepted after a valid address; a second one is not. */
  lemma TrailingNewline(email: string)
    requires BodyMatches(email)
    ensures ValidateEmail(email + "\n")
    ensures !ValidateEmail(email + "\n\n")
  {
    assert (email + "\n")[..|email|] == email;
    var twice := email + "\n\n";
    assert twice[..|twice| - 1] == email + "\n";
    NoMatchEndingInNewline(twice);
    NoMatchEndingInNewline(email + "\n");
  }

  /** The pattern never matches a body whose last character is a newline. */
  lemma NoMatchEndingInNewline(body: string)
    requires |body| > 0 && body[|body| - 1] == '\n'
    ensures !BodyMatches(body)
  {
  }
}
