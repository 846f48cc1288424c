/**
 * The authentication input schemas: the signup password rules, the login
 * password rule and the two object schemas that combine them with an e-mail
 * check. The e-mail check is the validation library's own and is passed in as
 * the predicate `isEmail`.
 *
 * Lengths are JavaScript string lengths, that is UTF-16 code units; a Dafny
 * `char` is a Unicode scalar value, so a character above U+FFFF counts twice.
 */
module AuthSchemas {

  const PASSWORD_MIN_LENGTH: nat := 6

  const MSG_TOO_SHORT: string := "Password must be at least 6 characters"
  const MSG_NO_LOWERCASE: string := "Password must contain at least one lowercase letter"
  const MSG_NO_UPPERCASE: string := "Password must contain at least one uppercase letter"
  const MSG_NO_DIGIT: string := "Password must contain at least one digit"
  const MSG_NO_SPECIAL: string := "Password must contain at least one special character"
  const MSG_INVALID_EMAIL: string := "Invalid email address"
  const MSG_PASSWORD_REQUIRED: string := "Password is required"

  /** The four character classes the password regexes test for. */
  datatype CharClass = Lowercase | Uppercase | Digit | Special

  predicate IsAsciiLetterOrDigit(c: char)
  {
    ('a' <= c <= 'z') || ('A' <= c <= 'Z') || ('0' <= c <= '9')
  }

  /** `[a-z]`, `[A-Z]`, `[0-9]` and `[^a-zA-Z0-9]`. */
  predicate InClass(c: char, k: CharClass)
  {
    match k
    case Lowercase => 'a' <= c <= 'z'
    case Uppercase => 'A' <= c <= 'Z'
    case Digit => '0' <= c <= '9'
    case Special => !IsAsciiLetterOrDigit(c)
  }

  /** An unanchored regex test for one class: some character of `s` is in it. */
  predicate ContainsClass(s: string, k: CharClass)
  {
    exists i :: 0 <= i < |s| && InClass(s[i], k)
  }

  /** How many UTF-16 code units encode `c`. */
  function CodeUnits(c: char): nat
  {
    if c as int > 0xFFFF then 2 else 1
  }

  /** JavaScript's `length` of `s`. */
  function Utf16Length(s: string): (n: nat)
    ensures |s| <= n <= 2 * |s|
  {
    if s == [] then 0 else CodeUnits(s[0]) + Utf16Length(s[1..])
  }

  /** The checks of `passwordSchema`, in the order they are chained. */
  datatype PasswordRule = MinLength | HasLowercase | HasUppercase | HasDigit | HasSpecial

  predicate Satisfies(s: string, rule: PasswordRule)
  {
    match rule
    case MinLength => Utf16Length(s) >= PASSWORD_MIN_LENGTH
    case HasLowercase => ContainsClass(s, Lowercase)
    case HasUppercase => ContainsClass(s, Uppercase)
    case HasDigit => ContainsClass(s, Digit)
    case HasSpecial => ContainsClass(s, Special)
  }

  /** The rule that demands a character of class `k`. */
  function RuleFor(k: CharClass): (rule: PasswordRule)
    ensures rule != MinLength
    ensures forall s :: Satisfies(s, rule) <==> ContainsClass(s, k)
  {
    match k
    case Lowercase => HasLowercase
    case Uppercase => HasUppercase
    case Digit => HasDigit
    case Special => HasSpecial
  }

  /** The position of a rule in the chain. */
  function Rank(rule: PasswordRule): nat
  {
    match rule
    case MinLength => 0
    case HasLowercase => 1
    case HasUppercase => 2
    case HasDigit => 3
    case HasSpecial => 4
  }

  function RuleMessage(rule: PasswordRule): string
  {
    match rule
    case MinLength => MSG_TOO_SHORT
    case HasLowercase => MSG_NO_LOWERCASE
    case HasUppercase => MSG_NO_UPPERCASE
    case HasDigit => MSG_NO_DIGIT
    case HasSpecial => MSG_NO_SPECIAL
  }

  /** A password `passwordSchema` accepts: one that passes every check of the chain. */
  predicate IsStrongPassword(s: string)
    ensures IsStrongPassword(s) <==> forall rule :: Satisfies(s, rule)
  {
    assert (Satisfies(s, MinLength) && Satisfies(s, HasLowercase) && Satisfies(s, HasUppercase)
            && Satisfies(s, HasDigit) && Satisfies(s, HasSpecial)) ==> forall rule :: Satisfies(s, rule);
    Utf16Length(s) >= PASSWORD_MIN_LENGTH
    && ContainsClass(s, Lowercase)
    && ContainsClass(s, Uppercase)
    && ContainsClass(s, Digit)
    && ContainsClass(s, Special)
  }

  /** The checks in the order they are chained. */
  const CHAIN: seq<PasswordRule> := [MinLength, HasLowercase, HasUppercase, HasDigit, HasSpecial]

  predicate InChainOrder(rules: seq<PasswordRule>)
  {
    forall i, j :: 0 <= i < j < |rules| ==> Rank(rules[i]) < Rank(rules[j])
  }

  /** The rules of `rules` that `s` violates, in the order given. */
  function Violated(s: string, rules: seq<PasswordRule>): (r: seq<PasswordRule>)
    ensures forall rule :: rule in r <==> rule in rules && !Satisfies(s, rule)
    ensures InChainOrder(rules) ==> InChainOrder(r)
  {
    if rules == [] then []
    else
      var rest := Violated(s, rules[1..]);
      assert InChainOrder(rules) ==> forall j :: 0 <= j < |rest| ==> Rank(rules[0]) < Rank(rest[j]) by {
        if InChainOrder(rules) {
          forall j | 0 <= j < |rest| ensures Rank(rules[0]) < Rank(rest[j]) {
            assert rest[j] in rules[1..];
          }
        }
      }
      (if Satisfies(s, rules[0]) then [] else [rules[0]]) + rest
  }

  /**
   * The rules `passwordSchema` reports as violated. Every check of the chain
   * runs, so all failing rules are reported, in chain order.
   */
  function PasswordIssues(s: string): (issues: seq<PasswordRule>)
    ensures forall rule :: rule in issues <==> !Satisfies(s, rule)
    ensures issues == [] <==> IsStrongPassword(s)
    ensures forall i, j :: 0 <= i < j < |issues| ==> issues[i] != issues[j]
    ensures forall i, j :: 0 <= i < j < |issues| ==> Rank(issues[i]) < Rank(issues[j])
  {
    ChainIsComplete();
    var issues := Violated(s, CHAIN);
    assert issues != [] ==> !Satisfies(s, issues[0]);
    issues
  }

  /** The chain holds every rule, each once, in rank order. */
  lemma ChainIsComplete()
    ensures forall rule :: rule in CHAIN
    ensures InChainOrder(CHAIN)
  {
    forall rule ensures rule in CHAIN {
      match rule
      case MinLength => assert CHAIN[0] == rule;
      case HasLowercase => assert CHAIN[1] == rule;
      case HasUppercase => assert CHAIN[2] == rule;
      case HasDigit => assert CHAIN[3] == rule;
      case HasSpecial => assert CHAIN[4] == rule;
    }
  }

  /** The login schema's password rule: `min(1)`. */
  predicate LoginPasswordAccepted(s: string)
    ensures LoginPasswordAccepted(s) <==> s != []
  {
    Utf16Length(s) >= 1
  }

  datatype Field = Email | Password

  /** One issue of an object schema, with the field it is about. */
  datatype Issue = Issue(path: Field, message: string)

  datatype Credentials = Credentials(email: string, password: string)

  function PasswordFieldIssues(rules: seq<PasswordRule>): (r: seq<Issue>)
    ensures |r| == |rules|
    ensures forall i :: 0 <= i < |r| ==> r[i] == Issue(Password, RuleMessage(rules[i]))
  {
    if rules == [] then [] else [Issue(Password, RuleMessage(rules[0]))] + PasswordFieldIssues(rules[1..])
  }

  function EmailIssues(email: string, isEmail: string -> bool): seq<Issue>
  {
    if isEmail(email) then [] else [Issue(Email, MSG_INVALID_EMAIL)]
  }

  /** `signupSchema`: the e-mail check and the full password rules. */
  function SignupIssues(input: Credentials, isEmail: string -> bool): (issues: seq<Issue>)
    ensures issues == [] <==> isEmail(input.email) && IsStrongPassword(input.password)
    ensures Issue(Email, MSG_INVALID_EMAIL) in issues <==> !isEmail(input.email)
    ensures forall rule :: !Satisfies(input.password, rule) ==> Issue(Password, RuleMessage(rule)) in issues
    ensures forall iss :: iss in issues && iss.path == Password ==>
              exists rule :: !Satisfies(input.password, rule) && iss == Issue(Password, RuleMessage(rule))
    ensures forall iss :: iss in issues && iss.path == Email ==> iss == Issue(Email, MSG_INVALID_EMAIL)
    ensures !isEmail(input.email) ==> issues[0] == Issue(Email, MSG_INVALID_EMAIL)
  {
    PasswordFieldIssuesExact(input.password);
    EmailIssues(input.email, isEmail) + PasswordFieldIssues(PasswordIssues(input.password))
  }

  /** The password-field issues of `s` are exactly the messages of the rules it violates. */
  lemma PasswordFieldIssuesExact(s: string)
    ensures var pw := PasswordFieldIssues(PasswordIssues(s));
            (pw == [] <==> IsStrongPassword(s))
            && (forall rule :: !Satisfies(s, rule) ==> Issue(Password, RuleMessage(rule)) in pw)
            && (forall iss :: iss in pw ==>
                  iss.path == Password
                  && exists rule :: !Satisfies(s, rule) && iss == Issue(Password, RuleMessage(rule)))
  {
    forall rule | !Satisfies(s, rule) ensures Issue(Password, RuleMessage(rule)) in PasswordFieldIssues(PasswordIssues(s)) {
      ReportedFieldIssue(s, rule);
    }
    forall iss | iss in PasswordFieldIssues(PasswordIssues(s))
      ensures iss.path == Password
      ensures exists rule :: !Satisfies(s, rule) && iss == Issue(Password, RuleMessage(rule))
    {
      FieldIssueHasCause(s, iss);
    }
  }

  lemma ReportedFieldIssue(s: string, rule: PasswordRule)
    requires !Satisfies(s, rule)
    ensures Issue(Password, RuleMessage(rule)) in PasswordFieldIssues(PasswordIssues(s))
  {
    var rules := PasswordIssues(s);
    var i :| 0 <= i < |rules| && rules[i] == rule;
    assert PasswordFieldIssues(rules)[i] == Issue(Password, RuleMessage(rule));
  }

  lemma FieldIssueHasCause(s: string, iss: Issue)
    requires iss in PasswordFieldIssues(PasswordIssues(s))
    ensures iss.path == Password
    ensures exists rule :: !Satisfies(s, rule) && iss == Issue(Password, RuleMessage(rule))
  {
    var rules := PasswordIssues(s);
    var pw := PasswordFieldIssues(rules);
    var i :| 0 <= i < |pw| && pw[i] == iss;
    assert rules[i] in rules;
  }

  /** `loginSchema`: the e-mail check and a non-empty password. */
  function LoginIssues(input: Credentials, isEmail: string -> bool): (issues: seq<Issue>)
    ensures issues == [] <==> isEmail(input.email) && input.password != []
    ensures Issue(Email, MSG_INVALID_EMAIL) in issues <==> !isEmail(input.email)
    ensures Issue(Password, MSG_PASSWORD_REQUIRED) in issues <==> input.password == []
    ensures forall iss :: iss in issues ==> iss == Issue(Email, MSG_INVALID_EMAIL) || iss == Issue(Password, MSG_PASSWORD_REQUIRED)
  {
    EmailIssues(input.email, isEmail)
    + (if LoginPasswordAccepted(input.password) then [] else [Issue(Password, MSG_PASSWORD_REQUIRED)])
  }

  // ---- Properties of the password rules ----

  lemma {:induction false} Utf16LengthAppend(s: string, t: string)
    ensures Utf16Length(s + t) == Utf16Length(s) + Utf16Length(t)
  {
    if s == [] {
      assert s + t == t;
    } else {
      assert (s + t)[1..] == s[1..] + t;
      Utf16LengthAppend(s[1..], t);
    }
  }

  /** Without characters above U+FFFF, the JavaScript length is the length. */
  lemma {:induction false} Utf16LengthOfBmp(s: string)
    requires forall i :: 0 <= i < |s| ==> s[i] as int <= 0xFFFF
    ensures Utf16Length(s) == |s|
  {
    if s != [] {
      Utf16LengthOfBmp(s[1..]);
    }
  }

  lemma ContainsClassAppend(s: string, t: string, k: CharClass)
    requires ContainsClass(s, k)
    ensures ContainsClass(s + t, k)
  {
    var i :| 0 <= i < |s| && InClass(s[i], k);
    assert (s + t)[i] == s[i];
  }

  /** Fewer than six code units is rejected, whatever the characters. */
  lemma ShortPasswordRejected(s: string)
    requires Utf16Length(s) < PASSWORD_MIN_LENGTH
    ensures !IsStrongPassword(s)
    ensures MinLength in PasswordIssues(s)
  {
  }

  /** For text without characters above U+FFFF: fewer than six characters is rejected. */
  lemma ShortBmpPasswordRejected(s: string)
    requires forall i :: 0 <= i < |s| ==> s[i] as int <= 0xFFFF
    requires |s| < PASSWORD_MIN_LENGTH
    ensures !IsStrongPassword(s)
    ensures MinLength in PasswordIssues(s)
  {
    Utf16LengthOfBmp(s);
  }

  /** Five characters, two of them emoji, make seven code units and pass. */
  lemma FiveCharacterPasswordAccepted()
    ensures IsStrongPassword("aA1\U{1F600}\U{1F600}")
  {
  }

  /** A password missing one class is rejected, and that class's rule is reported. */
  lemma MissingClassRejected(s: string, k: CharClass)
    requires !ContainsClass(s, k)
    ensures !IsStrongPassword(s)
    ensures RuleFor(k) in PasswordIssues(s)
  {
  }

  /** Every rule is a minimum length or a "contains": appending keeps a password acceptable. */
  lemma AppendKeepsStrong(s: string, t: string)
    requires IsStrongPassword(s)
    ensures IsStrongPassword(s + t)
  {
    Utf16LengthAppend(s, t);
    ContainsClassAppend(s, t, Lowercase);
    ContainsClassAppend(s, t, Uppercase);
    ContainsClassAppend(s, t, Digit);
    ContainsClassAppend(s, t, Special);
  }

  /** Any character other than an ASCII letter or digit, non-ASCII letters included, is special. */
  lemma NonAsciiAlnumIsSpecial(s: string, i: nat)
    requires i < |s| && !IsAsciiLetterOrDigit(s[i])
    ensures Satisfies(s, HasSpecial)
  {
  }

  lemma AccentedLetterIsSpecial()
    ensures ContainsClass("é", Special)
  {
    assert InClass("é"[0], Special);
  }

  /** The login password rule is exactly non-emptiness. */
  lemma LoginPasswordIffNonEmpty(s: string)
    ensures LoginPasswordAccepted(s) <==> s != []
  {
  }

  /** A signup password is always a login password... */
  lemma StrongPasswordIsLoginPassword(s: string)
    requires IsStrongPassword(s)
    ensures LoginPasswordAccepted(s)
  {
  }

  /** ...but login does not apply the complexity rules. */
  lemma LoginSkipsComplexity()
    ensures LoginPasswordAccepted("a") && !IsStrongPassword("a")
  {
  }
}
