/**
 * The sign-up form: its password-strength scorer, the strength bar's colours
 * and the checks that gate the sign-up request.
 *
 * Strength is one point for each of five criteria (longer than 6, longer than
 * 10, an upper-case letter, a digit, a character that is neither an ASCII
 * letter nor a digit), 0 for the empty password. Below 2 reads "Weak", below 4
 * "Medium", otherwise "Strong". Submitting needs matching passwords first and
 * a strength of at least 2 second.
 */
module Signup {
  import opened Optional

  // ---------------------------------------------------------------------------
  // Character classes and the regular-expression tests

  predicate IsUpper(c: char) { 'A' <= c <= 'Z' }
  predicate IsLower(c: char) { 'a' <= c <= 'z' }
  predicate IsDigit(c: char) { '0' <= c <= '9' }

  /** `[^A-Za-z0-9]` */
  predicate IsSymbol(c: char) { !IsUpper(c) && !IsLower(c) && !IsDigit(c) }

  /** The three classes the scorer tests for: `[A-Z]`, `[0-9]`, `[^A-Za-z0-9]`. */
  datatype CharClass = Upper | Digit | Symbol

  predicate InClass(c: char, k: CharClass)
  {
    match k
    case Upper => IsUpper(c)
    case Digit => IsDigit(c)
    case Symbol => IsSymbol(c)
  }

  /** `/[class]/.test(s)`: some character of `s` belongs to the class. */
  function Test(k: CharClass, s: string): (b: bool)
    ensures b <==> exists i :: 0 <= i < |s| && InClass(s[i], k)
    decreases |s|
  {
    if s == [] then false
    else if InClass(s[0], k) then true
    else
      var b := Test(k, s[1..]);
      assert b ==> exists i :: 0 <= i < |s| && InClass(s[i], k) by {
        if b {
          var j :| 0 <= j < |s[1..]| && InClass(s[1..][j], k);
          assert InClass(s[j + 1], k);
        }
      }
      assert (exists i :: 0 <= i < |s| && InClass(s[i], k)) ==> b by {
        if exists i :: 0 <= i < |s| && InClass(s[i], k) {
          var j :| 0 <= j < |s| && InClass(s[j], k);
          assert j > 0 && InClass(s[1..][j - 1], k);
        }
      }
      b
  }

  /** JavaScript's `length`: UTF-16 code units, two for a character outside
      the Basic Multilingual Plane. */
  function Utf16Length(s: string): (n: nat)
    ensures |s| <= n <= 2 * |s|
    ensures n == 0 <==> s == []
    ensures (forall i :: 0 <= i < |s| ==> s[i] as int <= 0xFFFF) ==> n == |s|
    decreases |s|
  {
    if s == [] then 0
    else
      assert forall i :: 0 <= i < |s[1..]| ==> s[1..][i] == s[i + 1];
      (if s[0] as int > 0xFFFF then 2 else 1) + Utf16Length(s[1..])
  }

  /** The positions of the characters outside the Basic Multilingual Plane,
      each of which JavaScript stores as a surrogate pair. */
  function AstralPositions(s: string): set<nat>
  {
    set i: nat | i < |s| && s[i] as int > 0xFFFF
  }

  /** One more character adds one code unit, or two for a surrogate pair. */
  lemma {:induction false} Utf16LengthSnoc(s: string, c: char)
    ensures Utf16Length(s + [c]) == Utf16Length(s) + (if c as int > 0xFFFF then 2 else 1)
    decreases |s|
  {
    if s != [] {
      assert (s + [c])[1..] == s[1..] + [c];
      Utf16LengthSnoc(s[1..], c);
    }
  }

  /** The length JavaScript reports is the number of characters plus one for
      every character outside the Basic Multilingual Plane. */
  lemma {:induction false} Utf16LengthCountsAstral(s: string)
    ensures Utf16Length(s) == |s| + |AstralPositions(s)|
    decreases |s|
  {
    if s == [] {
      assert AstralPositions(s) == {};
    } else {
      var init, c := s[..|s| - 1], s[|s| - 1];
      assert s == init + [c];
      Utf16LengthSnoc(init, c);
      Utf16LengthCountsAstral(init);
      var extra: set<nat> := if c as int > 0xFFFF then {|init|} else {};
      assert AstralPositions(s) == AstralPositions(init) + extra;
      assert |init| !in AstralPositions(init);
    }
  }

  // ---------------------------------------------------------------------------
  // The score and its message

  function Point(b: bool): nat { if b then 1 else 0 }

  /** The stored strength of a password. */
  function Strength(pw: string): (r: nat)
    ensures r <= 5
    ensures pw == [] ==> r == 0
  {
    if Utf16Length(pw) == 0 then 0
    else
      var n := Utf16Length(pw);
      Point(n > 6) + Point(n > 10) + Point(Test(Upper, pw)) + Point(Test(Digit, pw)) + Point(Test(Symbol, pw))
  }

  /** The five criteria a non-empty password is scored against. */
  datatype Criterion = LongerThan6 | LongerThan10 | HasUpper | HasDigit | HasSymbol

  const AllCriteria: set<Criterion> := {LongerThan6, LongerThan10, HasUpper, HasDigit, HasSymbol}

  predicate Meets(pw: string, c: Criterion)
  {
    match c
    case LongerThan6 => Utf16Length(pw) > 6
    case LongerThan10 => Utf16Length(pw) > 10
    case HasUpper => exists i :: 0 <= i < |pw| && IsUpper(pw[i])
    case HasDigit => exists i :: 0 <= i < |pw| && IsDigit(pw[i])
    case HasSymbol => exists i :: 0 <= i < |pw| && IsSymbol(pw[i])
  }

  /** The criteria a password satisfies. */
  function Met(pw: string): set<Criterion>
  {
    set c | c in AllCriteria && Meets(pw, c)
  }

  /** The criteria picked out by five flags, in the scorer's order. */
  function Chosen(long6: bool, long10: bool, upper: bool, digit: bool, symbol: bool): set<Criterion>
  {
    (if long6 then {LongerThan6} else {})
      + (if long10 then {LongerThan10} else {})
      + (if upper then {HasUpper} else {})
      + (if digit then {HasDigit} else {})
      + (if symbol then {HasSymbol} else {})
  }

  /** `Met`, built one criterion at a time in the scorer's order. */
  function Accumulated(pw: string): set<Criterion>
  {
    var n := Utf16Length(pw);
    Chosen(n > 6, n > 10, Test(Upper, pw), Test(Digit, pw), Test(Symbol, pw))
  }

  lemma MetIsAccumulated(pw: string)
    ensures Met(pw) == Accumulated(pw)
  {
    forall c ensures c in Met(pw) <==> c in Accumulated(pw) {
      assert Meets(pw, c) <==> c in Accumulated(pw) by {
        match c
        case LongerThan6 =>
        case LongerThan10 =>
        case HasUpper =>
        case HasDigit =>
        case HasSymbol =>
      }
    }
  }

  /** Adding a criterion not yet counted adds its point. */
  lemma AddCriterion(s: set<Criterion>, c: Criterion, b: bool)
    requires c !in s
    ensures |s + (if b then {c} else {})| == |s| + Point(b)
  {
    if !b {
      assert s + {} == s;
    }
  }

  lemma ChosenSize(long6: bool, long10: bool, upper: bool, digit: bool, symbol: bool)
    ensures |Chosen(long6, long10, upper, digit, symbol)|
      == Point(long6) + Point(long10) + Point(upper) + Point(digit) + Point(symbol)
  {
    var s1: set<Criterion> := if long6 then {LongerThan6} else {};
    var s2 := s1 + if long10 then {LongerThan10} else {};
    var s3 := s2 + if upper then {HasUpper} else {};
    var s4 := s3 + if digit then {HasDigit} else {};
    AddCriterion(s1, LongerThan10, long10);
    assert HasUpper !in s2;
    AddCriterion(s2, HasUpper, upper);
    assert HasDigit !in s3;
    AddCriterion(s3, HasDigit, digit);
    assert HasSymbol !in s4;
    AddCriterion(s4, HasSymbol, symbol);
  }

  /** For a non-empty password the strength is the number of criteria it
      satisfies; the empty password scores 0 without any criterion looked at. */
  lemma StrengthCountsCriteria(pw: string)
    ensures pw != [] ==> Strength(pw) == |Met(pw)|
    ensures pw == [] ==> Strength(pw) == 0
  {
    if pw != [] {
      var n := Utf16Length(pw);
      MetIsAccumulated(pw);
      ChosenSize(n > 6, n > 10, Test(Upper, pw), Test(Digit, pw), Test(Symbol, pw));
    }
  }

  /** Length above 10 earns both length points, length up to 6 earns none. */
  lemma LengthBands(pw: string)
    ensures Utf16Length(pw) > 10 ==> LongerThan6 in Met(pw) && LongerThan10 in Met(pw)
    ensures Utf16Length(pw) <= 6 ==> LongerThan6 !in Met(pw) && LongerThan10 !in Met(pw)
  {
  }

  /** The label for a score. */
  function Rating(strength: int): (m: string)
    ensures m == "Weak" <==> strength < 2
    ensures m == "Medium" <==> 2 <= strength < 4
    ensures m == "Strong" <==> 4 <= strength
  {
    if strength < 2 then "Weak" else if strength < 4 then "Medium" else "Strong"
  }

  /** The stored message: empty for the empty password, otherwise exactly one
      of the three labels. */
  function Message(pw: string): (m: string)
    ensures pw == [] <==> m == ""
    ensures pw != [] ==> m in {"Weak", "Medium", "Strong"}
    ensures pw != [] ==> (m == "Weak" <==> Strength(pw) < 2)
    ensures pw != [] ==> (m == "Strong" <==> Strength(pw) >= 4)
  {
    if Utf16Length(pw) == 0 then "" else Rating(Strength(pw))
  }

  /** The scorer, with its running counter. */
  method CheckPasswordStrength(password: string) returns (strength: nat, message: string)
    ensures strength == Strength(password) && message == Message(password)
  {
    strength := 0;
    message := "";
    var length := Utf16Length(password);
    if length == 0 {
      return 0, "";
    }
    if length > 6 { strength := strength + 1; }
    if length > 10 { strength := strength + 1; }
    if Test(Upper, password) { strength := strength + 1; }
    if Test(Digit, password) { strength := strength + 1; }
    if Test(Symbol, password) { strength := strength + 1; }
    if strength < 2 {
      message := "Weak";
    } else if strength < 4 {
      message := "Medium";
    } else {
      message := "Strong";
    }
  }

  // ---------------------------------------------------------------------------
  // Colours

  /** The bar's colour; it uses the same thresholds as the label. */
  function StrengthColor(strength: int): (color: string)
    ensures color == "bg-red-500" <==> Rating(strength) == "Weak"
    ensures color == "bg-yellow-500" <==> Rating(strength) == "Medium"
    ensures color == "bg-green-500" <==> Rating(strength) == "Strong"
  {
    if strength < 2 then "bg-red-500" else if strength < 4 then "bg-yellow-500" else "bg-green-500"
  }

  /** The label's text colour, again on the label's thresholds. */
  function MessageColor(strength: int): (color: string)
    ensures color == "text-red-400" <==> Rating(strength) == "Weak"
    ensures color == "text-yellow-400" <==> Rating(strength) == "Medium"
    ensures color == "text-green-400" <==> Rating(strength) == "Strong"
  {
    if strength < 2 then "text-red-400" else if strength < 4 then "text-yellow-400" else "text-green-400"
  }

  // ---------------------------------------------------------------------------
  // Submitting the form

  /** What the two client-side checks decide. */
  datatype Verdict = Mismatch | TooWeak | Submit

  /** The match check runs first, the strength check second. */
  function Validate(password: string, confirmPassword: string, strength: int): (v: Verdict)
    ensures v == Submit <==> password == confirmPassword && strength >= 2
    ensures v == Mismatch <==> password != confirmPassword
    ensures v == TooWeak <==> password == confirmPassword && strength < 2
  {
    if password != confirmPassword then Mismatch
    else if strength < 2 then TooWeak
    else Submit
  }

  /** The sign-up call as issued to the backend. */
  datatype SignUpRequest = SignUpRequest(email: string, password: string, username: string)

  /** How the backend's sign-up call ends. */
  datatype SignUpReply = Accepted | Refused(error: string) | Threw

  /** How one submission ends. */
  datatype SignupOutcome = PasswordsDiffer | WeakPassword | Rejected(error: string) | Created | Crashed

  function Outcome(v: Verdict, reply: SignUpReply): (o: SignupOutcome)
    ensures o == Created <==> v == Submit && reply == Accepted
    ensures o.Rejected? <==> v == Submit && reply.Refused?
    ensures o.Rejected? ==> o.error == reply.error
    ensures o == Crashed <==> v == Submit && reply == Threw
    ensures o == PasswordsDiffer <==> v == Mismatch
    ensures o == WeakPassword <==> v == TooWeak
  {
    match v
    case Mismatch => PasswordsDiffer
    case TooWeak => WeakPassword
    case Submit =>
      match reply
      case Accepted => Created
      case Refused(error) => Rejected(error)
      case Threw => Crashed
  }

  /** The form's state fields, and the sign-up calls issued so far. */
  class SignupForm {
    var username: string
    var email: string
    var password: string
    var confirmPassword: string
    var loading: bool
    var passwordStrength: int
    var passwordMessage: string
    var requests: seq<SignUpRequest>

    /** The strength effect has run on the current password. */
    predicate Valid()
      reads this
    {
      passwordStrength == Strength(password) && passwordMessage == Message(password)
    }

    constructor ()
      ensures Valid()
      ensures username == "" && email == "" && password == "" && confirmPassword == ""
      ensures !loading && passwordStrength == 0 && passwordMessage == "" && requests == []
    {
      username, email, password, confirmPassword := "", "", "", "";
      loading := false;
      passwordStrength, passwordMessage := 0, "";
      requests := [];
    }

    method SetUsername(value: string)
      requires Valid()
      modifies this`username
      ensures Valid() && username == value
    {
      username := value;
    }

    method SetEmail(value: string)
      requires Valid()
      modifies this`email
      ensures Valid() && email == value
    {
      email := value;
    }

    method SetConfirmPassword(value: string)
      requires Valid()
      modifies this`confirmPassword
      ensures Valid() && confirmPassword == value
    {
      confirmPassword := value;
    }

    /** Typing a password, followed by the effect that scores it. */
    method SetPassword(value: string)
      modifies this`password, this`passwordStrength, this`passwordMessage
      ensures Valid() && password == value
    {
      password := value;
      passwordStrength, passwordMessage := CheckPasswordStrength(password);
    }

    /** Submitting. The request is issued only when the checks pass; a clean
        reply clears the four fields (and the strength effect then scores the
        empty password); a refusal or a throw leaves them, and loading ends
        false whenever a request was issued. */
    method HandleSignup(reply: SignUpReply) returns (outcome: SignupOutcome)
      requires Valid()
      modifies this
      ensures Valid()
      ensures outcome == Outcome(Validate(old(password), old(confirmPassword), old(passwordStrength)), reply)
      ensures Validate(old(password), old(confirmPassword), old(passwordStrength)) != Submit ==>
        unchanged(this)
      ensures Validate(old(password), old(confirmPassword), old(passwordStrength)) == Submit ==>
        && requests == old(requests) + [SignUpRequest(old(email), old(password), old(username))]
        && !loading
        && (reply == Accepted ==>
              username == "" && email == "" && password == "" && confirmPassword == "")
        && (reply != Accepted ==>
              username == old(username) && email == old(email) && password == old(password)
              && confirmPassword == old(confirmPassword))
    {
      if password != confirmPassword {
        return PasswordsDiffer;
      }
      if passwordStrength < 2 {
        return WeakPassword;
      }
      loading := true;
      requests := requests + [SignUpRequest(email, password, username)];
      match reply {
        case Refused(error) =>
          outcome := Rejected(error);
        case Threw =>
          outcome := Crashed;
        case Accepted =>
          outcome := Created;
          username := "";
          email := "";
          SetPassword("");
          confirmPassword := "";
      }
      loading := false;
    }
  }

  /** The browser's constraint validation, which runs before the submit
      handler: all four inputs are `required`, and the e-mail input is of type
      `email`, whose syntax check the browser performs (`emailWellFormed`). */
  predicate BrowserAccepts(username: string, email: string, password: string, confirmPassword: string,
                           emailWellFormed: bool)
    ensures BrowserAccepts(username, email, password, confirmPassword, emailWellFormed) <==>
      && emailWellFormed
      && Utf16Length(username) > 0 && Utf16Length(email) > 0
      && Utf16Length(password) > 0 && Utf16Length(confirmPassword) > 0
  {
    username != "" && email != "" && password != "" && confirmPassword != "" && emailWellFormed
  }

  /** Filling the form and pressing the button. The browser blocks the submit
      event for a form that fails its constraint validation; otherwise a
      sign-up request leaves the form only for matching passwords of strength
      at least 2, and then carries exactly the form's fields. */
  method SubmitOnce(username: string, email: string, password: string, confirmPassword: string,
                    emailWellFormed: bool, reply: SignUpReply)
    returns (issued: seq<SignUpRequest>, outcome: Option<SignupOutcome>)
    ensures |issued| <= 1
    ensures outcome.None? <==> !BrowserAccepts(username, email, password, confirmPassword, emailWellFormed)
    ensures |issued| == 1 <==>
      BrowserAccepts(username, email, password, confirmPassword, emailWellFormed)
      && password == confirmPassword && Strength(password) >= 2
    ensures |issued| == 1 ==> issued[0] == SignUpRequest(email, password, username)
    ensures outcome.Some? ==> outcome.value == Outcome(Validate(password, confirmPassword, Strength(password)), reply)
  {
    var form := new SignupForm();
    form.SetUsername(username);
    form.SetEmail(email);
    form.SetPassword(password);
    form.SetConfirmPassword(confirmPassword);
    if !BrowserAccepts(username, email, password, confirmPassword, emailWellFormed) {
      return [], None;
    }
    var result := form.HandleSignup(reply);
    issued, outcome := form.requests, Some(result);
  }
}
