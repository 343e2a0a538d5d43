/** The sign-up page's client-side logic: the password strength meter and
    the form validation that runs before the store's signup action. */
module SignUp {

  // ---------------------------------------------------------------------
  // Character classes

  /** ECMAScript WhiteSpace and LineTerminator: the characters that
      `String.prototype.trim` strips and that `\s` matches in a regular
      expression. */
  predicate IsSpace(c: char)
  {
    var n := c as int;
    n == 0x09 || n == 0x0A || n == 0x0B || n == 0x0C || n == 0x0D || n == 0x20 ||
    n == 0xA0 || n == 0x1680 || (0x2000 <= n <= 0x200A) || n == 0x2028 || n == 0x2029 ||
    n == 0x202F || n == 0x205F || n == 0x3000 || n == 0xFEFF
  }

  predicate IsAsciiUpper(c: char) { 'A' <= c <= 'Z' }

  predicate IsAsciiLower(c: char) { 'a' <= c <= 'z' }

  predicate IsDigit(c: char) { '0' <= c <= '9' }

  predicate IsAsciiAlnum(c: char) { IsAsciiUpper(c) || IsAsciiLower(c) || IsDigit(c) }

  // ---------------------------------------------------------------------
  // Password strength

  /** `/[A-Z]/.test(pw)` */
  predicate HasUpper(pw: string) { exists i | 0 <= i < |pw| :: IsAsciiUpper(pw[i]) }

  /** `/[0-9]/.test(pw)` */
  predicate HasDigit(pw: string) { exists i | 0 <= i < |pw| :: IsDigit(pw[i]) }

  /** `/[^A-Za-z0-9]/.test(pw)` */
  predicate HasSymbol(pw: string) { exists i | 0 <= i < |pw| :: !IsAsciiAlnum(pw[i]) }

  /** The five criteria the meter awards a point for, in the order they are checked. */
  function Criteria(pw: string): seq<bool>
  {
    [|pw| >= 6, |pw| >= 10, HasUpper(pw), HasDigit(pw), HasSymbol(pw)]
  }

  /** One point for a criterion that holds. */
  function Point(b: bool): nat { if b then 1 else 0 }

  /** The number of criteria that hold. */
  function CountTrue(bs: seq<bool>): (n: nat)
    ensures n <= |bs|
    ensures n == 0 <==> forall i :: 0 <= i < |bs| ==> !bs[i]
    ensures n == |bs| <==> forall i :: 0 <= i < |bs| ==> bs[i]
  {
    if bs == [] then 0 else Point(bs[0]) + CountTrue(bs[1..])
  }

  /** Five criteria score one point each. */
  lemma CountFive(a: bool, b: bool, c: bool, d: bool, e: bool)
    ensures CountTrue([a, b, c, d, e]) == Point(a) + Point(b) + Point(c) + Point(d) + Point(e)
  {
    CountCons(e, []);
    CountCons(d, [e]);
    CountCons(c, [d, e]);
    CountCons(b, [c, d, e]);
    CountCons(a, [b, c, d, e]);
  }

  lemma CountCons(b: bool, rest: seq<bool>)
    ensures CountTrue([b] + rest) == Point(b) + CountTrue(rest)
  {
    assert ([b] + rest)[1..] == rest;
  }

  /** The strength of a password: how many of its five criteria hold. */
  function Strength(pw: string): (s: nat)
    ensures s <= 5
  {
    CountTrue(Criteria(pw))
  }

  /** `getPasswordStrength`: one increment per criterion that holds. */
  method PasswordStrength(pw: string) returns (s: nat)
    ensures s == Strength(pw)
    ensures s <= 5
  {
    s := 0;
    if |pw| >= 6 { s := s + 1; }
    if |pw| >= 10 { s := s + 1; }
    if HasUpper(pw) { s := s + 1; }
    if HasDigit(pw) { s := s + 1; }
    if HasSymbol(pw) { s := s + 1; }
    CountFive(|pw| >= 6, |pw| >= 10, HasUpper(pw), HasDigit(pw), HasSymbol(pw));
  }

  /** A password scores nothing exactly when it is shorter than six
      characters and made of lower-case ASCII letters only. */
  lemma ZeroStrengthIff(pw: string)
    ensures Strength(pw) == 0 <==> |pw| < 6 && forall i :: 0 <= i < |pw| ==> IsAsciiLower(pw[i])
  {
    var c := Criteria(pw);
    assert Strength(pw) == 0 <==> !c[0] && !c[1] && !c[2] && !c[3] && !c[4];
    if |pw| < 6 && forall i :: 0 <= i < |pw| ==> IsAsciiLower(pw[i]) {
      assert !HasUpper(pw) && !HasDigit(pw) && !HasSymbol(pw);
    }
    if Strength(pw) == 0 {
      forall i | 0 <= i < |pw| ensures IsAsciiLower(pw[i]) {
        assert !IsAsciiUpper(pw[i]) && !IsDigit(pw[i]) && IsAsciiAlnum(pw[i]);
      }
    }
  }

  lemma EmptyPasswordScoresZero()
    ensures Strength("") == 0
  {
    ZeroStrengthIff("");
  }

  /** Any password of ten or more characters earns both length points. */
  lemma LongPasswordScoresAtLeastTwo(pw: string)
    requires |pw| >= 10
    ensures Strength(pw) >= 2
  {
    CountFive(true, true, HasUpper(pw), HasDigit(pw), HasSymbol(pw));
  }

  const StrengthLabels: seq<string> := ["", "Weak", "Fair", "Good", "Strong", "Excellent"]

  const StrengthColors: seq<string> := ["", "bg-destructive", "bg-warning", "bg-warning", "bg-success", "bg-success"]

  /** Both lookup tables have an entry for every score. */
  lemma MeterLookupsInBounds(pw: string)
    ensures Strength(pw) < |StrengthLabels| && Strength(pw) < |StrengthColors|
  {
  }

  /** The label shown beside the meter: empty exactly when the score is 0,
      "Excellent" exactly when all five criteria hold. */
  function StrengthLabel(pw: string): (text: string)
    ensures text == "" <==> Strength(pw) == 0
    ensures text == "Excellent" <==> Strength(pw) == 5
  {
    StrengthLabels[Strength(pw)]
  }

  /** The class of meter segment `i` (1 to 5): the first `strength` segments
      take the colour of the score, the rest stay unlit. */
  function SegmentColor(pw: string, i: int): (color: string)
    requires 1 <= i <= 5
    ensures color == "bg-secondary" <==> i > Strength(pw)
    ensures i <= Strength(pw) ==> color == StrengthColors[Strength(pw)] && color != ""
  {
    if i <= Strength(pw) then StrengthColors[Strength(pw)] else "bg-secondary"
  }

  // ---------------------------------------------------------------------
  // Trimming

  function TrimStart(s: string): (r: string)
    ensures |r| <= |s| && r == s[|s| - |r|..]
    ensures forall i :: 0 <= i < |s| - |r| ==> IsSpace(s[i])
    ensures r != [] ==> !IsSpace(r[0])
  {
    if s != [] && IsSpace(s[0]) then TrimStart(s[1..]) else s
  }

  function TrimEnd(s: string): (r: string)
    ensures |r| <= |s| && r == s[..|r|]
    ensures forall i :: |r| <= i < |s| ==> IsSpace(s[i])
    ensures r != [] ==> !IsSpace(r[|r| - 1])
  {
    if s != [] && IsSpace(s[|s| - 1]) then TrimEnd(s[..|s| - 1]) else s
  }

  /** `String.prototype.trim` */
  function Trim(s: string): string
  {
    TrimEnd(TrimStart(s))
  }

  /** A string trims to nothing exactly when every character is whitespace. */
  lemma TrimEmptyIff(s: string)
    ensures Trim(s) == "" <==> forall i :: 0 <= i < |s| ==> IsSpace(s[i])
  {
    var t := TrimStart(s);
    if Trim(s) == "" {
      assert t == [];
    }
  }

  // ---------------------------------------------------------------------
  // Email pattern

  /** `[^\s@]+` without the length: no whitespace and no '@'. */
  predicate EmailPart(t: string)
  {
    forall k | 0 <= k < |t| :: !IsSpace(t[k]) && t[k] != '@'
  }

  /** The '@' at index i and the '.' at index j split `s` into three
      non-empty parts without whitespace or '@'. */
  predicate SplitsAt(s: string, i: int, j: int)
  {
    0 < i < |s| && i + 1 < j < |s| - 1 &&
    s[i] == '@' && s[j] == '.' && EmailPart(s[..i]) && EmailPart(s[i + 1..j]) && EmailPart(s[j + 1..])
  }

  /** `/^[^\s@]+@[^\s@]+\.[^\s@]+$/.test(s)`: some '@' and some later '.'
      split the string that way. */
  predicate MatchesEmailPattern(s: string)
  {
    exists i, j | 0 < i < |s| && i + 1 < j < |s| - 1 :: SplitsAt(s, i, j)
  }

  /** No whitespace anywhere, exactly one '@', at least one character
      before it, and after it a '.' with text on both sides. */
  ghost predicate EmailShape(s: string)
  {
    (forall k | 0 <= k < |s| :: !IsSpace(s[k])) &&
    exists a | 0 < a < |s| ::
      s[a] == '@' && (forall k | 0 <= k < |s| && s[k] == '@' :: k == a) &&
      exists d | a + 1 < d < |s| - 1 :: s[d] == '.'
  }

  lemma EmailPartAt(s: string, lo: int, hi: int, k: int)
    requires 0 <= lo <= k < hi <= |s| && EmailPart(s[lo..hi])
    ensures !IsSpace(s[k]) && s[k] != '@'
  {
    assert s[k] == s[lo..hi][k - lo];
  }

  lemma AcceptedEmailHasShape(s: string)
    requires MatchesEmailPattern(s)
    ensures EmailShape(s)
  {
    var i, j :| 0 < i < |s| && i + 1 < j < |s| - 1 && SplitsAt(s, i, j);
    assert s[i] == '@' && s[j] == '.';
    assert EmailPart(s[..i]) && EmailPart(s[i + 1..j]) && EmailPart(s[j + 1..]);
    forall k | 0 <= k < |s| ensures !IsSpace(s[k]) && (s[k] == '@' ==> k == i) {
      if k < i {
        EmailPartAt(s, 0, i, k);
      } else if i < k < j {
        EmailPartAt(s, i + 1, j, k);
      } else if j < k {
        EmailPartAt(s, j + 1, |s|, k);
      }
    }
  }

  lemma EmailShapeIsAccepted(s: string)
    requires EmailShape(s)
    ensures MatchesEmailPattern(s)
  {
    var a :| 0 < a < |s| && s[a] == '@' && (forall k | 0 <= k < |s| && s[k] == '@' :: k == a) &&
      exists d | a + 1 < d < |s| - 1 :: s[d] == '.';
    var d :| a + 1 < d < |s| - 1 && s[d] == '.';
    assert EmailPart(s[..a]);
    assert EmailPart(s[a + 1..d]);
    assert EmailPart(s[d + 1..]);
    assert SplitsAt(s, a, d);
  }

  /** The pattern accepts exactly the strings of that shape. */
  lemma EmailShapeIff(s: string)
    ensures MatchesEmailPattern(s) <==> EmailShape(s)
  {
    if MatchesEmailPattern(s) {
      AcceptedEmailHasShape(s);
    }
    if EmailShape(s) {
      EmailShapeIsAccepted(s);
    }
  }

  // ---------------------------------------------------------------------
  // Form validation

  const NameRequired := "Name is required"
  const InvalidEmail := "Invalid email"
  const InvalidPhone := "Invalid phone number"
  const MinSixCharacters := "Min 6 characters"
  const PasswordsDontMatch := "Passwords don't match"

  /** The form always holds the five field keys. */
  predicate HasFields(form: map<string, string>)
  {
    "name" in form && "email" in form && "phone" in form && "password" in form && "confirm" in form
  }

  /** The five field rules together. */
  predicate FormValid(form: map<string, string>)
    requires HasFields(form)
  {
    Trim(form["name"]) != "" &&
    MatchesEmailPattern(form["email"]) &&
    |form["phone"]| >= 7 &&
    |form["password"]| >= 6 &&
    form["password"] == form["confirm"]
  }

  /** Which of the five field rules fail. */
  datatype Failures = Failures(name: bool, email: bool, phone: bool, password: bool, confirm: bool)

  function FailuresOf(form: map<string, string>): Failures
    requires HasFields(form)
  {
    Failures(Trim(form["name"]) == "",
             !MatchesEmailPattern(form["email"]),
             |form["phone"]| < 7,
             |form["password"]| < 6,
             form["password"] != form["confirm"])
  }

  /** `errors` has an entry for exactly the failing rules, each with that
      rule's message, and nothing else. */
  ghost predicate ErrorsFor(f: Failures, errors: map<string, string>)
  {
    errors.Keys <= {"name", "email", "phone", "password", "confirm"} &&
    ("name" in errors <==> f.name) &&
    ("email" in errors <==> f.email) &&
    ("phone" in errors <==> f.phone) &&
    ("password" in errors <==> f.password) &&
    ("confirm" in errors <==> f.confirm) &&
    ("name" in errors ==> errors["name"] == NameRequired) &&
    ("email" in errors ==> errors["email"] == InvalidEmail) &&
    ("phone" in errors ==> errors["phone"] == InvalidPhone) &&
    ("password" in errors ==> errors["password"] == MinSixCharacters) &&
    ("confirm" in errors ==> errors["confirm"] == PasswordsDontMatch)
  }

  /** The outcome in which every rule passes. */
  const AllPass := Failures(false, false, false, false, false)

  /** A form is valid exactly when none of its rules fails. */
  lemma ValidIffAllPass(form: map<string, string>)
    requires HasFields(form)
    ensures FormValid(form) <==> FailuresOf(form) == AllPass
  {
  }

  /** An error map that fits the outcomes is empty exactly when every rule
      passes. */
  lemma NoErrorsIffAllPass(f: Failures, errors: map<string, string>)
    requires ErrorsFor(f, errors)
    ensures |errors| == 0 <==> f == AllPass
  {
    if |errors| == 0 {
      assert errors == map[];
    } else {
      var k :| k in errors;
    }
  }

  /** At most one error map fits a set of rule outcomes. */
  lemma ErrorsForUnique(f: Failures, e1: map<string, string>, e2: map<string, string>)
    requires ErrorsFor(f, e1) && ErrorsFor(f, e2)
    ensures e1 == e2
  {
    assert e1.Keys == e2.Keys;
  }

  /** The first half of `validate`: fill the error dictionary rule by rule
      from the outcomes of the five rules. It is empty exactly when every
      rule passes. */
  method ErrorsOf(f: Failures) returns (e: map<string, string>)
    ensures ErrorsFor(f, e)
    ensures |e| == 0 <==> f == AllPass
  {
    e := map[];
    if f.name { e := e["name" := NameRequired]; }
    if f.email { e := e["email" := InvalidEmail]; }
    if f.phone { e := e["phone" := InvalidPhone]; }
    if f.password { e := e["password" := MinSixCharacters]; }
    if f.confirm { e := e["confirm" := PasswordsDontMatch]; }
    NoErrorsIffAllPass(f, e);
  }

  /** The form and error state of the sign-up page. */
  class SignUpForm {
    var form: map<string, string>
    var errors: map<string, string>

    ghost predicate Valid()
      reads this
    {
      HasFields(form)
    }

    constructor ()
      ensures Valid() && errors == map[]
      ensures form == map["name" := "", "email" := "", "phone" := "", "password" := "", "confirm" := ""]
    {
      form := map["name" := "", "email" := "", "phone" := "", "password" := "", "confirm" := ""];
      errors := map[];
    }

    /** Sets one form field and drops that field's error; every other key of
        both maps is left as it was. */
    method Update(key: string, value: string)
      requires Valid()
      modifies this
      ensures Valid()
      ensures form == old(form)[key := value] && errors == old(errors) - {key}
      ensures forall k :: k != key ==> (k in form <==> k in old(form)) && (k in form ==> form[k] == old(form)[k])
      ensures forall k :: k != key ==> (k in errors <==> k in old(errors)) && (k in errors ==> errors[k] == old(errors)[k])
    {
      form := form[key := value];
      errors := errors - {key};
    }

    /** `validate`: replace the errors with those of the current form and
        report whether there are none. */
    method Validate() returns (ok: bool)
      requires Valid()
      modifies this`errors
      ensures Valid() && ErrorsFor(FailuresOf(form), errors)
      ensures ok <==> |errors| == 0
      ensures ok <==> FormValid(form)
    {
      errors := ErrorsOf(FailuresOf(form));
      ValidIffAllPass(form);
      ok := |errors| == 0;
    }
  }
}
