/**
 * The sign-up page (frontend/src/pages/Register.jsx): the password-strength
 * meter, the registration schema and the terms-accepted guard on submit.
 */
module RegisterPage {
  import opened Text
  import opened Wrappers
  import AuthContext

  // ---------------------------------------------------------------------------
  // Password strength
  // ---------------------------------------------------------------------------

  datatype Criterion = LongEnough | HasDigit | HasSpecial | MixedCase

  predicate IsSpecial(c: char) {
    c == '!' || c == '@' || c == '#' || c == '$' || c == '%' || c == '^' || c == '&' || c == '*'
  }

  /** The four tests of the meter: length 8 or more, /\d/, /[!@#$%^&*]/, a lower- and an upper-case letter. */
  predicate Holds(pw: string, c: Criterion) {
    match c
    case LongEnough => |pw| >= 8
    case HasDigit => exists i :: 0 <= i < |pw| && IsDigit(pw[i])
    case HasSpecial => exists i :: 0 <= i < |pw| && IsSpecial(pw[i])
    case MixedCase =>
      (exists i :: 0 <= i < |pw| && IsLowerAscii(pw[i])) && (exists i :: 0 <= i < |pw| && IsUpperAscii(pw[i]))
  }

  /** The criteria in the order the meter tests them. */
  const Criteria: seq<Criterion> := [LongEnough, HasDigit, HasSpecial, MixedCase]

  /** How many of `cs` the password meets. */
  function CountMet(pw: string, cs: seq<Criterion>): nat {
    if |cs| == 0 then 0 else (if Holds(pw, cs[0]) then 1 else 0) + CountMet(pw, cs[1..])
  }

  /** The count is bounded by the number of criteria, and reaches it only when every one is met. */
  lemma {:induction false} CountMetBounds(pw: string, cs: seq<Criterion>)
    ensures CountMet(pw, cs) <= |cs|
    ensures CountMet(pw, cs) == |cs| <==> forall i :: 0 <= i < |cs| ==> Holds(pw, cs[i])
    ensures CountMet(pw, cs) == 0 <==> forall i :: 0 <= i < |cs| ==> !Holds(pw, cs[i])
    decreases |cs|
  {
    if |cs| > 0 {
      CountMetBounds(pw, cs[1..]);
      assert forall i :: 1 <= i < |cs| ==> cs[i] == cs[1..][i - 1];
    }
  }

  /** The empty password meets no criterion. */
  lemma EmptyMeetsNone(c: Criterion)
    ensures !Holds("", c)
  {
  }

  /** One criterion whose test is met raises the score by exactly one. */
  lemma CountMetCriteria(pw: string)
    ensures CountMet(pw, Criteria)
         == (if |pw| >= 8 then 1 else 0)
          + (if Holds(pw, HasDigit) then 1 else 0)
          + (if Holds(pw, HasSpecial) then 1 else 0)
          + (if Holds(pw, MixedCase) then 1 else 0)
  {
    var c1, c2, c3 := [HasDigit, HasSpecial, MixedCase], [HasSpecial, MixedCase], [MixedCase];
    assert Criteria[1..] == c1 && c1[1..] == c2 && c2[1..] == c3 && c3[1..] == [];
    assert CountMet(pw, c3) == (if Holds(pw, MixedCase) then 1 else 0);
    assert CountMet(pw, c2) == (if Holds(pw, HasSpecial) then 1 else 0) + CountMet(pw, c3);
    assert CountMet(pw, c1) == (if Holds(pw, HasDigit) then 1 else 0) + CountMet(pw, c2);
  }

  /** The label shown for a score. */
  function Label(score: nat): (l: string)
    ensures score == 0 ==> l == "Very Weak"
    ensures score == 1 ==> l == "Weak"
    ensures score == 2 ==> l == "Fair"
    ensures score == 3 ==> l == "Good"
    ensures score >= 4 ==> l == "Strong"
  {
    if score == 1 then "Weak"
    else if score == 2 then "Fair"
    else if score == 3 then "Good"
    else if score >= 4 then "Strong"
    else "Very Weak"
  }

  /** calculatePasswordStrength: one point per criterion met, then the label. */
  method CalculatePasswordStrength(pw: string) returns (score: nat, strengthLabel: string)
    ensures score == CountMet(pw, Criteria)
    ensures 0 <= score <= 4
    ensures strengthLabel == Label(score)
    ensures pw == "" ==> score == 0 && strengthLabel == "Very Weak"
  {
    CountMetCriteria(pw);
    CountMetBounds(pw, Criteria);
    score := 0;
    strengthLabel := "Very Weak";
    if pw == "" {
      forall i | 0 <= i < |Criteria| ensures !Holds(pw, Criteria[i]) { EmptyMeetsNone(Criteria[i]); }
      return 0, "Very Weak";
    }
    if |pw| >= 8 {
      score := score + 1;
    }
    if exists i :: 0 <= i < |pw| && IsDigit(pw[i]) {
      score := score + 1;
    }
    if exists i :: 0 <= i < |pw| && IsSpecial(pw[i]) {
      score := score + 1;
    }
    if (exists i :: 0 <= i < |pw| && IsLowerAscii(pw[i])) && (exists i :: 0 <= i < |pw| && IsUpperAscii(pw[i])) {
      score := score + 1;
    }
    if score == 1 {
      strengthLabel := "Weak";
    } else if score == 2 {
      strengthLabel := "Fair";
    } else if score == 3 {
      strengthLabel := "Good";
    } else if score >= 4 {
      strengthLabel := "Strong";
    }
  }

  /** A password meeting every criterion scores 4. */
  lemma StrongExample()
    ensures CountMet("Abcdef1!", Criteria) == 4
  {
    var pw := "Abcdef1!";
    assert IsDigit(pw[6]) && IsSpecial(pw[7]) && IsLowerAscii(pw[1]) && IsUpperAscii(pw[0]);
    CountMetCriteria(pw);
  }

  // ---------------------------------------------------------------------------
  // The registration schema
  // ---------------------------------------------------------------------------

  datatype SignUpForm = SignUpForm(name: string, email: string, password: string, confirmPassword: string, phone: string)

  datatype Field = Name | Email | Password | ConfirmPassword | Phone

  /** Whether the schema accepts one field; `isEmail` stands for yup's email() test. */
  predicate FieldOk(f: SignUpForm, isEmail: string -> bool, x: Field) {
    match x
    case Name => f.name != ""
    case Email => f.email != "" && isEmail(f.email)
    case Password => |f.password| >= 6
    case ConfirmPassword => f.confirmPassword != "" && f.confirmPassword == f.password
    case Phone => |f.phone| == 10 && AllDigits(f.phone)
  }

  const AllFields: set<Field> := {Name, Email, Password, ConfirmPassword, Phone}

  lemma AllFieldsComplete(x: Field)
    ensures x in AllFields
  {
  }

  /**
   * The fields the sign-up schema rejects. Same shape as Checkout.InvalidFields
   * over this form's own field enum: each page declares its own yup schema.
   */
  function InvalidFields(f: SignUpForm, isEmail: string -> bool): (bad: set<Field>)
    ensures forall x :: x in bad <==> !FieldOk(f, isEmail, x)
  {
    forall x ensures x in AllFields { AllFieldsComplete(x); }
    set x | x in AllFields && !FieldOk(f, isEmail, x)
  }

  predicate FormValid(f: SignUpForm, isEmail: string -> bool) {
    InvalidFields(f, isEmail) == {}
  }

  lemma FormValidIff(f: SignUpForm, isEmail: string -> bool)
    ensures FormValid(f, isEmail) <==>
      && f.name != "" && f.email != "" && isEmail(f.email)
      && |f.password| >= 6 && f.confirmPassword == f.password
      && |f.phone| == 10 && AllDigits(f.phone)
  {
    var bad := InvalidFields(f, isEmail);
    if FormValid(f, isEmail) {
      assert Name !in bad && Email !in bad && Password !in bad && ConfirmPassword !in bad && Phone !in bad;
    } else {
      var x :| x in bad;
      match x {
        case Name =>
        case Email =>
        case Password =>
        case ConfirmPassword =>
        case Phone =>
      }
    }
  }

  // ---------------------------------------------------------------------------
  // The page
  // ---------------------------------------------------------------------------

  const TermsError: string := "Please accept the terms and conditions"

  class RegisterView {
    var acceptedTerms: bool
    var error: string
    var loading: bool
    var score: nat
    var strengthLabel: string

    constructor ()
      ensures !acceptedTerms && error == "" && !loading && score == 0 && strengthLabel == ""
    {
      acceptedTerms := false;
      error := "";
      loading := false;
      score := 0;
      strengthLabel := "";
    }

    method SetAcceptedTerms(b: bool)
      modifies this
      ensures acceptedTerms == b
      ensures error == old(error) && loading == old(loading) && score == old(score) && strengthLabel == old(strengthLabel)
    {
      acceptedTerms := b;
    }

    /** The effect that re-rates the password whenever it changes. */
    method PasswordChanged(pw: string)
      modifies this
      ensures score == CountMet(pw, Criteria) && strengthLabel == Label(score)
      ensures acceptedTerms == old(acceptedTerms) && error == old(error) && loading == old(loading)
    {
      score, strengthLabel := CalculatePasswordStrength(pw);
    }

    /**
     * handleSubmit(onSubmit): an invalid form reaches no handler; without the
     * terms accepted the error is set and nobody is signed up; otherwise the
     * user is registered (`n` is the random draw behind the new id).
     */
    method Submit(auth: AuthContext.AuthProvider, data: SignUpForm, isEmail: string -> bool, n: nat)
      returns (signedUp: bool)
      requires n < 1000
      modifies this, auth, auth.storage
      ensures signedUp <==> FormValid(data, isEmail) && old(acceptedTerms)
      ensures FormValid(data, isEmail) && !acceptedTerms ==> error == TermsError
      ensures !signedUp ==>
        auth.currentUser == old(auth.currentUser) && auth.storage.entries == old(auth.storage.entries)
      ensures signedUp ==>
        && auth.currentUser == Some(AuthContext.RegisterIdentity(data.email, data.name, n))
        && auth.storage.entries
           == old(auth.storage.entries)[AuthContext.UserKey := AuthContext.Serialize(auth.currentUser.value)]
        && error == "" && !loading
      ensures !FormValid(data, isEmail) ==> error == old(error) && loading == old(loading)
      ensures !signedUp ==> loading == old(loading)
      ensures acceptedTerms == old(acceptedTerms) && score == old(score) && strengthLabel == old(strengthLabel)
    {
      if !FormValid(data, isEmail) {
        return false;
      }
      if !acceptedTerms {
        error := TermsError;
        return false;
      }
      error := "";
      loading := true;
      var u := auth.Register(data.email, data.name, n);
      loading := false;
      return true;
    }
  }
}
