/** The state of the registration screen (`RegisterScreen` in MainActivity.kt),
    the callbacks that change it and the decision taken when the
    "Create Account" button is pressed.

    `Form` and `Step` are the value-level description of the screen; the class
    `FormController` holds the same six fields as mutable state, as the
    screen's `remember`ed variables do, and each of its methods is proved to
    move that state exactly as `Step` says.
 */
module Registration {
  import opened Validation

  /** First and last name edits longer than this many UTF-16 code units are
      ignored. */
  const MaxNameLength: nat := 30

  /** The six state variables of the screen. */
  datatype Form = Form(
    firstName: string,
    lastName: string,
    email: string,
    password: string,
    isPasswordVisible: bool,
    isChecked: bool)
  {
    /** What every reachable form satisfies: both names within the cap. */
    predicate Valid() {
      Utf16Length(firstName) <= MaxNameLength && Utf16Length(lastName) <= MaxNameLength
    }

    /** The input check applied to this form's fields. */
    predicate Passes() {
      ValidateForm(firstName, email, password)
    }
  }

  /** Every field starts empty or false. */
  const Initial: Form := Form("", "", "", "", false, false)

  /** The user actions the screen reacts to, one per callback. */
  datatype Event =
    | FirstNameChange(value: string)
    | LastNameChange(value: string)
    | EmailChange(value: string)
    | PasswordChange(value: string)
    | CheckedChange(checked: bool)
    | VisibilityToggle
    | CreateAccountClick

  /** What pressing "Create Account" leads to. The two failures are shown as
      short notifications ("Invalid input, check again!" and "Please agree to
      the terms & conditions"); the success navigates to the profile screen
      with `userData`. */
  datatype Outcome = InvalidInput | TermsNotAccepted | Navigate(userData: string)

  /** The text handed to the profile screen: `"$firstName $lastName, $email"`. */
  function UserData(f: Form): (d: string)
    ensures |d| == |f.firstName| + |f.lastName| + |f.email| + 3
  {
    f.firstName + " " + f.lastName + ", " + f.email
  }

  /** The screen state after one user action. */
  function Step(f: Form, e: Event): (g: Form)
    ensures f.Valid() ==> g.Valid()
  {
    match e
    case FirstNameChange(v) => if Utf16Length(v) <= MaxNameLength then f.(firstName := v) else f
    case LastNameChange(v) => if Utf16Length(v) <= MaxNameLength then f.(lastName := v) else f
    case EmailChange(v) => f.(email := v)
    case PasswordChange(v) => f.(password := v)
    case CheckedChange(b) => f.(isChecked := b)
    case VisibilityToggle => f.(isPasswordVisible := !f.isPasswordVisible)
    case CreateAccountClick => f
  }

  /** The button's decision: the input check comes first, the terms box second. */
  function Decide(f: Form): (o: Outcome)
    ensures !f.Passes() ==> o == InvalidInput
    ensures f.Passes() && !f.isChecked ==> o == TermsNotAccepted
    ensures o.Navigate? <==> f.Passes() && f.isChecked
    ensures o.Navigate? ==> o.userData == f.firstName + " " + f.lastName + ", " + f.email
  {
    if !f.Passes() then InvalidInput
    else if !f.isChecked then TermsNotAccepted
    else Navigate(UserData(f))
  }

  /** The payload, read back: the first name, one space, the last name, a
      comma and a space, then the e-mail, each unaltered. */
  lemma UserDataParts(f: Form)
    ensures var d := UserData(f);
      var m := |f.firstName| + 1 + |f.lastName|;
      d[..|f.firstName|] == f.firstName && d[|f.firstName|] == ' ' &&
      d[|f.firstName| + 1..m] == f.lastName && d[m..m + 2] == ", " && d[m + 2..] == f.email
  {
  }

  /** Repeating any action other than the visibility toggle changes nothing
      more than doing it once. */
  lemma StepIdempotent(f: Form, e: Event)
    requires !e.VisibilityToggle?
    ensures Step(Step(f, e), e) == Step(f, e)
  {
  }

  /** The visibility toggle undoes itself and never affects what the button
      decides. */
  lemma ToggleInvolution(f: Form)
    ensures Step(Step(f, VisibilityToggle), VisibilityToggle) == f
    ensures Decide(Step(f, VisibilityToggle)) == Decide(f)
  {
  }

  /** A name edit of exactly 30 UTF-16 code units is taken, one of 31 is
      dropped. */
  lemma NameCapBoundary(f: Form, v30: string, v31: string)
    requires Utf16Length(v30) == MaxNameLength && Utf16Length(v31) == MaxNameLength + 1
    ensures Step(f, FirstNameChange(v30)).firstName == v30
    ensures Step(f, FirstNameChange(v31)) == f
    ensures Step(f, LastNameChange(v30)).lastName == v30
    ensures Step(f, LastNameChange(v31)) == f
  {
  }

  /** The filled-in sample form: with the box ticked it navigates with exactly
      `"Jo Doe, a@b.com"`, with the box unticked it is refused for the terms,
      and a five-character password is refused as invalid input. */
  lemma DecideExamples()
    ensures Decide(Form("Jo", "Doe", "a@b.com", "123456", false, true)) == Navigate("Jo Doe, a@b.com")
    ensures Decide(Form("Jo", "Doe", "a@b.com", "123456", true, false)) == TermsNotAccepted
    ensures Decide(Form("Jo", "Doe", "a@b.com", "12345", false, true)) == InvalidInput
  {
    ValidateFormExamples();
    SamplePayload();
  }

  /** The payload of the sample form, spelled out. */
  lemma SamplePayload()
    ensures UserData(Form("Jo", "Doe", "a@b.com", "123456", false, true)) == "Jo Doe, a@b.com"
  {
  }

  /** Sixteen characters outside the Basic Multilingual Plane are 32 UTF-16
      code units: such a name edit is dropped, though it has only 16 characters. */
  lemma WideNameRejected(f: Form, v: string)
    requires |v| == 16 && forall i :: 0 <= i < |v| ==> IsSupplementary(v[i])
    ensures Utf16Length(v) == 32
    ensures Step(f, FirstNameChange(v)) == f && Step(f, LastNameChange(v)) == f
  {
  }

  /** The payload loses where the first name ends and the last name begins:
      two different forms can hand over the same text. */
  lemma UserDataAmbiguous()
    ensures Form("Ann Lee", "Ray", "a@b.c", "123456", false, true) != Form("Ann", "Lee Ray", "a@b.c", "123456", false, true)
    ensures UserData(Form("Ann Lee", "Ray", "a@b.c", "123456", false, true)) == UserData(Form("Ann", "Lee Ray", "a@b.c", "123456", false, true))
  {
  }

  /** The registration screen's mutable state. */
  class FormController {
    var firstName: string
    var lastName: string
    var email: string
    var password: string
    var isPasswordVisible: bool
    var isChecked: bool

    /** The current field values as a `Form`. */
    function State(): (f: Form)
      reads this
    {
      Form(firstName, lastName, email, password, isPasswordVisible, isChecked)
    }

    /** Both names within the cap. */
    ghost predicate Valid()
      reads this
    {
      State().Valid()
    }

    /** The screen opens with every field empty or false. */
    constructor ()
      ensures Valid()
      ensures State() == Initial
    {
      firstName, lastName, email, password := "", "", "", "";
      isPasswordVisible, isChecked := false, false;
    }

    /** First name field edit: taken only when it has at most 30 code units. */
    method OnFirstNameChange(value: string)
      requires Valid()
      modifies this`firstName
      ensures Valid()
      ensures firstName == if Utf16Length(value) <= MaxNameLength then value else old(firstName)
      ensures State() == Step(old(State()), FirstNameChange(value))
    {
      if Utf16Length(value) <= MaxNameLength {
        firstName := value;
      }
    }

    /** Last name field edit: taken only when it has at most 30 code units. */
    method OnLastNameChange(value: string)
      requires Valid()
      modifies this`lastName
      ensures Valid()
      ensures lastName == if Utf16Length(value) <= MaxNameLength then value else old(lastName)
      ensures State() == Step(old(State()), LastNameChange(value))
    {
      if Utf16Length(value) <= MaxNameLength {
        lastName := value;
      }
    }

    /** E-mail field edit: always taken. */
    method OnEmailChange(value: string)
      requires Valid()
      modifies this`email
      ensures Valid()
      ensures email == value
      ensures State() == Step(old(State()), EmailChange(value))
    {
      email := value;
    }

    /** Password field edit: always taken. */
    method OnPasswordChange(value: string)
      requires Valid()
      modifies this`password
      ensures Valid()
      ensures password == value
      ensures State() == Step(old(State()), PasswordChange(value))
    {
      password := value;
    }

    /** Terms checkbox: takes the box's new state. */
    method OnCheckedChange(checked: bool)
      requires Valid()
      modifies this`isChecked
      ensures Valid()
      ensures isChecked == checked
      ensures State() == Step(old(State()), CheckedChange(checked))
    {
      isChecked := checked;
    }

    /** The eye icon: flips whether the password is shown. */
    method OnVisibilityToggle()
      requires Valid()
      modifies this`isPasswordVisible
      ensures Valid()
      ensures isPasswordVisible == !old(isPasswordVisible)
      ensures State() == Step(old(State()), VisibilityToggle)
      ensures Decide(State()) == Decide(old(State()))
    {
      isPasswordVisible := !isPasswordVisible;
    }

    /** The "Create Account" button: changes no field and reports the outcome.
        The body keeps the button's own `if`/`else if` chain; `Decide` is its
        specification. */
    method OnCreateAccountClick() returns (o: Outcome)
      ensures o == Decide(State())
    {
      if !ValidateForm(firstName, email, password) {
        o := InvalidInput;
      } else if !isChecked {
        o := TermsNotAccepted;
      } else {
        o := Navigate(UserData(State()));
      }
    }
  }
}
