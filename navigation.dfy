/** The hand-off from the registration screen to the profile screen
    (the navigation graph and `ProfileScreen` in MainActivity.kt).

    The route string is passed on as it is: the payload reaches the profile
    screen unchanged.
 */
module Navigation {
  import opened Validation
  import opened Registration

  /** What the profile screen puts in front of the handed-over text. */
  const WelcomePrefix: string := "Welcome, "

  /** `ProfileScreen`'s text: the greeting followed by the payload, untouched. */
  function ProfileText(userData: string): (t: string)
    ensures |t| == |WelcomePrefix| + |userData|
    ensures t[..|WelcomePrefix|] == WelcomePrefix
    ensures t[|WelcomePrefix|..] == userData
  {
    WelcomePrefix + userData
  }

  /** The two screens: registration (with its form) and the profile screen
      (with the text it was handed). */
  datatype Screen = Register(form: Form) | Profile(userData: string)

  /** One user action. On the registration screen the form reacts and a
      successful submission moves to the profile screen with the submitted
      form's payload; the profile screen has no way back. */
  function AppStep(s: Screen, e: Event): (r: Screen)
    ensures s.Profile? ==> r == s
    ensures s.Register? && !e.CreateAccountClick? ==> r == Register(Step(s.form, e))
    ensures s.Register? && e.CreateAccountClick? ==>
      r == if s.form.Passes() && s.form.isChecked then Profile(UserData(s.form)) else s
  {
    match s
    case Register(f) =>
      if e.CreateAccountClick? then
        match Decide(f)
        case Navigate(d) => Profile(d)
        case _ => s
      else Register(Step(f, e))
    case Profile(_) => s
  }

  /** A session: the actions in order. The profile screen, once reached, is
      never left nor changed; a session that ends on the registration screen
      started there and kept the name cap. */
  function AppRun(s: Screen, es: seq<Event>): (r: Screen)
    ensures s.Profile? ==> r == s
    ensures r.Register? ==> s.Register? && (s.form.Valid() ==> r.form.Valid())
    decreases |es|
  {
    if es == [] then s else AppRun(AppStep(s, es[0]), es[1..])
  }

  /** A form that the button lets through: names within the cap, input check
      passed, terms accepted. */
  predicate Admitted(f: Form) {
    f.Valid() && f.Passes() && f.isChecked
  }

  /** Action `k` of the session `es` from `s` is a click on "Create Account",
      made while the registration screen held an admitted form whose payload
      is `d`. */
  ghost predicate SubmittedAt(s: Screen, es: seq<Event>, k: nat, d: string) {
    k < |es| && es[k] == CreateAccountClick &&
    var before := AppRun(s, es[..k]);
    before.Register? && Admitted(before.form) && d == UserData(before.form)
  }

  /** A session that starts on a registration screen within the name cap and
      ends on the profile screen got there through a click whose form was
      admitted, and the profile screen holds that very form's payload. */
  lemma {:induction false} ProfileComesFromClick(f: Form, es: seq<Event>)
    requires f.Valid()
    ensures AppRun(Register(f), es).Profile? ==>
      exists k :: SubmittedAt(Register(f), es, k, AppRun(Register(f), es).userData)
    decreases |es|
  {
    if es != [] && AppRun(Register(f), es).Profile? {
      var s := Register(f);
      var next := AppStep(s, es[0]);
      var d := AppRun(s, es).userData;
      if next.Profile? {
        assert AppRun(s, es) == next;
        assert es[..0] == [];
        assert SubmittedAt(s, es, 0, d);
      } else {
        ProfileComesFromClick(next.form, es[1..]);
        var k: nat :| SubmittedAt(next, es[1..], k, d);
        assert es[..k + 1][0] == es[0] && es[..k + 1][1..] == es[1..][..k];
        assert AppRun(s, es[..k + 1]) == AppRun(next, es[1..][..k]);
        assert SubmittedAt(s, es, k + 1, d);
      }
    }
  }

  /** From the empty form, whatever the user does: the names stay within the
      cap, and reaching the profile screen means the user pressed
      "Create Account" on an admitted form, whose
      `"$firstName $lastName, $email"` is what the profile screen holds. */
  lemma ProfileOnlyAfterAdmittedSubmission(es: seq<Event>)
    ensures AppRun(Register(Initial), es).Register? ==> AppRun(Register(Initial), es).form.Valid()
    ensures AppRun(Register(Initial), es).Profile? ==>
      exists k :: SubmittedAt(Register(Initial), es, k, AppRun(Register(Initial), es).userData)
  {
    ProfileComesFromClick(Initial, es);
  }

  /** Filling the form in and pressing the button reaches the profile screen,
      which greets the user with the submitted names and e-mail. */
  lemma SuccessfulRegistration()
    ensures AppRun(Register(Initial), [
      FirstNameChange("Jo"), LastNameChange("Doe"), EmailChange("a@b.com"),
      PasswordChange("123456"), CheckedChange(true), CreateAccountClick])
      == Profile("Jo Doe, a@b.com")
    ensures ProfileText("Jo Doe, a@b.com") == "Welcome, Jo Doe, a@b.com"
  {
    SampleGreeting();
    var es := [FirstNameChange("Jo"), LastNameChange("Doe"), EmailChange("a@b.com"),
               PasswordChange("123456"), CheckedChange(true), CreateAccountClick];
    var f1 := Form("Jo", "", "", "", false, false);
    var f2 := Form("Jo", "Doe", "", "", false, false);
    var f3 := Form("Jo", "Doe", "a@b.com", "", false, false);
    var f4 := Form("Jo", "Doe", "a@b.com", "123456", false, false);
    var f5 := Form("Jo", "Doe", "a@b.com", "123456", false, true);
    var p := Profile("Jo Doe, a@b.com");
    assert AppRun(Register(Initial), es) == AppRun(Register(f1), es[1..]);
    assert AppRun(Register(f1), es[1..]) == AppRun(Register(f2), es[2..]) by {
      assert es[1..][0] == LastNameChange("Doe") && es[1..][1..] == es[2..];
    }
    assert AppRun(Register(f2), es[2..]) == AppRun(Register(f3), es[3..]) by {
      assert es[2..][0] == EmailChange("a@b.com") && es[2..][1..] == es[3..];
    }
    assert AppRun(Register(f3), es[3..]) == AppRun(Register(f4), es[4..]) by {
      assert es[3..][0] == PasswordChange("123456") && es[3..][1..] == es[4..];
    }
    assert AppRun(Register(f4), es[4..]) == AppRun(Register(f5), es[5..]) by {
      assert es[4..][0] == CheckedChange(true) && es[4..][1..] == es[5..];
    }
    assert AppRun(Register(f5), es[5..]) == p by {
      DecideExamples();
      assert es[5..][0] == CreateAccountClick && es[5..][1..] == [];
    }
  }

  /** The greeting for the sample payload, spelled out. */
  lemma SampleGreeting()
    ensures ProfileText("Jo Doe, a@b.com") == "Welcome, Jo Doe, a@b.com"
  {
  }
}
