# Registration form: a Dafny model

This project models the logic of a two-screen Android demo written in Kotlin
with Jetpack Compose. All of that logic is in `MainActivity.kt`. On the
registration screen, the user fills in a first name, a last name, an e-mail, a
password and a "terms & conditions" box. The "Create Account" button checks
that input. It then shows one of two short notifications, or moves to a profile
screen that greets the user with `"Welcome, <first> <last>, <email>"`.

The project has three modules:

- `Validation` (`validation.dfy`): `validateForm`, together with Kotlin's
  `String.contains` and `String.length`. `contains` is modelled as a substring
  search, and a lemma proves that searching for `"@"` means `'@'` occurs in
  the e-mail. `length` is modelled by `Utf16Length`, described below.
- `Registration` (`registration.dfy`): the six state variables of
  `RegisterScreen`, as the value `Form` and as the class `FormController`. The
  class's methods are the screen's callbacks. `Step` gives the effect of each
  user action on the form. `Decide` is the button's three-way decision. Every
  method of the class is proved to change its state exactly as `Step` says.
- `Navigation` (`navigation.dfy`): the profile screen's text, and a session
  seen as a sequence of user actions over the two screens. The lemmas prove
  that the names never exceed 30 code units. They also prove that the profile
  screen is reached only by a click on "Create Account". That click was made
  on a form that passed the check with the terms box ticked, and the profile
  screen holds that form's payload.

Strings are `seq<char>`, and a Dafny `char` is a Unicode scalar value.
Kotlin's `String.length` counts UTF-16 code units, where a character outside
the Basic Multilingual Plane (an emoji, say) counts as two. Both length limits
(MainActivity.kt:69, 82, 155) are therefore stated with `Utf16Length`, not
with `|s|`.

The route to the profile screen is built by plain interpolation, with no
encoding (MainActivity.kt:142). The model hands the payload over unchanged.

## Model

| member | source | states |
|---|---|---|
| `Validation.Utf16Length` | MainActivity.kt:155 | Kotlin's `length`: between the number of characters and twice that; equal to the number of characters exactly when none lies outside the Basic Multilingual Plane, and twice it exactly when all do |
| `Validation.Contains` | MainActivity.kt:155 | `email.contains("@")`: the result is true exactly when the searched text occurs as a contiguous block at some position of the string |
| `Validation.ContainsChar` | MainActivity.kt:155 | searching for a one-character string succeeds exactly when that character occurs in the string |
| `Validation.ValidateForm` | MainActivity.kt:154-156 | true exactly when the first name is non-empty, the e-mail contains `'@'` and the password has at least 6 UTF-16 code units; the last name is not an input |
| `Validation.SupplementaryPassword` | MainActivity.kt:155 | a password of three emoji (six code units) is accepted; one of three letters is not |
| `Validation.ValidateFormExamples` | MainActivity.kt:154-156 | empty first name, an e-mail without `@` and a 5-character password are each rejected; `("Jo", "a@b.com", "123456")` is accepted |
| `Registration.UserData` | MainActivity.kt:141 | the payload is three characters longer than the first name, last name and e-mail together |
| `Registration.UserDataParts` | MainActivity.kt:141 | the payload reads back as the first name, one space, the last name, `", "`, then the e-mail, each unaltered |
| `Registration.Step` | MainActivity.kt:68-126 | every user action keeps both names within 30 code units |
| `Registration.Decide` | MainActivity.kt:135-144 | a failed check gives `InvalidInput` whatever the terms box says; a passed check with the box unticked gives `TermsNotAccepted`; `Navigate(d)` is returned exactly when the check passes and the box is ticked, and then `d` is `firstName + " " + lastName + ", " + email` |
| `Registration.DecideExamples` | MainActivity.kt:135-144 | the sample form navigates with exactly `"Jo Doe, a@b.com"` when the box is ticked, is refused for the terms when it is not, and is refused as invalid input with a 5-character password even with the box ticked |
| `Registration.StepIdempotent` | MainActivity.kt:68-126 | repeating a field edit, the checkbox change or the button press leaves the form as doing it once did |
| `Registration.ToggleInvolution` | MainActivity.kt:113 | toggling password visibility twice restores the form, and a toggle never changes the button's outcome |
| `Registration.NameCapBoundary` | MainActivity.kt:68-83 | a first or last name of exactly 30 UTF-16 code units is taken; one of 31 leaves the whole form unchanged |
| `Registration.WideNameRejected` | MainActivity.kt:68-83 | a name of 16 characters outside the Basic Multilingual Plane is 32 code units, and an edit to it leaves the form unchanged |
| `Registration.UserDataAmbiguous` | MainActivity.kt:141 | two different forms (`"Ann Lee"`/`"Ray"` and `"Ann"`/`"Lee Ray"`) hand over the same payload text |
| `Registration.FormController.constructor` | MainActivity.kt:43-48 | all four text fields start empty and both flags start false; the name invariant holds |
| `Registration.FormController.OnFirstNameChange` | MainActivity.kt:68-70 | the first name becomes the new value exactly when it has at most 30 UTF-16 code units, otherwise it is kept; no other field may change; the name invariant is kept |
| `Registration.FormController.OnLastNameChange` | MainActivity.kt:81-83 | the last name becomes the new value exactly when it has at most 30 UTF-16 code units, otherwise it is kept; no other field may change; the name invariant is kept |
| `Registration.FormController.OnEmailChange` | MainActivity.kt:94 | the e-mail becomes the new value unconditionally; no other field may change |
| `Registration.FormController.OnPasswordChange` | MainActivity.kt:106 | the password becomes the new value unconditionally; no other field may change |
| `Registration.FormController.OnCheckedChange` | MainActivity.kt:126 | the terms flag takes the checkbox's new state; no other field may change |
| `Registration.FormController.OnVisibilityToggle` | MainActivity.kt:113 | only the visibility flag changes, to its negation; the button's outcome is the same before and after |
| `Registration.FormController.OnCreateAccountClick` | MainActivity.kt:135-144 | changes no field (the method has no `modifies`) and returns the outcome `Decide` gives for the current fields |
| `Navigation.ProfileText` | MainActivity.kt:167 | the text is `"Welcome, "` followed by the handed-over payload, unaltered |
| `Navigation.AppStep` | MainActivity.kt:135-142 | the profile screen ignores every action; on the registration screen an edit moves the form by `Step`, and a click moves to `Profile(UserData(f))` exactly when the form passes the check with the box ticked, otherwise nothing changes |
| `Navigation.AppRun` | MainActivity.kt:31-35 | a session from the profile screen never leaves it or changes its text (the graph has no route back); a session ending on the registration screen started there, and the name cap is kept throughout |
| `Navigation.ProfileComesFromClick` | MainActivity.kt:136-142 | from any registration form within the name cap, reaching the profile screen means some action `k` was a click, the form just before it was admitted (cap, check, box), and the profile screen holds exactly that form's payload |
| `Navigation.ProfileOnlyAfterAdmittedSubmission` | MainActivity.kt:136-142 | from the empty form, whatever the user does: a session ending on the registration screen keeps both names within the cap, and one ending on the profile screen holds the payload of the form submitted at an admitting click |
| `Navigation.SuccessfulRegistration` | MainActivity.kt:140-142 | typing `Jo`, `Doe`, `a@b.com`, `123456`, ticking the box and pressing the button reaches the profile screen with `"Jo Doe, a@b.com"`, shown as `"Welcome, Jo Doe, a@b.com"` |

## Left out

- The Compose layout and styling (columns, spacers, colours, font sizes, password masking): these are presentation only.
- The notifications (`Toast`) and `LocalContext`: a notification is modelled only by the `InvalidInput` and `TermsNotAccepted` outcomes. The message texts are recorded in a comment.
- `MainActivity.onCreate`, `NavHost` and `NavController.navigate`: these are framework navigation. The route `"profile/$userData"` is not encoded. A payload that contains `/` or `?` may therefore not reach the profile screen as it is. The model assumes the payload arrives unchanged.
- The system back button: the source defines no route back, so the model treats the profile screen as final. Returning to the registration screen is framework behaviour.
- The null case of `ProfileScreen`'s `userData: String?`: Kotlin would render it as the text `"null"`. Only the non-null text is modelled.
- Lone surrogates: a Kotlin string may hold an unpaired UTF-16 surrogate, but a Dafny string cannot. Such strings are not modelled. Every other string has the same length under `Utf16Length` as under Kotlin's `length`.
- Event scheduling on the UI thread: the logic has no concurrency. A session is modelled as a sequence of actions applied one at a time.
