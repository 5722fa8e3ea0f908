/**
 * The form state of the `Signup` page (src/pages/Signup.tsx) and its submit
 * handler: validate the password, call the store's signup, report the error
 * or go to "/".
 */
module SignupPage {
  import opened Base
  import opened Roles
  import Auth

  const PasswordTooShort := "Password must be at least 6 characters long"
  const MinPasswordLength := 6

  /** The form's fields and feedback; `navigatedTo` records the `navigate` call. */
  class SignupForm {
    var email: string
    var password: string
    var name: string
    var role: Role
    var isSubmitting: bool
    var formError: Option<string>
    var navigatedTo: Option<string>

    /** An empty form, "customer" preselected. */
    constructor ()
      ensures email == "" && password == "" && name == "" && role == Customer
      ensures !isSubmitting && formError == None && navigatedTo == None
    {
      email := "";
      password := "";
      name := "";
      role := Customer;
      isSubmitting := false;
      formError := None;
      navigatedTo := None;
    }

    /**
     * `handleSubmit`: a password under six characters is refused before the
     * store is asked; otherwise a failed signup shows its message and a
     * successful one navigates to "/". Submission always ends.
     */
    method HandleSubmit(store: Auth.AuthStore)
      modifies this, store
      ensures !isSubmitting
      ensures email == old(email) && password == old(password) && name == old(name) && role == old(role)
      ensures |password| < MinPasswordLength ==>
                formError == Some(PasswordTooShort) && navigatedTo == old(navigatedTo) &&
                store.users == old(store.users) && store.user == old(store.user) &&
                store.isLoading == old(store.isLoading)
      ensures |password| >= MinPasswordLength ==>
                store.users == (if Auth.FindByEmail(old(store.users), email).Some? then old(store.users)
                                else old(store.users) + [Auth.NewUser(|old(store.users)|, email, name, role)])
      ensures |password| >= MinPasswordLength ==> !store.isLoading
      ensures |password| >= MinPasswordLength && Auth.FindByEmail(old(store.users), email).Some? ==>
                formError == Some("User already exists") && navigatedTo == old(navigatedTo) &&
                store.user == old(store.user)
      ensures |password| >= MinPasswordLength && Auth.FindByEmail(old(store.users), email).None? ==>
                formError == None && navigatedTo == Some("/") &&
                store.user == Some(Auth.NewUser(|old(store.users)|, email, name, role))
    {
      isSubmitting := true;
      formError := None;
      if |password| < MinPasswordLength {
        formError := Some(PasswordTooShort);
        isSubmitting := false;
        return;
      }
      var res := store.Signup(email, password, name, role);
      match res {
        case Ok(_) =>
          navigatedTo := Some("/");
        case Err(message) =>
          formError := Some(message);
      }
      isSubmitting := false;
    }
  }
}
