/**
 * The "Add New User" dialog (src/components/Users/add-user-dialog.jsx): the
 * form schema, the confirmation field's enabling, the two visibility toggles
 * and the submit handler with its success and failure paths.
 *
 * The e-mail check of the schema library is a parameter `isEmail`.  The POST
 * request is not modelled; its outcome is an input.  `FormState` and its
 * transition functions are the specification; `AddUserDialog` is the component,
 * whose methods are proved against them.
 */
module UserForm {
  import opened Wrappers

  /** The form values. */
  datatype Draft = Draft(username: string, email: string, password: string, confirmPassword: string)

  /** `defaultValues`, which `form.reset()` also restores. */
  const DefaultValues := Draft("", "", "", "")

  /** The form fields, as named in the schema's issue paths. */
  datatype Field = Username | Email | Password | ConfirmPassword

  /** A schema violation: the field it is reported on and its message. */
  datatype Issue = Issue(path: Field, message: string)

  const UsernameTooShort := Issue(Username, "Username must be at least 3 characters")
  const InvalidEmail := Issue(Email, "Invalid email address")
  const PasswordTooShort := Issue(Password, "Password must be at least 8 characters")
  const PasswordsDiffer := Issue(ConfirmPassword, "Passwords don't match")

  /** The conditions under which the form is submitted. */
  predicate Acceptable(d: Draft, isEmail: string -> bool) {
    && |d.username| >= 3
    && isEmail(d.email)
    && |d.password| >= 8
    && d.password == d.confirmPassword
  }

  /**
   * `formSchema`: the field checks in declaration order, then the refinement
   * comparing the two passwords.  All four values are strings, so a failed
   * field check does not stop the refinement from running.
   */
  function Validate(d: Draft, isEmail: string -> bool): (issues: seq<Issue>)
    ensures issues == [] <==> Acceptable(d, isEmail)
    ensures UsernameTooShort in issues <==> |d.username| < 3
    ensures InvalidEmail in issues <==> !isEmail(d.email)
    ensures PasswordTooShort in issues <==> |d.password| < 8
    ensures PasswordsDiffer in issues <==> d.password != d.confirmPassword
    ensures forall i :: 0 <= i < |issues| ==>
              issues[i] in {UsernameTooShort, InvalidEmail, PasswordTooShort, PasswordsDiffer}
    ensures |issues| <= 4
  {
    (if |d.username| < 3 then [UsernameTooShort] else [])
    + (if !isEmail(d.email) then [InvalidEmail] else [])
    + (if |d.password| < 8 then [PasswordTooShort] else [])
    + (if d.password != d.confirmPassword then [PasswordsDiffer] else [])
  }

  /** The JSON body of the registration request. */
  datatype RegisterBody = RegisterBody(username: string, email: string, password: string)

  /** The body `onSubmit` posts: the three credentials, never the confirmation. */
  function RequestBody(d: Draft): (b: RegisterBody)
    ensures b.username == d.username && b.email == d.email && b.password == d.password
  {
    RegisterBody(d.username, d.email, d.password)
  }

  /** The confirmation does not reach the request: drafts differing only there post the same body. */
  lemma RequestBodyIgnoresConfirmation(d: Draft, confirmation: string)
    ensures RequestBody(d.(confirmPassword := confirmation)) == RequestBody(d)
  {
  }

  datatype Variant = Default | Destructive

  datatype Toast = Toast(title: string, description: string, variant: Variant)

  const SuccessToast := Toast("Success!", "User created successfully.", Default)
  const FallbackMessage := "Failed to create user. Please try again."

  /**
   * How the POST settles.  A rejection carries `error.response?.data?.message`,
   * which is absent when there is no response or no message.
   */
  datatype PostOutcome = Created | Rejected(serverMessage: Option<string>)

  /**
   * `error.response?.data?.message || fallback`: the server's message unless it
   * is missing or empty (the empty string is falsy).
   */
  function ErrorDescription(serverMessage: Option<string>): (r: string)
    ensures r != ""
    ensures serverMessage.Some? && serverMessage.value != "" ==> r == serverMessage.value
    ensures serverMessage.None? || serverMessage.value == "" ==> r == FallbackMessage
  {
    match serverMessage
    case Some(m) => if m != "" then m else FallbackMessage
    case None => FallbackMessage
  }

  /** The destructive "Error!" notification shown when the POST fails. */
  function ErrorToast(serverMessage: Option<string>): (r: Toast)
    ensures r.title == "Error!" && r.variant == Destructive
    ensures r.description != ""
    ensures serverMessage.Some? && serverMessage.value != "" ==> r.description == serverMessage.value
    ensures r != SuccessToast
  {
    Toast("Error!", ErrorDescription(serverMessage), Destructive)
  }

  /**
   * The dialog's state.  `open` is the host's `open` prop as changed through
   * `onOpenChange`; `reloaded` records the call to `window.location.reload`;
   * `toasts` and `sent` are the notifications shown and the bodies posted, in order.
   */
  datatype FormState = FormState(
    values: Draft,
    showPassword: bool,
    showConfirmPassword: bool,
    isPasswordFilled: bool,
    open: bool,
    reloaded: bool,
    toasts: seq<Toast>,
    sent: seq<RegisterBody>)

  /** A freshly mounted dialog. */
  function Mounted(open: bool): FormState {
    FormState(DefaultValues, false, false, false, open, false, [], [])
  }

  /** What the effect on the watched password computes. */
  predicate PasswordFilled(password: string) {
    |password| >= 1
  }

  /** The effect has caught up with the password field. */
  predicate Synced(s: FormState) {
    s.isPasswordFilled == PasswordFilled(s.values.password)
  }

  /** The confirmation input and its visibility toggle are both disabled by `!isPasswordFilled`. */
  predicate ConfirmDisabled(s: FormState) {
    !s.isPasswordFilled
  }

  /** The draft after one input's `onChange`: that field takes `value`, the others stay. */
  function SetField(d: Draft, field: Field, value: string): (r: Draft)
    ensures r.username == (if field == Username then value else d.username)
    ensures r.email == (if field == Email then value else d.email)
    ensures r.password == (if field == Password then value else d.password)
    ensures r.confirmPassword == (if field == ConfirmPassword then value else d.confirmPassword)
  {
    match field
    case Username => d.(username := value)
    case Email => d.(email := value)
    case Password => d.(password := value)
    case ConfirmPassword => d.(confirmPassword := value)
  }

  /**
   * Typing into one input, followed by the effect that recomputes
   * `isPasswordFilled`.  A disabled confirmation input cannot be typed into.
   */
  function Edit(s: FormState, field: Field, value: string): (r: FormState)
    requires field == ConfirmPassword ==> !ConfirmDisabled(s)
    ensures Synced(r)
    ensures ConfirmDisabled(r) <==> r.values.password == ""
    ensures field == Password ==> r.values.password == value
    ensures field != Password ==> r.values.password == s.values.password
    ensures r.showPassword == s.showPassword && r.showConfirmPassword == s.showConfirmPassword
    ensures r.values == SetField(s.values, field, value)
    ensures r.toasts == s.toasts && r.sent == s.sent && r.open == s.open && r.reloaded == s.reloaded
  {
    var values := SetField(s.values, field, value);
    s.(values := values, isPasswordFilled := PasswordFilled(values.password))
  }

  /** The password's eye button. */
  function TogglePassword(s: FormState): (r: FormState)
    ensures r.showPassword != s.showPassword
    ensures r.(showPassword := s.showPassword) == s
  {
    s.(showPassword := !s.showPassword)
  }

  /** The confirmation's eye button, which is disabled together with its input. */
  function ToggleConfirmPassword(s: FormState): (r: FormState)
    requires !ConfirmDisabled(s)
    ensures r.showConfirmPassword != s.showConfirmPassword
    ensures r.(showConfirmPassword := s.showConfirmPassword) == s
  {
    s.(showConfirmPassword := !s.showConfirmPassword)
  }

  /** Either toggle pressed twice restores the state, and neither touches the other. */
  lemma TogglesAreIndependentInvolutions(s: FormState)
    ensures TogglePassword(TogglePassword(s)) == s
    ensures TogglePassword(s).showConfirmPassword == s.showConfirmPassword
    ensures !ConfirmDisabled(s) ==> ToggleConfirmPassword(ToggleConfirmPassword(s)) == s
    ensures !ConfirmDisabled(s) ==> ToggleConfirmPassword(s).showPassword == s.showPassword
  {
  }

  /**
   * Pressing "Save changes": the schema is checked first and a rejected draft
   * reaches no handler.  An accepted draft is posted; on success the form is
   * reset, the dialog closed and the page reloaded; on failure only an error
   * notification is added.
   */
  function Submit(s: FormState, isEmail: string -> bool, outcome: PostOutcome): (r: FormState)
    ensures !Acceptable(s.values, isEmail) ==> r == s
    ensures Acceptable(s.values, isEmail) ==> r.sent == s.sent + [RequestBody(s.values)]
    ensures Acceptable(s.values, isEmail) && outcome.Created? ==>
              && r.values == DefaultValues && !r.isPasswordFilled
              && !r.open && r.reloaded
              && r.toasts == s.toasts + [SuccessToast]
    ensures Acceptable(s.values, isEmail) && outcome.Rejected? ==>
              && r.values == s.values && r.isPasswordFilled == s.isPasswordFilled
              && r.open == s.open && r.reloaded == s.reloaded
              && r.toasts == s.toasts + [ErrorToast(outcome.serverMessage)]
    ensures r.showPassword == s.showPassword && r.showConfirmPassword == s.showConfirmPassword
    ensures Synced(s) ==> Synced(r)
  {
    if !Acceptable(s.values, isEmail) then s
    else
      var posted := s.(sent := s.sent + [RequestBody(s.values)]);
      match outcome
      case Created =>
        var notified := posted.(toasts := posted.toasts + [SuccessToast]);
        var reset := notified.(values := DefaultValues, isPasswordFilled := false);
        var closed := reset.(open := false);
        closed.(reloaded := true)
      case Rejected(message) =>
        posted.(toasts := posted.toasts + [ErrorToast(message)])
  }

  /** A draft whose two passwords differ is never posted, whatever the server would say. */
  lemma MismatchNeverPosted(s: FormState, isEmail: string -> bool, outcome: PostOutcome)
    requires s.values.password != s.values.confirmPassword
    ensures Submit(s, isEmail, outcome) == s
    ensures PasswordsDiffer in Validate(s.values, isEmail)
  {
  }

  /** Every submit that gets through validation posts once and shows exactly one notification. */
  lemma OneNotificationPerPost(s: FormState, isEmail: string -> bool, outcome: PostOutcome)
    ensures |Submit(s, isEmail, outcome).sent| - |s.sent| == |Submit(s, isEmail, outcome).toasts| - |s.toasts|
    ensures |Submit(s, isEmail, outcome).sent| - |s.sent| <= 1
  {
  }

  /**
   * "Email taken" from the server is shown as is, and the typed values stay.
   */
  lemma RejectedWithServerMessage(s: FormState, isEmail: string -> bool)
    requires Acceptable(s.values, isEmail)
    ensures Submit(s, isEmail, Rejected(Some("Email taken"))).toasts
              == s.toasts + [Toast("Error!", "Email taken", Destructive)]
    ensures Submit(s, isEmail, Rejected(Some("Email taken"))).values == s.values
  {
  }

  /** The dialog component with its state hooks, its form and the host's `open` prop. */
  class AddUserDialog {
    var values: Draft
    var showPassword: bool
    var showConfirmPassword: bool
    var isPasswordFilled: bool
    var open: bool
    var reloaded: bool
    var toasts: seq<Toast>
    var sent: seq<RegisterBody>

    function State(): FormState
      reads this
    {
      FormState(values, showPassword, showConfirmPassword, isPasswordFilled, open, reloaded, toasts, sent)
    }

    /** The class invariant: `isPasswordFilled` has caught up with the password field. */
    predicate Valid()
      reads this
    {
      Synced(State())
    }

    constructor (open: bool)
      ensures State() == Mounted(open) && Valid()
    {
      values := DefaultValues;
      showPassword, showConfirmPassword, isPasswordFilled := false, false, false;
      this.open := open;
      reloaded := false;
      toasts, sent := [], [];
    }

    /** An input's change handler, then the password effect. */
    method OnChange(field: Field, value: string)
      requires field == ConfirmPassword ==> !ConfirmDisabled(State())
      modifies this
      ensures State() == Edit(old(State()), field, value)
      ensures Valid()
    {
      values := SetField(values, field, value);
      isPasswordFilled := |values.password| >= 1;
    }

    method OnTogglePassword()
      requires Valid()
      modifies this
      ensures State() == TogglePassword(old(State()))
      ensures Valid()
    {
      showPassword := !showPassword;
    }

    method OnToggleConfirmPassword()
      requires Valid() && !ConfirmDisabled(State())
      modifies this
      ensures State() == ToggleConfirmPassword(old(State()))
      ensures Valid()
    {
      showConfirmPassword := !showConfirmPassword;
    }

    /** `form.handleSubmit(onSubmit)` with the e-mail check and the request's outcome as parameters. */
    method OnSubmit(isEmail: string -> bool, outcome: PostOutcome)
      requires Valid()
      modifies this
      ensures State() == Submit(old(State()), isEmail, outcome)
      ensures Valid()
    {
      if Validate(values, isEmail) != [] {
        return;
      }
      sent := sent + [RequestBody(values)];
      match outcome {
        case Created =>
          toasts := toasts + [SuccessToast];
          values := DefaultValues;
          isPasswordFilled := false;
          open := false;
          reloaded := true;
        case Rejected(message) =>
          toasts := toasts + [ErrorToast(message)];
      }
    }

    /** Whether the confirmation input (and its toggle) is rendered disabled. */
    method ConfirmInputDisabled() returns (disabled: bool)
      requires Valid()
      ensures disabled <==> values.password == ""
    {
      disabled := !isPasswordFilled;
    }
  }
}
