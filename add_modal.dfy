/** The "Add New Credential" modal: six form fields, a loading flag, the
    password generator and the insert on submit. */
module AddModal {
  import opened Vault
  import PasswordGen

  const NotAuthenticated: string := "User not authenticated"
  const AddedNotice: Notice := Notice("Credential added!", "Your credential has been securely saved.", false)

  class AddCredentialModal {
    var form: Form
    var loading: bool
    /** Backend calls issued, oldest first. */
    var requests: seq<Request>
    /** Calls made on `onOpenChange` and `onSuccess`, oldest first. */
    var callbacks: seq<Callback>
    /** Toasts shown, oldest first. */
    var notices: seq<Notice>

    /** Between events nothing is in flight, and the category is one the
        select offers. */
    ghost predicate Valid()
      reads this
    {
      !loading && form.category in Categories
    }

    /** Five empty strings, category "general", not loading. */
    constructor ()
      ensures Valid()
      ensures form == InitialForm && !loading
      ensures requests == [] && callbacks == [] && notices == []
    {
      form := InitialForm;
      loading := false;
      requests, callbacks, notices := [], [], [];
    }

    /** An input's `onChange`, or the category select's `onValueChange`
        (which only offers the four categories). */
    method Edit(field: Field, value: string)
      requires Valid()
      requires field == Category ==> value in Categories
      modifies this`form
      ensures Valid()
      ensures form == With(old(form), field, value)
    {
      form := With(form, field, value);
    }

    /** `generatePassword`: sixteen drawn characters become the password. */
    method GeneratePassword(draw: nat -> PasswordGen.Draw)
      requires Valid()
      modifies this`form, this`notices
      ensures Valid()
      ensures |form.password| == PasswordGen.PasswordLength
      ensures forall c :: c in form.password ==> c in PasswordGen.Charset
      ensures form == old(form).(password := form.password)
      ensures notices == old(notices) + [GeneratedNotice]
    {
      var password := PasswordGen.GeneratePassword(draw);
      form := form.(password := password);
      notices := notices + [GeneratedNotice];
    }

    /** `handleSubmit`: `user` is what `auth.getUser()` returned, `inserted`
        what the insert returned. */
    method HandleSubmit(user: Option<string>, inserted: Outcome)
      requires Valid()
      modifies this
      ensures Valid()
      ensures user.None? ==> requests == old(requests) + [GetUser]
      ensures user.None? ==> notices == old(notices) + [Notice("Error", NotAuthenticated, true)]
      ensures user.Some? ==> requests == old(requests) + [GetUser, InsertRow(user.value, old(form))]
      ensures user.Some? && inserted.Ok? ==> form == InitialForm
      ensures user.Some? && inserted.Ok? ==> callbacks == old(callbacks) + [OpenChange(false), SuccessCalled]
      ensures user.Some? && inserted.Ok? ==> notices == old(notices) + [AddedNotice]
      ensures user.Some? && inserted.Err? ==> notices == old(notices) + [Notice("Error", inserted.message, true)]
      ensures (user.None? || inserted.Err?) ==> form == old(form) && callbacks == old(callbacks)
    {
      loading := true;
      requests := requests + [GetUser];
      match user {
        case None =>
          notices := notices + [Notice("Error", NotAuthenticated, true)];
        case Some(id) =>
          requests := requests + [InsertRow(id, form)];
          match inserted {
            case Err(message) =>
              notices := notices + [Notice("Error", message, true)];
            case Ok =>
              notices := notices + [AddedNotice];
              form := InitialForm;
              callbacks := callbacks + [OpenChange(false), SuccessCalled];
          }
      }
      loading := false;
    }

    /** The cancel button: asks the parent to close the modal. */
    method Cancel()
      modifies this`callbacks
      ensures callbacks == old(callbacks) + [OpenChange(false)]
    {
      callbacks := callbacks + [OpenChange(false)];
    }

    /** The form's submit event: the `required` title, username and password
        inputs block it while any is empty. */
    method Submit(user: Option<string>, inserted: Outcome)
      requires Valid()
      modifies this
      ensures Valid()
      ensures !RequiredFilled(old(form)) ==>
        form == old(form) && requests == old(requests) && callbacks == old(callbacks) && notices == old(notices)
      ensures RequiredFilled(old(form)) && user.None? ==>
        requests == old(requests) + [GetUser] && form == old(form) && callbacks == old(callbacks) &&
        notices == old(notices) + [Notice("Error", NotAuthenticated, true)]
      ensures RequiredFilled(old(form)) && user.Some? ==>
        requests == old(requests) + [GetUser, InsertRow(user.value, old(form))]
      ensures RequiredFilled(old(form)) && user.Some? && inserted.Ok? ==>
        form == InitialForm && callbacks == old(callbacks) + [OpenChange(false), SuccessCalled] &&
        notices == old(notices) + [AddedNotice]
      ensures RequiredFilled(old(form)) && user.Some? && inserted.Err? ==>
        form == old(form) && callbacks == old(callbacks) &&
        notices == old(notices) + [Notice("Error", inserted.message, true)]
    {
      if RequiredFilled(form) {
        HandleSubmit(user, inserted);
      }
    }
  }
}
