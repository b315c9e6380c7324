/** The "Edit Credential" modal: the same six form fields, seeded from the
    card's credential whenever the modal opens, and an update on submit. */
module EditModal {
  import opened Vault
  import PasswordGen

  const UpdatedNotice: Notice := Notice("Credential updated!", "Your changes have been saved.", false)

  /** `s || fallback` on a string: the empty string is the only falsy one. */
  function OrElse(s: string, fallback: string): (r: string)
    ensures s != "" ==> r == s
    ensures s == "" ==> r == fallback
  {
    if s != "" then s else fallback
  }

  /** The fields the seeding effect writes: title, username and password
      copied; website and notes copied with "" for a missing value; category
      copied with "general" for a missing value. */
  function Seed(c: Credential): (f: Form)
    ensures f.title == c.title && f.username == c.username && f.password == c.password
    ensures f.website == c.website && f.notes == c.notes
    ensures c.category != "" ==> f.category == c.category
    ensures c.category == "" ==> f.category == DefaultCategory
    ensures f.category != ""
  {
    Form(c.title, c.username, c.password, OrElse(c.website, ""), OrElse(c.notes, ""), OrElse(c.category, DefaultCategory))
  }

  /** Submitting the seeded form unchanged writes back the credential's own
      values, except that an empty category becomes "general". */
  lemma SeedRoundTrip(c: Credential)
    requires c.category != ""
    ensures var f := Seed(c);
      Credential(c.id, f.title, f.username, f.password, f.website, f.notes, f.category, c.createdAt) == c
  {
  }

  class EditCredentialModal {
    /** The `credential` prop. */
    var credential: Credential
    /** The `open` prop. */
    var open: bool
    var form: Form
    var loading: bool
    /** Backend calls issued, oldest first. */
    var requests: seq<Request>
    /** Calls made on `onOpenChange` and `onSuccess`, oldest first. */
    var callbacks: seq<Callback>
    /** Toasts shown, oldest first. */
    var notices: seq<Notice>

    /** Between events nothing is in flight. */
    ghost predicate Valid()
      reads this
    {
      !loading
    }

    /** First render: the initial field values, then the seeding effect. */
    constructor (credential: Credential, open: bool)
      ensures Valid()
      ensures this.credential == credential && this.open == open
      ensures open ==> form == Seed(credential)
      ensures !open ==> form == InitialForm
      ensures requests == [] && callbacks == [] && notices == []
    {
      this.credential, this.open := credential, open;
      form := InitialForm;
      loading := false;
      requests, callbacks, notices := [], [], [];
      new;
      SeedEffect();
    }

    /** The seeding effect: when open, every field is overwritten from the
        credential; when closed, nothing changes. */
    method SeedEffect()
      modifies this`form
      ensures open ==> form == Seed(credential)
      ensures !open ==> form == old(form)
    {
      if open {
        form := Seed(credential);
      }
    }

    /** A render with new `open` or `credential` props, after which the effect
        (whose dependencies changed) runs again. */
    method ReceiveProps(open: bool, credential: Credential)
      requires Valid()
      modifies this`open, this`credential, this`form
      ensures Valid()
      ensures this.open == open && this.credential == credential
      ensures open ==> form == Seed(credential)
      ensures !open ==> form == old(form)
    {
      this.open, this.credential := open, credential;
      SeedEffect();
    }

    /** An input's `onChange`, or the category select's `onValueChange`. */
    method Edit(field: Field, value: string)
      requires Valid()
      requires field == Category ==> value in Categories
      modifies this`form
      ensures Valid()
      ensures form == With(old(form), field, value)
    {
      form := With(form, field, value);
    }

    /** `generatePassword`: sixteen drawn characters become the password. */
    method GeneratePassword(draw: nat -> PasswordGen.Draw)
      requires Valid()
      modifies this`form, this`notices
      ensures Valid()
      ensures |form.password| == PasswordGen.PasswordLength
      ensures forall c :: c in form.password ==> c in PasswordGen.Charset
      ensures form == old(form).(password := form.password)
      ensures notices == old(notices) + [GeneratedNotice]
    {
      var password := PasswordGen.GeneratePassword(draw);
      form := form.(password := password);
      notices := notices + [GeneratedNotice];
    }

    /** `handleSubmit`: `updated` is what the update returned. The form is
        left as it is in both outcomes. */
    method HandleSubmit(updated: Outcome)
      requires Valid()
      modifies this`loading, this`requests, this`callbacks, this`notices
      ensures Valid()
      ensures requests == old(requests) + [UpdateRow(credential.id, form)]
      ensures updated.Ok? ==> callbacks == old(callbacks) + [OpenChange(false), SuccessCalled]
      ensures updated.Ok? ==> notices == old(notices) + [UpdatedNotice]
      ensures updated.Err? ==> callbacks == old(callbacks)
      ensures updated.Err? ==> notices == old(notices) + [Notice("Error", updated.message, true)]
    {
      loading := true;
      requests := requests + [UpdateRow(credential.id, form)];
      match updated {
        case Err(message) =>
          notices := notices + [Notice("Error", message, true)];
        case Ok =>
          notices := notices + [UpdatedNotice];
          callbacks := callbacks + [OpenChange(false), SuccessCalled];
      }
      loading := false;
    }

    /** The cancel button: asks the parent to close the modal. */
    method Cancel()
      modifies this`callbacks
      ensures callbacks == old(callbacks) + [OpenChange(false)]
    {
      callbacks := callbacks + [OpenChange(false)];
    }

    /** The form's submit event: the `required` title, username and password
        inputs block it while any is empty. */
    method Submit(updated: Outcome)
      requires Valid()
      modifies this`loading, this`requests, this`callbacks, this`notices
      ensures Valid()
      ensures !RequiredFilled(form) ==>
        requests == old(requests) && callbacks == old(callbacks) && notices == old(notices)
      ensures RequiredFilled(form) ==> requests == old(requests) + [UpdateRow(credential.id, form)]
      ensures RequiredFilled(form) && updated.Ok? ==>
        callbacks == old(callbacks) + [OpenChange(false), SuccessCalled] && notices == old(notices) + [UpdatedNotice]
      ensures RequiredFilled(form) && updated.Err? ==>
        callbacks == old(callbacks) && notices == old(notices) + [Notice("Error", updated.message, true)]
    {
      if RequiredFilled(form) {
        HandleSubmit(updated);
      }
    }
  }
}
