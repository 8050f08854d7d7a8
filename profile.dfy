/** The collector's profile page: a form filled from the signed-in user that
    is locked until "Edit Profile" and locked again by "Cancel" or "Save
    Changes". Neither of those puts back or saves what was typed. */
module Profile {
  import opened Wrappers
  import opened Models
  import opened Text

  /** The `name` of each input. */
  datatype Field = FirstNameField | LastNameField | EmailField | PhoneField | LocationField | BioField

  /** `formData` */
  datatype ProfileForm = ProfileForm(firstName: string, lastName: string, email: string,
                                     phone: string, location: string, bio: string)

  const EmptyForm := ProfileForm("", "", "", "", "", "")

  function Get(f: ProfileForm, field: Field): string {
    match field
    case FirstNameField => f.firstName
    case LastNameField => f.lastName
    case EmailField => f.email
    case PhoneField => f.phone
    case LocationField => f.location
    case BioField => f.bio
  }

  /** `{ ...formData, [name]: value }` */
  function SetField(f: ProfileForm, field: Field, v: string): (r: ProfileForm)
    ensures Get(r, field) == v
    ensures forall g :: g != field ==> Get(r, g) == Get(f, g)
  {
    match field
    case FirstNameField => f.(firstName := v)
    case LastNameField => f.(lastName := v)
    case EmailField => f.(email := v)
    case PhoneField => f.(phone := v)
    case LocationField => f.(location := v)
    case BioField => f.(bio := v)
  }

  /** The form the user effect fills in: the name split at its first space,
      the email and region, and no phone or bio (the user has neither). */
  function FormFor(u: User): (f: ProfileForm)
    ensures ' ' !in f.firstName
    ensures ' ' in u.name ==> f.firstName + " " + f.lastName == u.name
    ensures ' ' !in u.name ==> f.firstName == u.name && f.lastName == ""
    ensures f.email == u.email && f.location == u.region.GetOr("")
    ensures f.phone == "" && f.bio == ""
  {
    NameSplit(u.name);
    ProfileForm(FirstName(u.name), LastName(u.name), u.email, "", u.region.GetOr(""), "")
  }

  /** The form and whether it is open for editing. */
  datatype Panel = Panel(form: ProfileForm, editing: bool)

  /** The effect on `user` */
  function UserEffectStep(p: Panel, user: Option<User>): Panel {
    if user.Some? then p.(form := FormFor(user.value)) else p
  }

  /** `handleChange`; a locked input is disabled and reports no change. */
  function ChangeStep(p: Panel, field: Field, v: string): Panel {
    if p.editing then p.(form := SetField(p.form, field, v)) else p
  }

  /** "Edit Profile" */
  function EditStep(p: Panel): Panel {
    p.(editing := true)
  }

  /** "Cancel" */
  function CancelStep(p: Panel): Panel {
    p.(editing := false)
  }

  /** `handleSubmit`: saving is not implemented, the form only locks. */
  function SubmitStep(p: Panel): Panel {
    p.(editing := false)
  }

  /** A locked form ignores typing. */
  lemma LockedFormIgnoresTyping(p: Panel, field: Field, v: string)
    requires !p.editing
    ensures ChangeStep(p, field, v) == p
  {
  }

  /** Cancelling does not undo an edit: the typed value stays in the form,
      and every other field is as before. */
  lemma CancelKeepsEdits(p: Panel, field: Field, v: string)
    ensures var after := CancelStep(ChangeStep(EditStep(p), field, v));
      && !after.editing && Get(after.form, field) == v
      && forall g :: g != field ==> Get(after.form, g) == Get(p.form, g)
  {
  }

  /** Saving and cancelling leave the page in the same state. */
  lemma SubmitIsCancel(p: Panel)
    ensures SubmitStep(p) == CancelStep(p) && !SubmitStep(p).editing && SubmitStep(p).form == p.form
  {
  }

  /** A change of user replaces all that was typed. */
  lemma NewUserReplacesEdits(p: Panel, field: Field, v: string, u: User)
    ensures UserEffectStep(ChangeStep(p, field, v), Some(u)).form == FormFor(u)
  {
  }

  // ------------------------------------------------------------------ class

  class ProfilePage {
    var form: ProfileForm
    var editing: bool

    constructor ()
      ensures form == EmptyForm && !editing
    {
      form := EmptyForm;
      editing := false;
    }

    function State(): Panel
      reads this
    {
      Panel(form, editing)
    }

    /** The effect on `user` */
    method OnUser(user: Option<User>)
      modifies this`form
      ensures State() == UserEffectStep(old(State()), user)
    {
      if user.Some? {
        form := FormFor(user.value);
      }
    }

    /** `handleChange` */
    method Change(field: Field, v: string)
      modifies this`form
      ensures State() == ChangeStep(old(State()), field, v)
    {
      if editing {
        form := SetField(form, field, v);
      }
    }

    /** "Edit Profile" */
    method Edit()
      modifies this`editing
      ensures State() == EditStep(old(State()))
    {
      editing := true;
    }

    /** "Cancel" */
    method Cancel()
      modifies this`editing
      ensures State() == CancelStep(old(State()))
    {
      editing := false;
    }

    /** `handleSubmit` */
    method Submit()
      modifies this`editing
      ensures State() == SubmitStep(old(State()))
    {
      editing := false;
    }
  }
}
