/** The profile service (backend/controllers/profileController.js): the
    acting user's profile view and its partial update, which keeps emails
    unique. The acting user is the one the `protect` guard resolved; it is
    present in the table. */
module ProfileController {
  import opened Common
  import opened UserModel

  /** An update body; `None` is a field that is `undefined`. */
  datatype ProfileBody = ProfileBody(name: Option<string>, email: Option<string>, avatar: Option<string>)

  /** `getProfile`'s view: no password. */
  datatype ProfileView = ProfileView(id: UserId, name: string, email: string, avatar: Option<string>,
                                     createdAt: int, updatedAt: int)

  /** `updateProfile`'s view: no password and no `createdAt`. */
  datatype UpdatedView = UpdatedView(id: UserId, name: string, email: string, avatar: Option<string>,
                                     updatedAt: int)

  datatype ProfileData = Current(profile: ProfileView) | Updated(user: UpdatedView)

  datatype Reply = Reply(code: int, success: bool, message: Option<string>, data: Option<ProfileData>,
                         errors: seq<FieldError>)

  function ValidationFailed(errors: seq<FieldError>): Reply
  {
    Reply(400, false, Some("Validation failed"), None, errors)
  }

  function EmailInUse(): Reply
  {
    Reply(400, false, Some("Email already in use"), None, [])
  }

  /** What `updateProfileValidation` accepts: each field is optional; a
      name trims to 2..50 characters, an email is well-formed after trimming,
      an avatar is a URL after trimming. */
  predicate ProfileAcceptable(b: ProfileBody, lib: Validators)
  {
    && (b.name.Some? ==> 2 <= |Trim(b.name.value)| <= 50)
    && (b.email.Some? ==> lib.isEmail(Trim(b.email.value)))
    && (b.avatar.Some? ==> lib.isUrl(Trim(b.avatar.value)))
  }

  /** `updateProfileValidation`: name, email, avatar in that order. */
  function ProfileValidation(b: ProfileBody, lib: Validators): (errors: seq<FieldError>)
    ensures errors == [] <==> ProfileAcceptable(b, lib)
  {
    (if b.name.Some?
     then Check(2 <= |Trim(b.name.value)| <= 50, "name", "Name must be between 2 and 50 characters")
     else [])
    + (if b.email.Some?
       then Check(lib.isEmail(Trim(b.email.value)), "email", "Please provide a valid email")
       else [])
    + (if b.avatar.Some?
       then Check(lib.isUrl(Trim(b.avatar.value)), "avatar", "Avatar must be a valid URL")
       else [])
  }

  /** The body after the sanitizers: trimmed name, trimmed and normalised
      email, trimmed avatar; `undefined` fields stay `undefined`. */
  function Sanitized(b: ProfileBody, lib: Validators): ProfileBody
  {
    ProfileBody(
      if b.name.Some? then Some(Trim(b.name.value)) else None,
      if b.email.Some? then Some(lib.normalizeEmail(Trim(b.email.value))) else None,
      if b.avatar.Some? then Some(Trim(b.avatar.value)) else None)
  }

  /** `updateFields` for a sanitised body: name and email when truthy,
      avatar whenever it is not `undefined`. */
  function ApplyProfile(u: User, s: ProfileBody, now: int): (v: User)
    ensures v.id == u.id && v.passwordHash == u.passwordHash && v.createdAt == u.createdAt
    ensures v.updatedAt == now
    ensures v.name == (if Truthy(s.name) then s.name.value else u.name)
    ensures v.email == (if Truthy(s.email) then s.email.value else u.email)
    ensures v.avatar == (if s.avatar.Some? then s.avatar else u.avatar)
  {
    u.(name := if Truthy(s.name) then s.name.value else u.name,
       email := if Truthy(s.email) then s.email.value else u.email,
       avatar := if s.avatar.Some? then s.avatar else u.avatar,
       updatedAt := now)
  }

  /** `email && email !== req.user.email`: the uniqueness lookup runs only
      for a truthy email that differs from the acting user's, so sending
      one's own email again never triggers it. */
  predicate EmailLookupNeeded(s: ProfileBody, current: User)
  {
    Truthy(s.email) && s.email.value != current.email
  }

  /** `updateFields` tests the name for truthiness and the avatar for
      `undefined`, but after validation the two tests agree on the name: an
      empty name is rejected, so a supplied name always replaces the stored
      one, trimmed. An empty avatar is rejected too whenever the URL check
      rejects the empty string. */
  lemma ValidatedNameReplaces(u: User, b: ProfileBody, lib: Validators, now: int)
    ensures ProfileValidation(ProfileBody(Some(""), None, None), lib) != []
    ensures !lib.isUrl("") ==> ProfileValidation(ProfileBody(None, None, Some("")), lib) != []
    ensures ProfileValidation(b, lib) == [] && b.name.Some? ==> Truthy(Sanitized(b, lib).name)
    ensures ProfileValidation(b, lib) == [] ==>
              ApplyProfile(u, Sanitized(b, lib), now).name == (if b.name.Some? then Trim(b.name.value) else u.name)
  {
    TrimNoop("");
  }

  function ProfileOf(u: User): (v: ProfileView)
    ensures v.id == u.id && v.name == u.name && v.email == u.email && v.avatar == u.avatar
    ensures v.createdAt == u.createdAt && v.updatedAt == u.updatedAt
  {
    ProfileView(u.id, u.name, u.email, u.avatar, u.createdAt, u.updatedAt)
  }

  function UpdatedOf(u: User): (v: UpdatedView)
    ensures v.id == u.id && v.name == u.name && v.email == u.email && v.avatar == u.avatar
    ensures v.updatedAt == u.updatedAt
  {
    UpdatedView(u.id, u.name, u.email, u.avatar, u.updatedAt)
  }

  /** `getProfile`: the acting user's own record, as a view without the
      password. */
  method GetProfile(table: UserTable, me: UserId) returns (r: Reply)
    requires FindById(table.rows, me).Some?
    ensures var i := FindById(table.rows, me).value;
            r == Reply(200, true, None, Some(Current(ProfileOf(table.rows[i]))), [])
    ensures r.data.Some? && r.data.value.profile.id == me
  {
    var i := FindById(table.rows, me).value;
    r := Reply(200, true, None, Some(Current(ProfileOf(table.rows[i]))), []);
  }

  /** `updateProfile`: validation first; then, if the email changes to one
      that is taken, 400 "Email already in use" with nothing changed;
      otherwise only the acting user's record is updated. */
  method UpdateProfile(table: UserTable, me: UserId, b: ProfileBody, lib: Validators, now: int)
    returns (r: Reply)
    requires table.Valid() && FindById(table.rows, me).Some?
    modifies table
    ensures table.Valid() && table.nextId == old(table.nextId)
    ensures ProfileValidation(b, lib) != [] ==>
              r == ValidationFailed(ProfileValidation(b, lib)) && table.rows == old(table.rows)
    ensures ProfileValidation(b, lib) == [] ==>
              var i := FindById(old(table.rows), me).value;
              var s := Sanitized(b, lib);
              if EmailLookupNeeded(s, old(table.rows)[i]) && FindByEmail(old(table.rows), s.email.value).Some?
              then r == EmailInUse() && table.rows == old(table.rows)
              else
                var u := ApplyProfile(old(table.rows)[i], s, now);
                && table.rows == old(table.rows)[i := u]
                && r == Reply(200, true, Some("Profile updated successfully"), Some(Updated(UpdatedOf(u))), [])
  {
    var errors := ProfileValidation(b, lib);
    if errors != [] {
      return ValidationFailed(errors);
    }
    var s := Sanitized(b, lib);
    var i := FindById(table.rows, me).value;
    var current := table.rows[i];
    var u := BuildUpdate(current, s, now);
    if s.email.Some? && s.email.value != "" && s.email.value != current.email {
      var taken := FindByEmail(table.rows, s.email.value);
      if taken.Some? {
        return EmailInUse();
      }
    }
    KeepsEmailsUnique(table.rows, i, s, now);
    table.Replace(i, u);
    r := Reply(200, true, Some("Profile updated successfully"), Some(Updated(UpdatedOf(u))), []);
  }

  /** `updateFields` filled field by field: name and email when truthy,
      avatar when not `undefined`; then the update time. */
  method BuildUpdate(current: User, s: ProfileBody, now: int) returns (u: User)
    ensures u == ApplyProfile(current, s, now)
  {
    var name := current.name;
    var email := current.email;
    var avatar := current.avatar;
    if s.name.Some? && s.name.value != "" {
      name := s.name.value;
    }
    if s.email.Some? && s.email.value != "" {
      email := s.email.value;
    }
    if s.avatar.Some? {
      avatar := s.avatar;
    }
    u := current.(name := name, email := email, avatar := avatar, updatedAt := now);
  }

  /** When the lookup was skipped or found no one, no other user holds the
      updated email. */
  lemma KeepsEmailsUnique(rows: seq<User>, i: nat, s: ProfileBody, now: int)
    requires UniqueEmails(rows) && i < |rows|
    requires EmailLookupNeeded(s, rows[i]) ==> FindByEmail(rows, s.email.value).None?
    ensures forall j :: 0 <= j < |rows| && j != i ==> rows[j].email != ApplyProfile(rows[i], s, now).email
  {
    forall j | 0 <= j < |rows| && j != i
      ensures rows[j].email != ApplyProfile(rows[i], s, now).email
    {
      if !EmailLookupNeeded(s, rows[i]) {
        assert rows[j].email != rows[i].email;
      }
    }
  }
}
