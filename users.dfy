/**
  The custom `User` model, identified by email, and its `UserManager`:
  `create_user` demands an email, `create_superuser` defaults and checks
  the staff and superuser flags before delegating to `create_user`.
  `normalize_email` is a parameter; password hashing is reduced to which
  raw password was set.
 */
module Users {
  import opened Wrappers
  import Text

  const EmailRequired := "The Email field is required"
  const MustBeStaff := "Superuser must have is_staff=True."
  const MustBeSuperuser := "Superuser must have is_superuser=True."

  /** The `ValueError` the manager raises. */
  datatype ValueError = ValueError(message: string)

  /** The user columns a caller can set through `**extra_fields`. */
  datatype Field = FirstName | LastName | Username | PhoneNumber | IsActive | IsStaff | IsSuperuser

  /** A keyword-argument value. */
  datatype Value = Flag(b: bool) | Number(n: int) | Str(s: string) | Null

  /** Python truthiness of a keyword-argument value. */
  predicate Truthy(v: Value) {
    match v
    case Flag(b) => b
    case Number(n) => n != 0
    case Str(s) => s != ""
    case Null => false
  }

  type ExtraFields = map<Field, Value>

  /** What `set_password` leaves: a hash of the raw password, or an unusable one for `None`. */
  datatype Password = Unusable | HashOf(raw: string)

  datatype User = User(
    email: string,
    username: Option<string>,
    phoneNumber: Option<string>,
    firstName: string,
    lastName: string,
    isActive: bool,
    isStaff: bool,
    isSuperuser: bool,
    password: Password)

  /** A text column taken from `extra_fields`, `None` when it is not given as a string. */
  function TextField(extra: ExtraFields, f: Field): Option<string> {
    if f in extra && extra[f].Str? then Some(extra[f].s) else None
  }

  /** A flag column: the truthiness of the given value, else the model's default. */
  function FlagField(extra: ExtraFields, f: Field, default: bool): bool {
    if f in extra then Truthy(extra[f]) else default
  }

  /**
    The user `create_user` builds and saves, or the error it raises: an
    email is required; then the normalized email, the phone number and the
    extra fields go into the model, and the password is set.
   */
  function CreateUserResult(normalize: string -> string, email: Option<string>, password: Option<string>,
                            phoneNumber: Option<string>, extra: ExtraFields): (r: Result<User, ValueError>)
    requires PhoneNumber !in extra
    ensures r.Err? <==> email.None? || email.value == ""
    ensures r.Err? ==> r.error == ValueError(EmailRequired)
    ensures r.Ok? ==> r.value.email == normalize(email.value) && r.value.phoneNumber == phoneNumber
    ensures r.Ok? ==> r.value.password == (if password.None? then Unusable else HashOf(password.value))
    ensures r.Ok? ==> r.value.isStaff == (IsStaff in extra && Truthy(extra[IsStaff]))
    ensures r.Ok? ==> r.value.isSuperuser == (IsSuperuser in extra && Truthy(extra[IsSuperuser]))
    ensures r.Ok? ==> r.value.isActive == (IsActive !in extra || Truthy(extra[IsActive]))
    ensures r.Ok? ==> r.value.username == TextField(extra, Username)
    ensures r.Ok? ==> r.value.firstName == TextField(extra, FirstName).GetOr("")
    ensures r.Ok? ==> r.value.lastName == TextField(extra, LastName).GetOr("")
  {
    if email.None? || email.value == "" then
      Err(ValueError(EmailRequired))
    else
      Ok(User(
        email := normalize(email.value),
        username := TextField(extra, Username),
        phoneNumber := phoneNumber,
        firstName := TextField(extra, FirstName).GetOr(""),
        lastName := TextField(extra, LastName).GetOr(""),
        isActive := FlagField(extra, IsActive, true),
        isStaff := FlagField(extra, IsStaff, false),
        isSuperuser := FlagField(extra, IsSuperuser, false),
        password := if password.None? then Unusable else HashOf(password.value)))
  }

  /** `extra_fields` after the two `setdefault` calls of `create_superuser`. */
  function SuperuserDefaults(extra: ExtraFields): (r: ExtraFields)
    ensures IsStaff in r && IsSuperuser in r
    ensures r[IsStaff] == (if IsStaff in extra then extra[IsStaff] else Flag(true))
    ensures r[IsSuperuser] == (if IsSuperuser in extra then extra[IsSuperuser] else Flag(true))
    ensures forall f :: f != IsStaff && f != IsSuperuser ==> (f in r <==> f in extra)
    ensures forall f :: f in extra ==> r[f] == extra[f]
  {
    var withStaff := if IsStaff in extra then extra else extra[IsStaff := Flag(true)];
    if IsSuperuser in withStaff then withStaff else withStaff[IsSuperuser := Flag(true)]
  }

  /**
    What `create_superuser` returns or raises: an explicitly falsy
    `is_staff` fails first, then an explicitly falsy `is_superuser`; only
    then does `create_user` run, with `phone_number` taken out of the extra
    fields into its own parameter.
   */
  function CreateSuperuserResult(normalize: string -> string, email: Option<string>, password: Option<string>,
                                 extra: ExtraFields): (r: Result<User, ValueError>)
    ensures IsStaff in extra && !Truthy(extra[IsStaff]) ==> r == Err(ValueError(MustBeStaff))
    ensures (IsStaff !in extra || Truthy(extra[IsStaff])) && IsSuperuser in extra && !Truthy(extra[IsSuperuser])
      ==> r == Err(ValueError(MustBeSuperuser))
    ensures r.Ok? ==> r.value.isStaff && r.value.isSuperuser
  {
    var fields := SuperuserDefaults(extra);
    if !Truthy(fields[IsStaff]) then
      Err(ValueError(MustBeStaff))
    else if !Truthy(fields[IsSuperuser]) then
      Err(ValueError(MustBeSuperuser))
    else
      CreateUserResult(normalize, email, password, TextField(fields, PhoneNumber), fields - {PhoneNumber})
  }

  /**
    `create_superuser` succeeds exactly when neither flag is explicitly
    falsy and an email is given, and then builds the same user as
    `create_user` with both flags set.
   */
  lemma SuperuserIsUserWithFlags(normalize: string -> string, email: Option<string>, password: Option<string>,
                                 extra: ExtraFields)
    ensures CreateSuperuserResult(normalize, email, password, extra).Ok? <==>
      ((IsStaff !in extra || Truthy(extra[IsStaff]))
       && (IsSuperuser !in extra || Truthy(extra[IsSuperuser]))
       && email.Some? && email.value != "")
    ensures CreateSuperuserResult(normalize, email, password, extra).Ok? ==>
      CreateSuperuserResult(normalize, email, password, extra)
        == CreateUserResult(normalize, email, password, TextField(extra, PhoneNumber),
                            extra[IsStaff := Flag(true)][IsSuperuser := Flag(true)] - {PhoneNumber})
  {
    var fields := SuperuserDefaults(extra);
    if CreateSuperuserResult(normalize, email, password, extra).Ok? {
      assert TextField(fields, PhoneNumber) == TextField(extra, PhoneNumber);
      var e1 := fields - {PhoneNumber};
      var e2 := extra[IsStaff := Flag(true)][IsSuperuser := Flag(true)] - {PhoneNumber};
      assert TextField(e1, Username) == TextField(e2, Username);
      assert TextField(e1, FirstName) == TextField(e2, FirstName);
      assert TextField(e1, LastName) == TextField(e2, LastName);
      assert FlagField(e1, IsActive, true) == FlagField(e2, IsActive, true);
      assert FlagField(e1, IsStaff, false) && FlagField(e2, IsStaff, false);
      assert FlagField(e1, IsSuperuser, false) && FlagField(e2, IsSuperuser, false);
    }
  }

  /**
    `create_user` itself checks no flag: given `is_superuser` alone it
    builds a superuser that is not staff. Only `create_superuser` ties the
    two flags together.
   */
  lemma CreateUserAllowsNonStaffSuperuser(normalize: string -> string)
    ensures CreateUserResult(normalize, Some("admin@example.com"), None, None, map[IsSuperuser := Flag(true)]).Ok?
    ensures CreateUserResult(normalize, Some("admin@example.com"), None, None, map[IsSuperuser := Flag(true)]).value.isSuperuser
    ensures !CreateUserResult(normalize, Some("admin@example.com"), None, None, map[IsSuperuser := Flag(true)]).value.isStaff
  {
  }

  /** `get_full_name`: `"first last"` without surrounding whitespace, or the email when that is empty. */
  function FullName(u: User): (r: string)
    ensures Text.AllSpace(u.firstName) && Text.AllSpace(u.lastName) ==> r == u.email
    ensures !(Text.AllSpace(u.firstName) && Text.AllSpace(u.lastName)) ==>
      r != [] && Text.Trims(u.firstName + " " + u.lastName, r)
  {
    var full := u.firstName + " " + u.lastName;
    AllSpaceJoin(u.firstName, u.lastName);
    Text.StripEmptyIffAllSpace(full);
    Text.StripTrims(full);
    var stripped := Text.Strip(full);
    if stripped != "" then stripped else u.email
  }

  /** Joined by a space, two strings are all whitespace exactly when both are. */
  lemma AllSpaceJoin(a: string, b: string)
    ensures Text.AllSpace(a + " " + b) <==> Text.AllSpace(a) && Text.AllSpace(b)
  {
    var s := a + " " + b;
    if Text.AllSpace(s) {
      forall i | 0 <= i < |a| ensures Text.IsSpace(a[i]) { assert s[i] == a[i]; }
      forall i | 0 <= i < |b| ensures Text.IsSpace(b[i]) { assert s[|a| + 1 + i] == b[i]; }
    }
  }

  /** `__str__`: a user is shown by the email that identifies it. */
  function ToString(u: User): string
  {
    u.email
  }

  /** A user with blank first and last names has the same full name as string form. */
  lemma FullNameFallsBackToStr(u: User)
    requires Text.AllSpace(u.firstName) && Text.AllSpace(u.lastName)
    ensures FullName(u) == ToString(u)
  {
  }

  /** `UserManager`: creates users and writes them to storage. */
  class UserManager {
    /** The users this manager has saved, oldest first. */
    var saved: seq<User>

    constructor ()
      ensures saved == []
    {
      saved := [];
    }

    /** `create_user`: check the email, build the user, set its password, save it. */
    method CreateUser(normalize: string -> string, email: Option<string>, password: Option<string>,
                      phoneNumber: Option<string>, extra: ExtraFields) returns (r: Result<User, ValueError>)
      requires PhoneNumber !in extra
      modifies this
      ensures r == CreateUserResult(normalize, email, password, phoneNumber, extra)
      ensures saved == if r.Ok? then old(saved) + [r.value] else old(saved)
    {
      if email.None? || email.value == "" {
        return Err(ValueError(EmailRequired));
      }
      var normalized := normalize(email.value);
      var user := User(
        email := normalized,
        username := TextField(extra, Username),
        phoneNumber := phoneNumber,
        firstName := TextField(extra, FirstName).GetOr(""),
        lastName := TextField(extra, LastName).GetOr(""),
        isActive := FlagField(extra, IsActive, true),
        isStaff := FlagField(extra, IsStaff, false),
        isSuperuser := FlagField(extra, IsSuperuser, false),
        password := Unusable);
      user := user.(password := if password.None? then Unusable else HashOf(password.value));
      saved := saved + [user];
      return Ok(user);
    }

    /** `create_superuser`: `setdefault` both flags, check them in order, then `create_user`. */
    method CreateSuperuser(normalize: string -> string, email: Option<string>, password: Option<string>,
                           extra: ExtraFields) returns (r: Result<User, ValueError>)
      modifies this
      ensures r == CreateSuperuserResult(normalize, email, password, extra)
      ensures r.Ok? ==> r.value.isStaff && r.value.isSuperuser
      ensures saved == if r.Ok? then old(saved) + [r.value] else old(saved)
    {
      var fields := extra;
      if IsStaff !in fields {
        fields := fields[IsStaff := Flag(true)];
      }
      if IsSuperuser !in fields {
        fields := fields[IsSuperuser := Flag(true)];
      }
      if !Truthy(fields[IsStaff]) {
        return Err(ValueError(MustBeStaff));
      }
      if !Truthy(fields[IsSuperuser]) {
        return Err(ValueError(MustBeSuperuser));
      }
      r := CreateUser(normalize, email, password, TextField(fields, PhoneNumber), fields - {PhoneNumber});
    }
  }
}
