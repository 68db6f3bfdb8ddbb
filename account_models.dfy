/** The account app's models: the user manager's create_user and
    create_superuser (core/account/models.py) and the ShopUser record. */
module AccountModels {
  import opened Common

  /** What create_user hands to the model constructor: the normalised email,
      the password given to set_password, and the remaining keyword fields. */
  datatype NewUser = NewUser(email: string, password: Option<string>, fields: map<string, PyValue>)

  /** BaseUserManager.normalize_email: when the stripped address contains an
      '@', the part after the last '@' is lower-cased; otherwise the address is
      returned untouched (not even stripped). */
  function NormalizeEmail(email: string): string {
    var s := Strip(email);
    match LastIndexOf(s, '@')
    case None => email
    case Some(k) => s[..k] + "@" + Lower(s[k + 1..])
  }

  /** The email create_user stores: the normalised address lower-cased as a whole. */
  function StoredEmail(email: string): string {
    Lower(NormalizeEmail(email))
  }

  /** Lower-casing after lower-casing the domain alone gives the same address. */
  lemma {:induction false} LowerAfterDomain(name: string, domain: string)
    ensures Lower(name + "@" + Lower(domain)) == Lower(name + "@" + domain)
  {
    LowerConcat(name + "@", Lower(domain));
    LowerConcat(name + "@", domain);
    LowerIdempotent(domain);
  }

  lemma NormalizeWithAt(email: string)
    requires '@' in Strip(email)
    ensures StoredEmail(email) == Lower(Strip(email))
  {
    var s := Strip(email);
    var at := LastIndexOf(s, '@');
    var k := at.value;
    var name, domain := s[..k], s[k + 1..];
    assert s == name + "@" + domain by {
      assert s == s[..k] + s[k..];
      assert s[k..] == [s[k]] + s[k + 1..];
    }
    assert NormalizeEmail(email) == name + "@" + Lower(domain);
    LowerAfterDomain(name, domain);
  }

  /** Lower-casing the whole address makes the domain step of normalize_email
      redundant: the stored email is the lower-cased address, stripped exactly
      when it contains an '@', and it holds no upper-case ASCII letter. */
  lemma StoredEmailIsLowered(email: string)
    ensures StoredEmail(email) == if '@' in email then Lower(Strip(email)) else Lower(email)
    ensures forall i :: 0 <= i < |StoredEmail(email)| ==> !('A' <= StoredEmail(email)[i] <= 'Z')
  {
    StripKeepsNonSpace(email, '@');
    if '@' in email {
      NormalizeWithAt(email);
    }
    LowerIdempotent(NormalizeEmail(email));
  }

  /** ShopUserManager.create_user(email, password=None, **extra_fields). The
      argument email is required: a call that leaves it out (None here) raises
      TypeError before anything is created. */
  function CreateUser(email: Option<string>, password: Option<string>, extraFields: map<string, PyValue>): (r: Result<NewUser, PyError>)
    ensures email.None? <==> r == Err(TypeError)
    ensures email.Some? ==> r.Ok? && r.value.email == StoredEmail(email.value)
    ensures email.Some? ==> r.value.password == password && r.value.fields == extraFields
  {
    if email.None? then Err(TypeError)
    else Ok(NewUser(StoredEmail(email.value), password, extraFields))
  }

  /** The two ValueErrors create_superuser raises. */
  datatype SuperuserError = StaffRequired | SuperuserRequired

  /** dict.setdefault(key, value) on a keyword-argument dictionary. */
  function SetDefault(fields: map<string, PyValue>, key: string, value: PyValue): (r: map<string, PyValue>)
    ensures key in r && r[key] == (if key in fields then fields[key] else value)
    ensures forall k :: k in fields ==> k in r && r[k] == fields[k]
    ensures r.Keys == fields.Keys + {key}
  {
    if key in fields then fields else fields[key := value]
  }

  /** setdefault on one keyword leaves the stored value of every other flag. */
  lemma StoredFlagBesideDefault(fields: map<string, PyValue>, key: string, value: PyValue, flag: string, default: bool)
    requires flag != key
    ensures StoredFlag(SetDefault(fields, key, value), flag, default) == StoredFlag(fields, flag, default)
  {
  }

  /** setdefault with the field default itself leaves the stored flag. */
  lemma StoredFlagOwnDefault(fields: map<string, PyValue>, flag: string, default: bool)
    ensures StoredFlag(SetDefault(fields, flag, PyBool(default)), flag, default) == StoredFlag(fields, flag, default)
  {
  }

  /** ShopUserManager.create_superuser(email, password, **extra_fields): the
      three flags default to True, then is_staff and after it is_superuser must
      be the value True itself (an identity test: 1 or "yes" are refused);
      is_active is not checked. */
  method CreateSuperuser(email: string, password: Option<string>, extraFields: map<string, PyValue>)
    returns (r: Result<NewUser, SuperuserError>)
    ensures "is_staff" in extraFields && extraFields["is_staff"] != PyBool(true) ==> r == Err(StaffRequired)
    ensures && ("is_staff" !in extraFields || extraFields["is_staff"] == PyBool(true))
            && "is_superuser" in extraFields && extraFields["is_superuser"] != PyBool(true)
            ==> r == Err(SuperuserRequired)
    ensures r.Ok? <==> (forall flag :: flag in {"is_staff", "is_superuser"} && flag in extraFields ==> extraFields[flag] == PyBool(true))
    ensures r.Ok? ==> r.value.email == StoredEmail(email) && r.value.password == password
    ensures r.Ok? ==> forall k :: k in extraFields ==> k in r.value.fields && r.value.fields[k] == extraFields[k]
    ensures r.Ok? ==> r.value.fields.Keys == extraFields.Keys + {"is_staff", "is_superuser", "is_active"}
    ensures r.Ok? ==> r.value.fields["is_staff"] == PyBool(true) && r.value.fields["is_superuser"] == PyBool(true)
    ensures r.Ok? && "is_active" !in extraFields ==> r.value.fields["is_active"] == PyBool(true)
    ensures r.Ok? && extraFields.Keys <= ShopUserAttributes && StoredFlag(extraFields, "is_active", true).Ok?
            && StoredFlag(extraFields, "is_verified", false).Ok? ==>
      StoredFlags(r.value.fields) == Ok(Flags(true, true, StoredFlag(extraFields, "is_active", true).value,
                                              StoredFlag(extraFields, "is_verified", false).value))
  {
    var withStaff := SetDefault(extraFields, "is_staff", PyBool(true));
    var withSuperuser := SetDefault(withStaff, "is_superuser", PyBool(true));
    var fields := SetDefault(withSuperuser, "is_active", PyBool(true));
    if fields["is_staff"] != PyBool(true) {
      return Err(StaffRequired);
    }
    if fields["is_superuser"] != PyBool(true) {
      return Err(SuperuserRequired);
    }
    var created := CreateUser(Some(email), password, fields);
    r := Ok(created.value);
    StoredFlagBesideDefault(extraFields, "is_staff", PyBool(true), "is_active", true);
    StoredFlagBesideDefault(withStaff, "is_superuser", PyBool(true), "is_active", true);
    StoredFlagOwnDefault(withSuperuser, "is_active", true);
    StoredFlagBesideDefault(extraFields, "is_staff", PyBool(true), "is_verified", false);
    StoredFlagBesideDefault(withStaff, "is_superuser", PyBool(true), "is_verified", false);
    StoredFlagBesideDefault(withSuperuser, "is_active", PyBool(true), "is_verified", false);
  }

  /** The field names create_user is expected to pass: those account/models.py
      declares plus those AbstractBaseUser and PermissionsMixin contribute.
      Model.__init__ also takes the pk property and reverse-relation names,
      which this set leaves out. */
  const ShopUserAttributes: set<string> :=
    {"id", "email", "phone", "date_joined", "is_staff", "is_superuser", "is_active", "is_verified",
     "password", "last_login", "groups", "user_permissions"}

  /** BooleanField.to_python for a field that is not nullable: True and
      False, and the numbers equal to them, are taken as they are; the
      strings "t", "True", "1" and "f", "False", "0" are read as the flag
      they name; anything else is refused (None here). */
  function BooleanValue(v: PyValue): (r: Option<bool>)
    ensures v.PyBool? ==> r == Some(v.b)
    ensures r.Some? ==> !v.PyNone? && !v.PyContainer?
    ensures v.PyStr? && r.Some? ==> |v.s| == 1 || v.s in {"True", "False"}
  {
    match v
    case PyBool(b) => Some(b)
    case PyInt(i) => if i == 1 then Some(true) else if i == 0 then Some(false) else None
    case PyFloat(x) => if x == 1.0 then Some(true) else if x == 0.0 then Some(false) else None
    case PyStr(s) =>
      if s in {"t", "True", "1"} then Some(true)
      else if s in {"f", "False", "0"} then Some(false)
      else None
    case _ => None
  }

  /** The four flags of a stored account. */
  datatype Flags = Flags(isStaff: bool, isSuperuser: bool, isActive: bool, isVerified: bool)

  /** One flag of the row save() writes, taken on its own: the field default
      when the keyword is absent; a None is refused by the NOT NULL column
      (IntegrityError), a value BooleanField cannot read raises ValidationError. */
  function StoredFlag(fields: map<string, PyValue>, key: string, default: bool): (r: Result<bool, PyError>)
    ensures key !in fields ==> r == Ok(default)
    ensures key in fields ==> (r.Ok? <==> BooleanValue(fields[key]).Some?)
    ensures key in fields && r.Ok? ==> r.value == BooleanValue(fields[key]).value
    ensures key in fields && fields[key] == PyNone ==> r == Err(IntegrityError)
  {
    if key !in fields then Ok(default)
    else if fields[key] == PyNone then Err(IntegrityError)
    else match BooleanValue(fields[key])
      case None => Err(ValidationError)
      case Some(b) => Ok(b)
  }

  /** A flag keyword holding a value BooleanField cannot read; None is not
      one of them, since the conversion passes None through. */
  predicate Unreadable(fields: map<string, PyValue>, key: string) {
    key in fields && fields[key] != PyNone && BooleanValue(fields[key]).None?
  }

  /** The four flag columns, in the order account/models.py declares them. */
  const FlagKeys: set<string> := {"is_staff", "is_superuser", "is_active", "is_verified"}

  /** What self.model(email=email, **extra_fields) followed by user.save()
      makes of the keyword fields: a keyword that is not an attribute of
      ShopUser raises TypeError in the constructor; then the INSERT converts
      every column before it runs, so an unreadable flag raises
      ValidationError even beside a None, and only when all four convert does
      a None reach the NOT NULL constraint (IntegrityError). An absent flag
      takes its field default (not staff, not superuser, active, not verified). */
  function StoredFlags(fields: map<string, PyValue>): (r: Result<Flags, PyError>)
    ensures r.Ok? <==> fields.Keys <= ShopUserAttributes
                       && StoredFlag(fields, "is_staff", false).Ok? && StoredFlag(fields, "is_superuser", false).Ok?
                       && StoredFlag(fields, "is_active", true).Ok? && StoredFlag(fields, "is_verified", false).Ok?
    ensures r.Ok? ==> r.value == Flags(StoredFlag(fields, "is_staff", false).value, StoredFlag(fields, "is_superuser", false).value,
                                       StoredFlag(fields, "is_active", true).value, StoredFlag(fields, "is_verified", false).value)
    ensures !(fields.Keys <= ShopUserAttributes) ==> r == Err(TypeError)
    ensures fields.Keys <= ShopUserAttributes && (exists key :: key in FlagKeys && Unreadable(fields, key)) ==>
              r == Err(ValidationError)
    ensures fields.Keys <= ShopUserAttributes && (forall key :: key in FlagKeys ==> !Unreadable(fields, key))
            && (exists key :: key in FlagKeys && key in fields && fields[key] == PyNone) ==>
              r == Err(IntegrityError)
  {
    if !(fields.Keys <= ShopUserAttributes) then Err(TypeError)
    else
      var staff := StoredFlag(fields, "is_staff", false);
      var superuser := StoredFlag(fields, "is_superuser", false);
      var active := StoredFlag(fields, "is_active", true);
      var verified := StoredFlag(fields, "is_verified", false);
      if || staff == Err(ValidationError) || superuser == Err(ValidationError)
         || active == Err(ValidationError) || verified == Err(ValidationError)
      then Err(ValidationError)
      else if staff.Err? || superuser.Err? || active.Err? || verified.Err? then Err(IntegrityError)
      else Ok(Flags(staff.value, superuser.value, active.value, verified.value))
  }

  /** The record verify_code passes, a phone and nothing else, is stored
      with every flag at its field default. */
  lemma PhoneOnlyRecord(phone: string)
    ensures StoredFlags(map["phone" := PyStr(phone)]) == Ok(Flags(false, false, true, false))
  {
    assert map["phone" := PyStr(phone)].Keys == {"phone"};
  }

  /** A record with only a phone keeps every field default; the readable
      spellings of a flag are stored as that flag, any other is refused. */
  lemma StoredFlagsExamples()
    ensures StoredFlags(map["phone" := PyStr("09123456789")]) == Ok(Flags(false, false, true, false))
    ensures StoredFlags(map["is_staff" := PyStr("True"), "is_verified" := PyInt(1)]) == Ok(Flags(true, false, true, true))
    ensures StoredFlags(map["is_staff" := PyStr("yes")]) == Err(ValidationError)
    ensures StoredFlags(map["is_active" := PyNone]) == Err(IntegrityError)
    ensures StoredFlags(map["is_staff" := PyNone, "is_active" := PyStr("yes")]) == Err(ValidationError)
    ensures StoredFlags(map["nickname" := PyStr("x")]) == Err(TypeError)
  {
    assert "nickname" !in ShopUserAttributes;
  }

  /** A stored account. loyaltyPoints is the counter the checkout view
      increments; account/models.py declares no such field (see README,
      Findings), and the model adds it with the starting value 0. */
  class ShopUser {
    const pk: nat
    var email: string
    var phone: string
    var password: Option<string>
    var isStaff: bool
    var isSuperuser: bool
    var isActive: bool
    var isVerified: bool
    var loyaltyPoints: nat

    /** A user saved from a create_user record: the phone and the flags are
        those of the record's keyword fields, the flags as StoredFlags reads
        them. A record it refuses never becomes a row. */
    constructor (pk: nat, record: NewUser)
      requires StoredFlags(record.fields).Ok?
      requires "phone" in record.fields && record.fields["phone"].PyStr?
      ensures this.pk == pk && email == record.email && phone == record.fields["phone"].s && password == record.password
      ensures var flags := StoredFlags(record.fields).value;
        && isStaff == flags.isStaff && isSuperuser == flags.isSuperuser
        && isActive == flags.isActive && isVerified == flags.isVerified
      ensures loyaltyPoints == 0
    {
      this.pk := pk;
      email := record.email;
      phone := record.fields["phone"].s;
      password := record.password;
      var flags := StoredFlags(record.fields).value;
      isStaff, isSuperuser, isActive, isVerified := flags.isStaff, flags.isSuperuser, flags.isActive, flags.isVerified;
      loyaltyPoints := 0;
    }
  }

  /** request.user: the anonymous user or a logged-in account. */
  datatype Viewer = Anonymous | Authenticated(user: ShopUser)

  /** The objects a view may change through request.user. */
  function ViewerObjects(viewer: Viewer): set<ShopUser> {
    if viewer.Authenticated? then {viewer.user} else {}
  }
}
