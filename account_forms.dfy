/** The phone validation of the account forms (core/account/forms.py).
    ShopUserChangeForm.clean_phone checks, in order: that no other account
    holds the number (only for a saved instance), that it is all digits,
    that it starts with "09" and that it has 11 characters.
    ShopUserCreationForm declares the same method inside its Meta class,
    where Django never calls it. */
module AccountForms {
  import opened Common
  import OrderForms

  /** The four ValidationErrors, in the order they are checked. */
  datatype PhoneError = InUse | NotDigits | BadPrefix | BadLength

  /** ShopUser.objects.filter(phone=phone).exclude(pk=pk).exists(), over the
      stored (pk, phone) pairs. */
  predicate TakenByOther(users: set<(nat, string)>, pk: nat, phone: string) {
    exists u :: u in users && u.1 == phone && u.0 != pk
  }

  /** `if self.instance.pk:` — a saved instance has a truthy primary key. */
  predicate IsSaved(instancePk: Option<nat>) {
    instancePk.Some? && instancePk.value != 0
  }

  /** ShopUserChangeForm.clean_phone with the instance's primary key and the
      stored accounts as inputs. */
  function CleanPhone(instancePk: Option<nat>, phone: string, users: set<(nat, string)>): (r: Result<string, PhoneError>)
    ensures r == Err(InUse) <==> IsSaved(instancePk) && TakenByOther(users, instancePk.value, phone)
    ensures r.Ok? ==> r.value == phone && OrderForms.IsMobileNumber(phone)
  {
    if IsSaved(instancePk) && TakenByOther(users, instancePk.value, phone) then Err(InUse)
    else if !IsDigits(phone) then Err(NotDigits)
    else if !StartsWith(phone, "09") then Err(BadPrefix)
    else if |phone| != 11 then Err(BadLength)
    else Ok(phone)
  }

  /** The first failing check decides the error, and a number that passes
      every check is accepted unchanged. */
  lemma CleanPhonePrecedence(instancePk: Option<nat>, phone: string, users: set<(nat, string)>)
    ensures var dup := IsSaved(instancePk) && TakenByOther(users, instancePk.value, phone);
      && (!dup && !IsDigits(phone) <==> CleanPhone(instancePk, phone, users) == Err(NotDigits))
      && (!dup && IsDigits(phone) && !StartsWith(phone, "09") <==> CleanPhone(instancePk, phone, users) == Err(BadPrefix))
      && (!dup && IsDigits(phone) && StartsWith(phone, "09") && |phone| != 11 <==> CleanPhone(instancePk, phone, users) == Err(BadLength))
      && (!dup && OrderForms.IsMobileNumber(phone) <==> CleanPhone(instancePk, phone, users) == Ok(phone))
  {
  }

  /** The duplicate test never fires for an unsaved instance, and for a
      saved one it ignores the instance's own row: keeping one's own number
      is not a clash. */
  lemma DuplicateCheckScope(instancePk: Option<nat>, phone: string, users: set<(nat, string)>)
    ensures !IsSaved(instancePk) ==> CleanPhone(instancePk, phone, users) != Err(InUse)
    ensures IsSaved(instancePk) && users == {(instancePk.value, phone)} ==> CleanPhone(instancePk, phone, users) != Err(InUse)
  {
    if IsSaved(instancePk) && users == {(instancePk.value, phone)} {
      assert !TakenByOther(users, instancePk.value, phone);
    }
  }

  /** Apart from the duplicate test, the account validator accepts exactly
      the numbers the phone challenge form accepts. */
  lemma AgreesWithChallengeForm(instancePk: Option<nat>, phone: string, users: set<(nat, string)>)
    requires !(IsSaved(instancePk) && TakenByOther(users, instancePk.value, phone))
    ensures CleanPhone(instancePk, phone, users).Ok? <==> OrderForms.CleanPhone(phone).Ok?
  {
  }

  /** How the creation form can refuse the phone: the CharField's own rules
      (required, max_length=11 from the model, no NUL character), a
      clean_phone error, or validate_unique finding the number stored on
      another account (the column is unique=True). */
  datatype CreationError = FieldRule(rule: CharError) | HookRule(hook: PhoneError) | NotUnique

  /** ShopUser.objects.filter(phone=phone).exists(), over the stored
      (pk, phone) pairs. */
  predicate PhoneStored(users: set<(nat, string)>, phone: string) {
    exists u :: u in users && u.1 == phone
  }

  /** ShopUserCreationForm's phone as written: clean_phone is a method of
      the Meta class, where Django never looks for a clean_<field> hook, so
      the cleaned CharField value goes straight to the uniqueness check. */
  function CreationFormCleanPhoneAsWritten(raw: Option<string>, users: set<(nat, string)>): (r: Result<string, CreationError>)
    ensures r.Ok? <==> CleanCharField(raw, 11).Ok? && !PhoneStored(users, Strip(raw.value))
    ensures r.Ok? ==> r.value == Strip(raw.value)
  {
    match CleanCharField(raw, 11)
    case Err(e) => Err(FieldRule(e))
    case Ok(phone) => if PhoneStored(users, phone) then Err(NotUnique) else Ok(phone)
  }

  /** The creation form as it was evidently meant: between the field rules
      and the uniqueness check runs the same hook as the change form, on an
      instance that is not saved yet. */
  function CreationFormCleanPhone(raw: Option<string>, users: set<(nat, string)>): (r: Result<string, CreationError>)
    ensures r.Ok? <==> raw.Some? && OrderForms.IsMobileNumber(Strip(raw.value)) && !PhoneStored(users, Strip(raw.value))
    ensures r.Ok? ==> r.value == Strip(raw.value)
  {
    match CleanCharField(raw, 11)
    case Err(e) => Err(FieldRule(e))
    case Ok(phone) =>
      match CleanPhone(None, phone, users)
      case Err(e) => Err(HookRule(e))
      case Ok(_) => if PhoneStored(users, phone) then Err(NotUnique) else Ok(phone)
  }

  /** The intended form accepts only what the form as written accepts, and
      the same value; what the misplaced hook loses is exactly the format
      rules: as written, any non-blank value of at most 11 characters without
      NUL that no account holds yet is accepted. */
  lemma CreationFormIntendedIsStricter(raw: Option<string>, users: set<(nat, string)>)
    ensures CreationFormCleanPhone(raw, users).Ok? ==> CreationFormCleanPhoneAsWritten(raw, users) == CreationFormCleanPhone(raw, users)
    ensures CreationFormCleanPhoneAsWritten(raw, users).Ok? && !OrderForms.IsMobileNumber(Strip(raw.value)) ==>
      CreationFormCleanPhone(raw, users).Err?
  {
  }

  /** The mis-nested hook lets a non-numeric phone through where the
      intended one refuses it as not all digits. */
  lemma CreationFormSkipsPhoneRules()
    ensures CreationFormCleanPhoneAsWritten(Some("abc"), {}) == Ok("abc")
    ensures CreationFormCleanPhone(Some("abc"), {}) == Err(HookRule(NotDigits))
  {
    assert Strip("abc") == "abc";
    assert !IsAsciiDigit("abc"[0]);
  }

  /** Both forms refuse a blank phone and a number another account holds. */
  lemma CreationFormRefusals()
    ensures CreationFormCleanPhoneAsWritten(Some("  "), {}) == Err(FieldRule(Required))
    ensures CreationFormCleanPhoneAsWritten(Some("09123456789"), {(1, "09123456789")}) == Err(NotUnique)
    ensures CreationFormCleanPhone(Some("09123456789"), {(1, "09123456789")}) == Err(NotUnique)
  {
    assert StripLeft("  ") == "" by {
      assert "  "[1..] == " ";
      assert " "[1..] == "";
    }
    assert Strip("09123456789") == "09123456789";
    assert OrderForms.IsMobileNumber("09123456789");
    assert PhoneStored({(1, "09123456789")}, "09123456789") by {
      assert (1, "09123456789") in {(1, "09123456789")};
    }
  }
}
