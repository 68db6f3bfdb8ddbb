/** The order app's forms (core/order/forms.py): the phone challenge form
    with its clean_phone, and the checkout form whose fields come straight
    from the Order model. */
module OrderForms {
  import opened Common
  import opened OrderModels

  /** The errors a bound form can report for one field. */
  datatype FieldError = FieldInvalid(e: CharError) | InvalidPhone

  /** An Iranian mobile number as both phone validators spell it out:
      digits only, exactly 11 of them, starting with "09". */
  predicate IsMobileNumber(phone: string) {
    IsDigits(phone) && |phone| == 11 && StartsWith(phone, "09")
  }

  /** PhoneVerificationForm.clean_phone: the cleaned value is handed back
      unchanged when it is a mobile number; anything else raises the one
      ValidationError the form has. */
  function CleanPhone(phone: string): (r: Result<string, FieldError>)
    ensures r.Ok? <==> IsMobileNumber(phone)
    ensures r.Ok? ==> r.value == phone
    ensures r.Err? ==> r.error == InvalidPhone
  {
    if IsDigits(phone) && |phone| == 11 && StartsWith(phone, "09") then Ok(phone) else Err(InvalidPhone)
  }

  /** PhoneVerificationForm(request.POST).is_valid() with cleaned_data["phone"]:
      the CharField(max_length=11) strips and bounds the value first, and
      clean_phone runs only when that succeeded. */
  function ValidatePhoneForm(raw: Option<string>): (r: Result<string, FieldError>)
    ensures r.Ok? <==> raw.Some? && IsMobileNumber(Strip(raw.value))
    ensures r.Ok? ==> r.value == Strip(raw.value)
    ensures raw.None? ==> r == Err(FieldInvalid(Required))
  {
    match CleanCharField(raw, 11)
    case Err(e) => Err(FieldInvalid(e))
    case Ok(phone) => CleanPhone(phone)
  }

  /** Surrounding whitespace is dropped before the rules apply, so a padded
      mobile number is accepted and stored without the padding. */
  lemma PaddedPhoneAccepted()
    ensures ValidatePhoneForm(Some(" 09123456789\n")) == Ok("09123456789")
  {
    var raw := " 09123456789\n";
    assert StripLeft(raw) == "09123456789\n" by {
      assert raw[1..] == "09123456789\n";
    }
    assert Strip(raw) == "09123456789" by {
      assert "09123456789\n"[..11] == "09123456789";
    }
    assert IsMobileNumber("09123456789");
  }

  // ---------------------------------------------------------------------------
  // OrderCreateForm
  // ---------------------------------------------------------------------------

  /** The fields of OrderCreateForm, in declaration order, with the
      max_length of each Order column behind it; all of them are required
      because none is blank=True. */
  const OrderFields: seq<(string, nat)> := [
    ("first_name", 100), ("last_name", 100), ("phone", 11), ("address", 250),
    ("postal_code", 10), ("city", 50), ("province", 50)]

  /** One field of the POST data through its forms.CharField. */
  function CleanField(data: map<string, string>, name: string, maxLength: nat): Result<string, CharError> {
    CleanCharField(if name in data then Some(data[name]) else None, maxLength)
  }

  predicate FieldClean(data: map<string, string>, field: (string, nat)) {
    CleanField(data, field.0, field.1).Ok?
  }

  /** form.errors over the given fields: each failing field with its error. */
  function FormErrors(data: map<string, string>, fields: seq<(string, nat)>): (r: map<string, CharError>)
    ensures r == map[] <==> forall i :: 0 <= i < |fields| ==> FieldClean(data, fields[i])
    ensures forall i :: 0 <= i < |fields| && !FieldClean(data, fields[i]) ==> fields[i].0 in r
    ensures forall name :: name in r ==> exists i :: 0 <= i < |fields| && fields[i].0 == name && !FieldClean(data, fields[i])
  {
    if fields == [] then map[]
    else
      var rest := FormErrors(data, fields[1..]);
      var first := CleanField(data, fields[0].0, fields[0].1);
      assert forall i :: 1 <= i < |fields| ==> fields[i] == fields[1..][i - 1];
      if first.Err? then
        assert fields[0].0 in rest[fields[0].0 := first.error];
        rest[fields[0].0 := first.error]
      else rest
  }

  /** OrderCreateForm(request.POST): valid exactly when every field is
      present, non-blank after stripping, within its column's length and
      free of NUL characters, and then the order contact holds the stripped values; otherwise
      form.errors names the failing fields. The form has no clean_phone, so
      the phone is only bounded in length. */
  function CleanOrderForm(data: map<string, string>): (r: Result<OrderContact, map<string, CharError>>)
    ensures r.Ok? <==> forall i :: 0 <= i < |OrderFields| ==> FieldClean(data, OrderFields[i])
    ensures r.Err? ==> r.error == FormErrors(data, OrderFields) && r.error != map[]
    ensures r.Ok? ==> && "first_name" in data && "last_name" in data && "phone" in data && "address" in data
                      && "postal_code" in data && "city" in data && "province" in data
    ensures r.Ok? ==> && r.value.firstName == Strip(data["first_name"]) && r.value.lastName == Strip(data["last_name"])
                      && r.value.phone == Strip(data["phone"]) && r.value.address == Strip(data["address"])
                      && r.value.postalCode == Strip(data["postal_code"]) && r.value.city == Strip(data["city"])
                      && r.value.province == Strip(data["province"])
    ensures r.Ok? ==> 0 < |r.value.phone| <= 11 && 0 < |r.value.postalCode| <= 10
  {
    var errors := FormErrors(data, OrderFields);
    if errors == map[] then
      assert FieldClean(data, OrderFields[0]) && FieldClean(data, OrderFields[1]);
      assert FieldClean(data, OrderFields[2]) && FieldClean(data, OrderFields[3]);
      assert FieldClean(data, OrderFields[4]) && FieldClean(data, OrderFields[5]);
      assert FieldClean(data, OrderFields[6]);
      Ok(OrderContact(
        CleanField(data, "first_name", 100).value, CleanField(data, "last_name", 100).value,
        CleanField(data, "phone", 11).value, CleanField(data, "address", 250).value,
        CleanField(data, "postal_code", 10).value, CleanField(data, "city", 50).value,
        CleanField(data, "province", 50).value))
    else
      Err(errors)
  }

  /** A checkout phone that is no mobile number at all ("abc") passes the
      checkout form, while the phone challenge form refuses it. */
  lemma CheckoutPhoneOnlyLengthLimited(data: map<string, string>)
    requires forall i :: 0 <= i < |OrderFields| && i != 2 ==> FieldClean(data, OrderFields[i])
    requires "phone" in data && data["phone"] == "abc"
    ensures CleanOrderForm(data).Ok? && CleanOrderForm(data).value.phone == "abc"
    ensures ValidatePhoneForm(Some("abc")) == Err(InvalidPhone)
  {
    assert Strip("abc") == "abc";
    assert !IsAsciiDigit("abc"[0]);
    assert CleanField(data, "phone", 11) == Ok("abc");
  }
}
