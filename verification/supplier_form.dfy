/** The supplier form (`src/components/forms/SupplierForm.tsx`): its schema
    and the initial values the form starts from. The e-mail check of the
    schema is a regular expression inside the validation library; it is a
    parameter `isEmail` here. */
module SupplierForm {
  import opened Wrappers
  import opened Seqs

  datatype SupplierFormData = SupplierFormData(
    name: string,
    contactPerson: string,
    email: string,
    phone: string,
    productCategory: string,
    rating: real)

  datatype Field =
    | NameField | ContactPersonField | EmailField | PhoneField
    | ProductCategoryField | RatingField

  /** The fields in the order the schema declares them. */
  const SupplierFields: seq<Field> :=
    [NameField, ContactPersonField, EmailField, PhoneField, ProductCategoryField, RatingField]

  /** The check each field must pass. */
  predicate FieldOk(d: SupplierFormData, isEmail: string -> bool, f: Field) {
    match f
    case NameField => |d.name| >= 2
    case ContactPersonField => |d.contactPerson| >= 2
    case EmailField => isEmail(d.email)
    case PhoneField => |d.phone| >= 10
    case ProductCategoryField => |d.productCategory| >= 2
    case RatingField => 1.0 <= d.rating <= 5.0
  }

  /** The rejected fields of a supplier form: name, contact person and product
      category need at least 2 characters, the phone at least 10, the e-mail
      must pass `isEmail`, and the rating must lie in [1, 5]. */
  function SupplierIssues(d: SupplierFormData, isEmail: string -> bool): (r: seq<Field>)
    ensures NameField in r <==> |d.name| < 2
    ensures ContactPersonField in r <==> |d.contactPerson| < 2
    ensures EmailField in r <==> !isEmail(d.email)
    ensures PhoneField in r <==> |d.phone| < 10
    ensures ProductCategoryField in r <==> |d.productCategory| < 2
    ensures RatingField in r <==> d.rating < 1.0 || d.rating > 5.0
    ensures |r| <= 6
  {
    Filter(SupplierFields, f => !FieldOk(d, isEmail, f))
  }

  /** `supplierSchema.safeParse`: the payload passes through unchanged. */
  function ValidateSupplier(d: SupplierFormData, isEmail: string -> bool)
    : (r: Result<SupplierFormData, seq<Field>>)
    ensures r.Success? <==>
              && |d.name| >= 2 && |d.contactPerson| >= 2 && isEmail(d.email)
              && |d.phone| >= 10 && |d.productCategory| >= 2
              && 1.0 <= d.rating <= 5.0
    ensures r.Success? ==> r.value == d
    ensures r.Failure? ==> r.error == SupplierIssues(d, isEmail) && r.error != []
  {
    var issues := SupplierIssues(d, isEmail);
    if issues == [] then Success(d) else Failure(issues)
  }

  /** Both ends of the rating range are accepted; one step outside is not. */
  lemma RatingBoundary(d: SupplierFormData, isEmail: string -> bool)
    requires |d.name| >= 2 && |d.contactPerson| >= 2 && isEmail(d.email)
    requires |d.phone| >= 10 && |d.productCategory| >= 2
    ensures ValidateSupplier(d.(rating := 1.0), isEmail).Success?
    ensures ValidateSupplier(d.(rating := 5.0), isEmail).Success?
    ensures ValidateSupplier(d.(rating := 0.0), isEmail) == Failure([RatingField])
    ensures ValidateSupplier(d.(rating := 6.0), isEmail) == Failure([RatingField])
  {
    var lo := d.(rating := 0.0);
    assert SupplierIssues(lo, isEmail) == [RatingField];
    assert ValidateSupplier(lo, isEmail).Failure?;
    var hi := d.(rating := 6.0);
    assert SupplierIssues(hi, isEmail) == [RatingField];
    assert ValidateSupplier(hi, isEmail).Failure?;
  }

  /** The fields a caller may preset (`defaultValues?: Partial<...>`). */
  datatype SupplierDefaults = SupplierDefaults(
    name: Option<string>,
    contactPerson: Option<string>,
    email: Option<string>,
    phone: Option<string>,
    productCategory: Option<string>,
    rating: Option<real>)

  /** The form's initial values: every field empty and a rating of 5, then
      overwritten by whatever the caller preset. */
  function InitialValues(p: SupplierDefaults): (d: SupplierFormData)
    ensures d.name == p.name.GetOr("")
    ensures d.contactPerson == p.contactPerson.GetOr("")
    ensures d.email == p.email.GetOr("")
    ensures d.phone == p.phone.GetOr("")
    ensures d.productCategory == p.productCategory.GetOr("")
    ensures d.rating == p.rating.GetOr(5.0)
  {
    var base := SupplierFormData("", "", "", "", "", 5.0);
    SupplierFormData(
      if p.name.Some? then p.name.value else base.name,
      if p.contactPerson.Some? then p.contactPerson.value else base.contactPerson,
      if p.email.Some? then p.email.value else base.email,
      if p.phone.Some? then p.phone.value else base.phone,
      if p.productCategory.Some? then p.productCategory.value else base.productCategory,
      if p.rating.Some? then p.rating.value else base.rating)
  }

  const NoDefaults := SupplierDefaults(None, None, None, None, None, None)

  /** An untouched form has a valid rating but cannot be submitted: its empty
      name, contact person, phone and category are all rejected. */
  lemma BlankFormRejected(isEmail: string -> bool)
    ensures RatingField !in SupplierIssues(InitialValues(NoDefaults), isEmail)
    ensures NameField in SupplierIssues(InitialValues(NoDefaults), isEmail)
    ensures ValidateSupplier(InitialValues(NoDefaults), isEmail).Failure?
  {
  }
}
