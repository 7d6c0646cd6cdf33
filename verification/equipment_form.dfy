/** The equipment form (`src/components/forms/EquipmentForm.tsx`): its schema
    and the initial values the form starts from. */
module EquipmentForm {
  import opened Wrappers
  import opened Seqs

  datatype EquipmentStatus = Operational | Maintenance | RequiresRepair | Decommissioned

  /** `z.enum(['Operational', 'Maintenance', 'Requires Repair', 'Decommissioned'])`. */
  function ParseStatus(s: string): (r: Option<EquipmentStatus>)
    ensures r.Some? <==> s in {"Operational", "Maintenance", "Requires Repair", "Decommissioned"}
  {
    if s == "Operational" then Some(Operational)
    else if s == "Maintenance" then Some(Maintenance)
    else if s == "Requires Repair" then Some(RequiresRepair)
    else if s == "Decommissioned" then Some(Decommissioned)
    else None
  }

  function StatusName(st: EquipmentStatus): string {
    match st
    case Operational => "Operational"
    case Maintenance => "Maintenance"
    case RequiresRepair => "Requires Repair"
    case Decommissioned => "Decommissioned"
  }

  /** Naming a status and reading it back gives the same status, so the four
      enum values are distinct strings. */
  lemma StatusRoundTrip(st: EquipmentStatus)
    ensures ParseStatus(StatusName(st)) == Some(st)
  {
  }

  datatype EquipmentInput = EquipmentInput(
    name: string,
    kind: string,
    status: string,
    location: string,
    assignedTo: Option<string>)

  datatype EquipmentFormData = EquipmentFormData(
    name: string,
    kind: string,
    status: EquipmentStatus,
    location: string,
    assignedTo: Option<string>)

  datatype Field = NameField | TypeField | StatusField | LocationField

  /** The keys of the schema that can be rejected, in declared order. */
  const EquipmentFields: seq<Field> := [NameField, TypeField, StatusField, LocationField]

  /** The check each field must pass. */
  predicate FieldOk(x: EquipmentInput, f: Field) {
    match f
    case NameField => |x.name| >= 2
    case TypeField => |x.kind| >= 2
    case StatusField => ParseStatus(x.status).Some?
    case LocationField => |x.location| >= 2
  }

  /** The rejected fields of an equipment form: name, type and location need
      at least 2 characters and the status must be one of the four values;
      `assignedTo` is optional and any string is accepted. */
  function EquipmentIssues(x: EquipmentInput): (r: seq<Field>)
    ensures NameField in r <==> |x.name| < 2
    ensures TypeField in r <==> |x.kind| < 2
    ensures StatusField in r <==>
              x.status !in {"Operational", "Maintenance", "Requires Repair", "Decommissioned"}
    ensures LocationField in r <==> |x.location| < 2
    ensures |r| <= 4
  {
    Filter(EquipmentFields, f => !FieldOk(x, f))
  }

  /** `equipmentSchema.safeParse`. */
  function ValidateEquipment(x: EquipmentInput): (r: Result<EquipmentFormData, seq<Field>>)
    ensures r.Success? <==>
              && |x.name| >= 2 && |x.kind| >= 2 && |x.location| >= 2
              && x.status in {"Operational", "Maintenance", "Requires Repair", "Decommissioned"}
    ensures r.Success? ==>
              && r.value.name == x.name && r.value.kind == x.kind
              && StatusName(r.value.status) == x.status
              && r.value.location == x.location && r.value.assignedTo == x.assignedTo
    ensures r.Failure? ==> r.error == EquipmentIssues(x) && r.error != []
  {
    var issues := EquipmentIssues(x);
    if issues == [] then
      Success(EquipmentFormData(x.name, x.kind, ParseStatus(x.status).value,
                                x.location, x.assignedTo))
    else
      Failure(issues)
  }

  /** Whatever `assignedTo` holds, including nothing or the empty string,
      never decides acceptance. */
  lemma AssignedToIsFree(x: EquipmentInput, a: Option<string>)
    ensures ValidateEquipment(x.(assignedTo := a)).Success? <==> ValidateEquipment(x).Success?
  {
  }

  /** The fields a caller may preset (`defaultValues?: Partial<...>`). */
  datatype EquipmentDefaults = EquipmentDefaults(
    name: Option<string>,
    kind: Option<string>,
    status: Option<string>,
    location: Option<string>,
    assignedTo: Option<string>)

  /** The form's initial values: empty texts, status 'Operational' and an
      empty assignee, then overwritten by whatever the caller preset. */
  function InitialValues(p: EquipmentDefaults): (x: EquipmentInput)
    ensures x.name == p.name.GetOr("")
    ensures x.kind == p.kind.GetOr("")
    ensures x.status == p.status.GetOr("Operational")
    ensures x.location == p.location.GetOr("")
    ensures x.assignedTo == Some(p.assignedTo.GetOr(""))
  {
    EquipmentInput(
      if p.name.Some? then p.name.value else "",
      if p.kind.Some? then p.kind.value else "",
      if p.status.Some? then p.status.value else "Operational",
      if p.location.Some? then p.location.value else "",
      Some(if p.assignedTo.Some? then p.assignedTo.value else ""))
  }

  /** The default status is one of the enum values, so a form whose texts are
      filled in passes with status Operational. */
  lemma DefaultStatusAccepted(name: string, kind: string, location: string)
    requires |name| >= 2 && |kind| >= 2 && |location| >= 2
    ensures
      var x := InitialValues(EquipmentDefaults(Some(name), Some(kind), None, Some(location), None));
      StatusField !in EquipmentIssues(x) &&
      ValidateEquipment(x) == Success(EquipmentFormData(name, kind, Operational, location, Some("")))
  {
  }
}
