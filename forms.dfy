/**
 * The maintenance-request form: the fields it exposes, its preventive
 * schedule rule, and how a submission's errors combine that rule with the
 * request's own `clean`.
 */
module Forms {
  import opened Wrappers
  import opened Models

  /** A value in the form's cleaned data, after each field has been cleaned on its own. */
  datatype FieldValue =
    | Text(s: string)
    | When(t: Timestamp)
    | EquipmentChoice(e: Equipment)
    | UserChoice(id: Id)
    | Hours(h: real)
    | Null

  /** Python truthiness of a cleaned value: empty text, zero and None are false. */
  predicate Truthy(v: FieldValue)
  {
    match v
    case Text(s) => s != ""
    case Hours(h) => h != 0.0
    case Null => false
    case _ => true
  }

  /**
   * The fields the form exposes, in its declared order. `work_center`,
   * `priority`, `team` and every other column are not among them.
   */
  datatype Field = Subject | EquipmentField | RequestTypeField | ScheduledDate | AssignedTo | StageField | Duration

  const ScheduleMessage := "Scheduled date is required for preventive maintenance."

  /** Where an error is shown: next to one field, or for the form as a whole. */
  datatype ErrorScope = NonField | OnField(field: Field)

  datatype FormError = FormError(scope: ErrorScope, message: string)

  const ScheduleError := FormError(OnField(ScheduledDate), ScheduleMessage)
  const TargetError := FormError(NonField, MissingTargetMessage)

  /** A value that field `f`'s own cleaning can produce. */
  predicate FitsField(f: Field, v: FieldValue)
  {
    match f
    case Subject => v.Text?
    case EquipmentField => v.EquipmentChoice? || v.Null?
    case RequestTypeField => v.Text? && ParseRequestType(v.s).Some?
    case ScheduledDate => v.When? || v.Null?
    case AssignedTo => v.UserChoice? || v.Null?
    case StageField => v.Text? && ParseStage(v.s).Some?
    case Duration => v.Hours?
  }

  /** Every value in the cleaned data is one its field can produce. */
  predicate WellTyped(cleaned: map<Field, FieldValue>)
  {
    forall f :: f in cleaned ==> FitsField(f, cleaned[f])
  }

  /** The preventive-schedule rule: the type is Preventive and no date was given. */
  predicate NeedsSchedule(cleaned: map<Field, FieldValue>)
  {
    && Get(cleaned, RequestTypeField) == Some(Text(TypeValue(Preventive)))
    && !(ScheduledDate in cleaned && Truthy(cleaned[ScheduledDate]))
  }

  /**
   * The cases of the rule: a Corrective type or a missing type never needs a
   * date, a given date always satisfies it, and a Preventive type with a
   * missing or null date is always flagged.
   */
  lemma NeedsScheduleCases(cleaned: map<Field, FieldValue>)
    ensures Get(cleaned, RequestTypeField) == Some(Text(TypeValue(Corrective))) ==> !NeedsSchedule(cleaned)
    ensures RequestTypeField !in cleaned ==> !NeedsSchedule(cleaned)
    ensures ScheduledDate in cleaned && cleaned[ScheduledDate].When? ==> !NeedsSchedule(cleaned)
    ensures (Get(cleaned, RequestTypeField) == Some(Text(TypeValue(Preventive))) &&
             (ScheduledDate !in cleaned || cleaned[ScheduledDate] == Null)) ==> NeedsSchedule(cleaned)
  {
  }

  /** The rule on the form's own data for a request: a Preventive request without a date, and nothing else. */
  lemma NeedsScheduleOfRequest(r: MaintenanceRequest)
    ensures NeedsSchedule(CleanedOf(r)) <==> r.requestType == Preventive && r.scheduledDate.None?
  {
  }

  /** The cleaned data a form bound to `r`'s own values produces. */
  function CleanedOf(r: MaintenanceRequest): (cleaned: map<Field, FieldValue>)
    ensures WellTyped(cleaned)
    ensures cleaned.Keys == {Subject, EquipmentField, RequestTypeField, ScheduledDate, AssignedTo, StageField, Duration}
  {
    map[
      Subject := Text(r.subject),
      EquipmentField := (if r.equipment.Some? then EquipmentChoice(r.equipment.value) else Null),
      RequestTypeField := Text(TypeValue(r.requestType)),
      ScheduledDate := (if r.scheduledDate.Some? then When(r.scheduledDate.value) else Null),
      AssignedTo := (if r.assignedTo.Some? then UserChoice(r.assignedTo.value) else Null),
      StageField := Text(StageValue(r.stage)),
      Duration := Hours(r.duration)]
  }

  /**
   * Copying cleaned data onto a request: every form field present in the
   * data is written, every other column is kept.
   */
  function ApplyForm(r: MaintenanceRequest, cleaned: map<Field, FieldValue>): (r': MaintenanceRequest)
    requires WellTyped(cleaned)
    ensures r'.workCenter == r.workCenter && r'.priority == r.priority && r'.team == r.team
    ensures r'.createdBy == r.createdBy && r'.instructions == r.instructions
    ensures Subject !in cleaned ==> r'.subject == r.subject
    ensures Subject in cleaned ==> r'.subject == cleaned[Subject].s
    ensures EquipmentField !in cleaned ==> r'.equipment == r.equipment
    ensures EquipmentField in cleaned ==> r'.equipment == ChosenEquipment(cleaned[EquipmentField])
    ensures RequestTypeField !in cleaned ==> r'.requestType == r.requestType
    ensures RequestTypeField in cleaned ==> TypeValue(r'.requestType) == cleaned[RequestTypeField].s
    ensures ScheduledDate !in cleaned ==> r'.scheduledDate == r.scheduledDate
    ensures ScheduledDate in cleaned ==> r'.scheduledDate == ChosenDate(cleaned[ScheduledDate])
    ensures AssignedTo !in cleaned ==> r'.assignedTo == r.assignedTo
    ensures AssignedTo in cleaned ==> r'.assignedTo == ChosenUser(cleaned[AssignedTo])
    ensures Duration !in cleaned ==> r'.duration == r.duration
    ensures Duration in cleaned ==> r'.duration == cleaned[Duration].h
    ensures StageField !in cleaned ==> r'.stage == r.stage
    ensures StageField in cleaned ==> StageValue(r'.stage) == cleaned[StageField].s
  {
    var subject := if Subject in cleaned then cleaned[Subject].s else r.subject;
    var equipment := if EquipmentField in cleaned then ChosenEquipment(cleaned[EquipmentField]) else r.equipment;
    var requestType := if RequestTypeField in cleaned then ChosenType(cleaned[RequestTypeField]) else r.requestType;
    var scheduledDate := if ScheduledDate in cleaned then ChosenDate(cleaned[ScheduledDate]) else r.scheduledDate;
    var assignedTo := if AssignedTo in cleaned then ChosenUser(cleaned[AssignedTo]) else r.assignedTo;
    var stage := if StageField in cleaned then ChosenStage(cleaned[StageField]) else r.stage;
    var duration := if Duration in cleaned then cleaned[Duration].h else r.duration;
    MaintenanceRequest(subject, equipment, r.workCenter, requestType, stage, r.priority, scheduledDate,
                       duration, assignedTo, r.team, r.createdBy, r.instructions)
  }

  /** The type choice whose stored value a cleaned `request_type` holds. */
  function ChosenType(v: FieldValue): (t: RequestType)
    requires FitsField(RequestTypeField, v)
    ensures TypeValue(t) == v.s
  {
    ParseRequestType(v.s).value
  }

  /** The stage choice whose stored value a cleaned `stage` holds. */
  function ChosenStage(v: FieldValue): (s: Stage)
    requires FitsField(StageField, v)
    ensures StageValue(s) == v.s
  {
    ParseStage(v.s).value
  }

  /** A cleaned model choice as a nullable reference: the chosen object, or null. */
  function ChosenEquipment(v: FieldValue): Option<Equipment>
  {
    if v.EquipmentChoice? then Some(v.e) else None
  }

  /** A cleaned date as a nullable column: the date, or null. */
  function ChosenDate(v: FieldValue): Option<Timestamp>
  {
    if v.When? then Some(v.t) else None
  }

  /** A cleaned user choice as a nullable key: the user, or null. */
  function ChosenUser(v: FieldValue): Option<Id>
  {
    if v.UserChoice? then Some(v.id) else None
  }

  /** Submitting a request's own values through the form gives back the same request. */
  lemma ApplyOwnData(r: MaintenanceRequest)
    ensures ApplyForm(r, CleanedOf(r)) == r
  {
  }

  /**
   * The errors a submission collects, in order: the schedule rule's error on
   * `scheduled_date`, then `clean`'s error, at form level, on the request as
   * the cleaned data leaves it. The two checks never mask each other.
   */
  function SubmissionErrors(instance: MaintenanceRequest, cleaned: map<Field, FieldValue>): (errs: seq<FormError>)
    requires WellTyped(cleaned)
    ensures ScheduleError in errs <==> NeedsSchedule(cleaned)
    ensures TargetError in errs <==>
      instance.workCenter.None? &&
      (if EquipmentField in cleaned then cleaned[EquipmentField].Null? else instance.equipment.None?)
    ensures forall e :: e in errs ==> e == ScheduleError || e == TargetError
    ensures |errs| == (if ScheduleError in errs then 1 else 0) + (if TargetError in errs then 1 else 0)
    ensures ScheduleError in errs ==> errs[0] == ScheduleError
  {
    var afterFormClean := if NeedsSchedule(cleaned) then cleaned - {ScheduledDate} else cleaned;
    (if NeedsSchedule(cleaned) then [ScheduleError] else [])
    + (if Clean(ApplyForm(instance, afterFormClean)).Raised? then [TargetError] else [])
  }

  /** A bound form after its fields were cleaned one by one. */
  class MaintenanceRequestForm {
    var cleanedData: map<Field, FieldValue>
    var errors: seq<FormError>

    constructor (cleanedData: map<Field, FieldValue>, errors: seq<FormError>)
      ensures this.cleanedData == cleanedData && this.errors == errors
    {
      this.cleanedData, this.errors := cleanedData, errors;
    }

    /** `add_error(field, message)`: records the error and drops the field from the cleaned data. */
    method AddError(field: Field, message: string)
      modifies this
      ensures errors == old(errors) + [FormError(OnField(field), message)]
      ensures cleanedData == old(cleanedData) - {field}
    {
      errors := errors + [FormError(OnField(field), message)];
      cleanedData := cleanedData - {field};
    }

    /**
     * `MaintenanceRequestForm.clean`: flags a Preventive request without a
     * date, keeping every earlier error, and returns the cleaned data.
     */
    method Clean() returns (result: map<Field, FieldValue>)
      modifies this
      ensures NeedsSchedule(old(cleanedData)) ==>
        errors == old(errors) + [ScheduleError] && cleanedData == old(cleanedData) - {ScheduledDate}
      ensures !NeedsSchedule(old(cleanedData)) ==>
        errors == old(errors) && cleanedData == old(cleanedData)
      ensures result == cleanedData
    {
      var cleaned := cleanedData;
      var requestType := Get(cleaned, RequestTypeField);
      var scheduledDate := Get(cleaned, ScheduledDate);
      if requestType == Some(Text(TypeValue(Preventive))) && !(scheduledDate.Some? && Truthy(scheduledDate.value)) {
        AddError(ScheduledDate, ScheduleMessage);
      }
      result := cleanedData;
    }

    /**
     * The form-wide validation after the fields are cleaned: the form's
     * `clean`, then the request built from the cleaned data and its own
     * `clean`, whose error is shown at form level.
     */
    method FullClean(instance: MaintenanceRequest) returns (built: MaintenanceRequest)
      requires WellTyped(cleanedData)
      modifies this
      ensures WellTyped(cleanedData)
      ensures cleanedData == if NeedsSchedule(old(cleanedData)) then old(cleanedData) - {ScheduledDate} else old(cleanedData)
      ensures errors == old(errors) + SubmissionErrors(instance, old(cleanedData))
      ensures built == ApplyForm(instance, cleanedData)
    {
      var cleaned := Clean();
      built := ApplyForm(instance, cleaned);
      if Models.Clean(built).Raised? {
        errors := errors + [FormError(NonField, Models.Clean(built).error.message)];
      }
    }
  }
}
