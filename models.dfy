/**
 * The data model of the maintenance application: the closed choice sets of a
 * maintenance request, work centers, equipment, maintenance requests, the
 * model-level validation of a request and the string renderers.
 */
module Models {
  import opened Wrappers

  /** Primary key of a row this model does not look into (user, team, category). */
  type Id = nat

  /** A date or date-time column; only its presence matters here. */
  datatype Timestamp = Timestamp(ticks: int)

  // ---------------------------------------------------------------------------
  // Choice sets. Each enum is the closed set of a CharField's choices; the
  // string is the value stored in the column (the first half of each pair).
  // ---------------------------------------------------------------------------

  datatype RequestType = Corrective | Preventive

  datatype Stage = New | InProgress | Repaired | Scrap

  datatype Priority = Low | Medium | High | Critical

  function TypeValue(t: RequestType): string
  {
    match t
    case Corrective => "Corrective"
    case Preventive => "Preventive"
  }

  function StageValue(s: Stage): string
  {
    match s
    case New => "New"
    case InProgress => "In Progress"
    case Repaired => "Repaired"
    case Scrap => "Scrap"
  }

  function PriorityValue(p: Priority): string
  {
    match p
    case Low => "Low"
    case Medium => "Medium"
    case High => "High"
    case Critical => "Critical"
  }

  /** The choice whose stored value is `v`, if `v` is one of the type choices. */
  function ParseRequestType(v: string): (r: Option<RequestType>)
    ensures r.Some? ==> TypeValue(r.value) == v
    ensures forall t :: TypeValue(t) == v ==> r == Some(t)
  {
    if v == "Corrective" then Some(Corrective)
    else if v == "Preventive" then Some(Preventive)
    else None
  }

  /** The choice whose stored value is `v`, if `v` is one of the stage choices. */
  function ParseStage(v: string): (r: Option<Stage>)
    ensures r.Some? ==> StageValue(r.value) == v
    ensures forall s :: StageValue(s) == v ==> r == Some(s)
  {
    if v == "New" then Some(New)
    else if v == "In Progress" then Some(InProgress)
    else if v == "Repaired" then Some(Repaired)
    else if v == "Scrap" then Some(Scrap)
    else None
  }

  /** The choice whose stored value is `v`, if `v` is one of the priority choices. */
  function ParsePriority(v: string): (r: Option<Priority>)
    ensures r.Some? ==> PriorityValue(r.value) == v
    ensures forall p :: PriorityValue(p) == v ==> r == Some(p)
  {
    if v == "Low" then Some(Low)
    else if v == "Medium" then Some(Medium)
    else if v == "High" then Some(High)
    else if v == "Critical" then Some(Critical)
    else None
  }

  // ---------------------------------------------------------------------------
  // Renderers of the form "name (detail)".
  // ---------------------------------------------------------------------------

  /** A work center; its cost and efficiency figures are not modelled. */
  datatype WorkCenter = WorkCenter(name: string, code: string)

  /** `str(work_center)`: the name, then the code in parentheses. */
  function WorkCenterStr(w: WorkCenter): (r: string)
    ensures |r| == |w.name| + |w.code| + 3
    ensures r[..|w.name|] == w.name && r[|w.name|..|w.name| + 2] == " ("
    ensures r[|w.name| + 2..|r| - 1] == w.code && r[|r| - 1] == ')'
  {
    w.name + " (" + w.code + ")"
  }

  // ---------------------------------------------------------------------------
  // Equipment: a stored row whose fields are updated in place.
  // ---------------------------------------------------------------------------

  /** The value of every column of an equipment row. */
  datatype EquipmentRow = EquipmentRow(
    name: string,
    serialNumber: string,
    category: Option<Id>,
    workCenter: Option<Id>,
    department: string,
    owner: Option<Id>,
    purchaseDate: Option<Timestamp>,
    warrantyExpiry: Option<Timestamp>,
    assignedDate: Option<Timestamp>,
    scrapDate: Option<Timestamp>,
    location: string,
    description: string,
    maintenanceTeam: Option<Id>,
    isScrapped: bool,
    health: int)

  /** A new equipment row built from its required columns; every other column takes its default. */
  function NewEquipmentRow(name: string, serialNumber: string, department: string, location: string): (row: EquipmentRow)
    ensures !row.isScrapped && row.health == 100
    ensures row.name == name && row.serialNumber == serialNumber
    ensures row.department == department && row.location == location && row.description == ""
    ensures row.category.None? && row.workCenter.None? && row.owner.None? && row.maintenanceTeam.None?
    ensures row.purchaseDate.None? && row.warrantyExpiry.None? && row.assignedDate.None? && row.scrapDate.None?
  {
    EquipmentRow(name, serialNumber, None, None, department, None, None, None, None, None, location, "", None, false, 100)
  }

  class Equipment {
    var name: string
    var serialNumber: string
    var category: Option<Id>
    var workCenter: Option<Id>
    var department: string
    var owner: Option<Id>
    var purchaseDate: Option<Timestamp>
    var warrantyExpiry: Option<Timestamp>
    var assignedDate: Option<Timestamp>
    var scrapDate: Option<Timestamp>
    var location: string
    var description: string
    var maintenanceTeam: Option<Id>
    var isScrapped: bool
    var health: int

    /** The row as last written by `Save`, or `None` before the first write. */
    var stored: Option<EquipmentRow>
    /** How many times the row has been written. */
    var saves: nat

    /** The in-memory value of every column. */
    function Row(): EquipmentRow
      reads this
    {
      EquipmentRow(name, serialNumber, category, workCenter, department, owner, purchaseDate,
                   warrantyExpiry, assignedDate, scrapDate, location, description, maintenanceTeam,
                   isScrapped, health)
    }

    constructor (name: string, serialNumber: string, department: string, location: string)
      ensures Row() == NewEquipmentRow(name, serialNumber, department, location)
      ensures stored.None? && saves == 0
    {
      this.name, this.serialNumber := name, serialNumber;
      this.department, this.location := department, location;
      category, workCenter, owner, maintenanceTeam := None, None, None, None;
      purchaseDate, warrantyExpiry, assignedDate, scrapDate := None, None, None, None;
      description := "";
      isScrapped, health := false, 100;
      stored, saves := None, 0;
    }

    /** `save()`: writes the in-memory columns to the stored row. */
    method Save()
      modifies this
      ensures Row() == old(Row())
      ensures stored == Some(Row()) && saves == old(saves) + 1
    {
      stored := Some(Row());
      saves := saves + 1;
    }
  }

  /** `str(equipment)`: the name, then the serial number in parentheses. */
  function EquipmentStr(e: Equipment): (r: string)
    reads e
    ensures |r| == |e.name| + |e.serialNumber| + 3
    ensures r[..|e.name|] == e.name && r[|e.name|..|e.name| + 2] == " ("
    ensures r[|e.name| + 2..|r| - 1] == e.serialNumber && r[|r| - 1] == ')'
  {
    e.name + " (" + e.serialNumber + ")"
  }

  /** The objects a nullable equipment reference points to. */
  function Targets(e: Option<Equipment>): set<Equipment>
  {
    if e.Some? then {e.value} else {}
  }

  /** The columns of the equipment a nullable reference points to. */
  function RowOf(e: Option<Equipment>): Option<EquipmentRow>
    reads Targets(e)
  {
    if e.Some? then Some(e.value.Row()) else None
  }

  // ---------------------------------------------------------------------------
  // Maintenance requests.
  // ---------------------------------------------------------------------------

  /**
   * A maintenance request. The creation and update timestamps are left out;
   * `duration` is carried as a number of hours and never computed with.
   */
  datatype MaintenanceRequest = MaintenanceRequest(
    subject: string,
    equipment: Option<Equipment>,
    workCenter: Option<WorkCenter>,
    requestType: RequestType,
    stage: Stage,
    priority: Priority,
    scheduledDate: Option<Timestamp>,
    duration: real,
    assignedTo: Option<Id>,
    team: Option<Id>,
    createdBy: Id,
    instructions: string)

  /** A request built from the columns without a default; the others take their defaults. */
  function NewRequest(subject: string, equipment: Option<Equipment>, workCenter: Option<WorkCenter>, createdBy: Id): (r: MaintenanceRequest)
    ensures r.stage == New && r.requestType == Corrective && r.priority == Medium
    ensures r.scheduledDate.None? && r.duration == 0.0 && r.assignedTo.None? && r.team.None? && r.instructions == ""
    ensures r.subject == subject && r.equipment == equipment && r.workCenter == workCenter && r.createdBy == createdBy
  {
    MaintenanceRequest(subject, equipment, workCenter, Corrective, New, Medium, None, 0.0, None, None, createdBy, "")
  }

  datatype ValidationError = ValidationError(message: string)

  const MissingTargetMessage := "Either Equipment or Work Center must be selected."

  /** What `clean()` does: return normally, or raise a validation error. */
  datatype CleanOutcome = Accepted | Raised(error: ValidationError)

  /**
   * `MaintenanceRequest.clean`: a request must name some target. Nothing
   * stops it from naming both an equipment and a work center.
   */
  function Clean(r: MaintenanceRequest): (outcome: CleanOutcome)
    ensures outcome.Raised? <==> r.equipment.None? && r.workCenter.None?
    ensures outcome.Raised? ==> outcome.error == ValidationError(MissingTargetMessage)
  {
    if r.equipment.None? && r.workCenter.None? then Raised(ValidationError(MissingTargetMessage))
    else Accepted
  }

  /** A request that names both an equipment and a work center passes `clean`. */
  lemma CleanAcceptsBothTargets(r: MaintenanceRequest)
    requires r.equipment.Some? && r.workCenter.Some?
    ensures Clean(r) == Accepted
  {
  }

  /** The name shown for the request's target: equipment first, then work center. */
  function DisplayTarget(r: MaintenanceRequest): (t: string)
    reads Targets(r.equipment)
    ensures r.equipment.Some? ==> t == r.equipment.value.name
    ensures r.equipment.None? && r.workCenter.Some? ==> t == r.workCenter.value.name
    ensures r.equipment.None? && r.workCenter.None? ==> t == "Unknown"
  {
    match r.equipment
    case Some(e) => e.name
    case None => if r.workCenter.Some? then r.workCenter.value.name else "Unknown"
  }

  /** `str(request)`: "[stage] subject - target", the stage as its stored value. */
  function RequestStr(r: MaintenanceRequest): (s: string)
    reads Targets(r.equipment)
    ensures var n := |StageValue(r.stage)|;
      && |s| == n + |r.subject| + |DisplayTarget(r)| + 6
      && s[0] == '[' && s[1..n + 1] == StageValue(r.stage) && s[n + 1..n + 3] == "] "
      && s[n + 3..n + 3 + |r.subject|] == r.subject
      && s[n + 3 + |r.subject|..n + 6 + |r.subject|] == " - "
      && s[n + 6 + |r.subject|..] == DisplayTarget(r)
  {
    "[" + StageValue(r.stage) + "] " + r.subject + " - " + DisplayTarget(r)
  }
}
