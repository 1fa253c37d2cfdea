# GearGuard maintenance requests: validation and scrap propagation

GearGuard is a maintenance-management web application. Users register
equipment and work centers and file maintenance requests against them.
Requests move through the stages New, In Progress, Repaired and Scrap. This
project models the two pieces of the application that hold real logic:

- **Request validation.** The request's own `clean` (`core/models.py`)
  demands that a request names an equipment or a work center. The request
  form's `clean` (`core/forms.py`) flags a Preventive request without a
  scheduled date, as an error on the `scheduled_date` field.
- **Scrap propagation.** The post-save hook `check_scrap_condition`
  (`core/signals.py`) marks a request's equipment as scrapped once the
  request is saved in the Scrap stage.

The model also covers the data model around them: the closed choice sets
for stage, type and priority, with their stored values; the defaults of a
new request and a new equipment; and the `__str__` renderers of work
centers, equipment and requests.

Modules, one per source file:

- `Wrappers` (`wrappers.dfy`): `Option` and a dictionary `get`.
- `Models` (`models.dfy`): the choice sets and work centers. `Equipment` is
  a class, because the hook updates its `is_scrapped` field in place and
  calls `save()`. `save()` is modelled as writing the in-memory columns to
  a stored row (`stored`) and counting the writes (`saves`). Also here: the
  `MaintenanceRequest` record, `Clean` and the renderers.
- `Forms` (`forms.dfy`): the form's fields (`Field`), its cleaned data (a
  map from field to value) and the form as a class with an error list and
  its cleaned data. `AddError`, the form's `Clean`, and `FullClean` combine
  the form rule with the request's own `clean`.
- `Signals` (`signals.dfy`): the scrap rule on values (`ScrapRule`), the
  hook as a module-level method that takes the saved request and updates
  its equipment in place (`CheckScrapCondition`), and the stage-update
  endpoint as the driver (`UpdateRequestStage`). It also has
  `RunStageUpdates`, the result of any sequence of stage updates to one
  request, and `ApplyStageUpdates`, which sends such a sequence through the
  endpoint one update at a time.

Where one might expect behaviour the code does not have, the model follows
the code:

- The comment on the target columns (core/models.py:98) says a request is linked to an equipment OR a work center, which
  suggests one of the two. A request that names both still passes `clean`,
  because no exclusivity check exists.
- One might expect the hook to skip a Scrap-stage request that has no
  equipment, such as one that targets only a work center. Instead it raises
  `AttributeError`, because it reads `is_scrapped` off `None`. The model
  makes this an explicit outcome, `HookOutcome.AttributeError`.
- The form's `clean` returns the dictionary it received. Django's
  `add_error` deletes the flagged field from that same dictionary, so when
  the rule fires, the returned data no longer holds `scheduled_date`. The
  model keeps this deletion, so the data is not returned unchanged.

## Model

| member | source | states |
|---|---|---|
| `Models.ParseRequestType` | core/models.py:76-79 | A stored type value parses back to exactly the choice whose value it is. Any other string is rejected. |
| `Models.ParseStage` | core/models.py:82-87 | The four stages, with stored values "New", "In Progress", "Repaired" and "Scrap", round-trip through their stored value. No other string is a stage. |
| `Models.ParsePriority` | core/models.py:89-94 | The four priorities round-trip through their stored values. No other string is a priority. |
| `Models.WorkCenterStr` | core/models.py:41-42 | The rendering is the name, then " (", the code and ")". It is exactly that long. |
| `Models.NewEquipmentRow` | core/models.py:46-68 | New equipment is not scrapped, has health 100 and an empty description. Every nullable column is null, and the required columns are as given. |
| `Models.Equipment.constructor` | core/models.py:46-68 | A new equipment object holds the default row and has never been written. |
| `Models.Equipment.Save` | core/signals.py:14 | `save()` writes the in-memory columns to the stored row and counts one write. It changes no column. |
| `Models.EquipmentStr` | core/models.py:70-71 | The rendering is the name, then " (", the serial number and ")". |
| `Models.NewRequest` | core/models.py:96-116 | A new request has stage New, type Corrective and priority Medium. It has no schedule, no assignee and no team, its duration is 0, and the given columns are kept. |
| `Models.Clean` | core/models.py:118-121 | `clean` raises the "Either Equipment or Work Center must be selected." error exactly when both targets are absent. Otherwise it accepts. |
| `Models.CleanAcceptsBothTargets` | core/models.py:120-121 | A request naming both an equipment and a work center is accepted. |
| `Models.DisplayTarget` | core/models.py:124 | The target shown is the equipment's name if there is an equipment, even when a work center is also set. Otherwise it is the work center's name, else "Unknown". |
| `Models.RequestStr` | core/models.py:123-125 | The rendering is "[", the stage's stored value, "] ", the subject, " - " and the display target, in that layout. |
| `Forms.CleanedOf` | core/forms.py:16-19 | A form bound to a request's own values has a well-typed entry for each of the seven form fields. |
| `Forms.ApplyForm` | core/forms.py:16-19 | Cleaned data written onto a request never changes work center, priority, team, creator or instructions. Each of the seven form fields that is present in the data takes the cleaned value (a null choice gives a null column), and each absent one is kept. |
| `Forms.ApplyOwnData` | core/forms.py:16-19 | Writing a request's own form values back onto it gives the same request. |
| `Forms.NeedsScheduleCases` | core/forms.py:27-31 | A Corrective or missing type is never flagged, nor is a present date. A Preventive type with a missing or null date always is. |
| `Forms.NeedsScheduleOfRequest` | core/forms.py:30-31 | On a request's own values, the rule fires exactly for a Preventive request without a scheduled date. |
| `Forms.MaintenanceRequestForm.AddError` | core/forms.py:31 | `add_error` appends one error scoped to the field and drops that field from the cleaned data. Earlier errors are kept. |
| `Forms.MaintenanceRequestForm.Clean` | core/forms.py:25-33 | When the rule fires, exactly one `scheduled_date` error is appended after the earlier ones and `scheduled_date` leaves the cleaned data. Otherwise errors and data are unchanged. The cleaned data is returned. |
| `Forms.SubmissionErrors` | core/forms.py:25-33 | A submission gets the `scheduled_date` error exactly when the rule fires. It gets the form-level target error exactly when neither the kept work center nor the submitted or kept equipment is set. These are its only errors, each appears at most once, and the schedule error comes first. |
| `Forms.MaintenanceRequestForm.FullClean` | core/forms.py:25-33 | The form's `clean`, then the request's `clean` on the request built from the cleaned data, append exactly `SubmissionErrors`. The cleaned data loses `scheduled_date` exactly when the schedule rule fires, and is otherwise unchanged. The built request is that data written onto the instance. |
| `Signals.ScrapRule` | core/signals.py:10-14 | The rule raises exactly for a Scrap-stage request without equipment. Otherwise the only column it changes is `is_scrapped`, which becomes true on Scrap and is never cleared. It writes exactly when it turns a flag from false to true. |
| `Signals.ScrapRuleIdempotent` | core/signals.py:10-14 | Running the rule again on its own result changes nothing and writes nothing. |
| `Signals.CheckScrapCondition` | core/signals.py:5-14 | The hook, on create and on update alike, leaves the equipment as `ScrapRule` says. It writes the equipment once when the rule reports a write, and otherwise not at all. |
| `Signals.UpdateRequestStage` | core/views.py:115-126 | The equipment is loaded from the database, so its object starts equal to its stored row. Assigning any stage and saving changes only the request's stage, then runs the hook with the same guarantees. The stored row again equals the object afterwards, so a scrap is persisted. |
| `Signals.RunStageUpdates` | core/signals.py:10-14 | After any sequence of stage updates, the equipment is scrapped exactly when it already was or some update was to Scrap. Nothing else about it changes. It is written once if it became scrapped and never otherwise. Without equipment, each update to Scrap raises once. |
| `Signals.ApplyStageUpdates` | core/views.py:115-126 | Sending a sequence of stages through the endpoint, one at a time, leaves the equipment as `RunStageUpdates` says, and its stored row equals it. The equipment is written as often as that count says, and the request ends in the last stage sent. |
| `Signals.ScrapIsPermanent` | core/signals.py:12-13 | Once an update to Scrap has run, later updates (to Repaired, say) leave the equipment scrapped and write nothing. |

## Left out

- Persistence: queries, transactions and cascades (`on_delete`) are not modelled. The post-save signal dispatch is replaced by an explicit call to the hook after each save. The request's own save is not modelled.
- Users, teams, technicians, categories and team membership are only stored. They appear as plain identifiers.
- Date and time values are reduced to present or absent. The audit timestamps (`created_at`, `updated_at`) are not modelled.
- The work center's `cost_per_hour`, `efficiency` and `oee_target` are not modelled (decimal and floating point). The request's `duration` is carried as a number and never computed with.
- The maintenance log and its renderer, and the renderers of teams, technicians and categories, are not modelled. They only format stored names.
- The display labels of the choices (`get_stage_display` and the like) are not modelled. Only the stored values are.
- Signals.UpdateRequestStage: takes a stage from the closed set. The endpoint stores whatever string the JSON body carries, or fails on a missing one. The JSON parsing, the HTTP method check and the response are left out.
- Forms.SubmissionErrors: covers only the two rules of this model. Errors from per-field cleaning arrive already in the form's error list, and the uniqueness and field checks of the request's full validation are left out.
- The views' listing, search, kanban and calendar queries, the URL routing and the admin configuration are not modelled. They only read and display stored data.
