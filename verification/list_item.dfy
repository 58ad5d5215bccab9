/**
 * The list-item schema: required first name and phone, optional notes and
 * agent reference, and two closed string enums with defaults. Validation runs
 * when a new document is saved; it applies the defaults first.
 */
module ListItem {
  import opened Wrappers

  const StatusValues: set<string> := {"Pending", "In Progress", "Completed"}
  const PriorityValues: set<string> := {"Low", "Medium", "High"}
  const DefaultStatus: string := "Pending"
  const DefaultPriority: string := "Medium"

  /** The schema paths whose validators can fail. */
  datatype Path = FirstNamePath | PhonePath | StatusPath | PriorityPath

  /** A document as constructed, before defaults and validation; `None` is an unset path. */
  datatype Draft = Draft(
    firstName: Option<string>,
    phone: Option<string>,
    notes: Option<string>,
    agent: Option<ObjectId>,
    status: Option<string>,
    priority: Option<string>)

  /** A persisted document, with the creation and update times the schema's timestamps add. */
  datatype Item = Item(
    firstName: string,
    phone: string,
    notes: Option<string>,
    agent: Option<ObjectId>,
    status: string,
    priority: string,
    createdAt: nat,
    updatedAt: nat)

  /** The `required` validator of a string path: the value is set and not the empty string. */
  predicate Present(v: Option<string>) {
    v.Some? && v.value != ""
  }

  /** A document the schema accepts. */
  ghost predicate Conforms(item: Item) {
    && item.firstName != ""
    && item.phone != ""
    && item.status in StatusValues
    && item.priority in PriorityValues
  }

  /** The paths whose validators reject the draft once defaults are applied. */
  function Violations(d: Draft): set<Path> {
    (if Present(d.firstName) then {} else {FirstNamePath})
    + (if Present(d.phone) then {} else {PhonePath})
    + (if d.status.GetOr(DefaultStatus) in StatusValues then {} else {StatusPath})
    + (if d.priority.GetOr(DefaultPriority) in PriorityValues then {} else {PriorityPath})
  }

  /**
   * Defaults, then validation, as done on save at time `now`. A draft is
   * accepted exactly when the result conforms to the schema; a rejection names
   * every failing path.
   */
  function Validate(d: Draft, now: nat): (r: Result<Item, set<Path>>)
    ensures r.Ok? <==>
      && Present(d.firstName) && Present(d.phone)
      && d.status.GetOr(DefaultStatus) in StatusValues
      && d.priority.GetOr(DefaultPriority) in PriorityValues
    ensures r.Ok? ==>
      && Conforms(r.value)
      && Some(r.value.firstName) == d.firstName
      && Some(r.value.phone) == d.phone
      && r.value.notes == d.notes
      && r.value.agent == d.agent
      && r.value.status == d.status.GetOr(DefaultStatus)
      && r.value.priority == d.priority.GetOr(DefaultPriority)
      && r.value.createdAt == now && r.value.updatedAt == now
    ensures r.Err? ==> r.error != {}
    ensures r.Err? ==> (FirstNamePath in r.error <==> !Present(d.firstName))
    ensures r.Err? ==> (PhonePath in r.error <==> !Present(d.phone))
    ensures r.Err? ==> (StatusPath in r.error <==> d.status.GetOr(DefaultStatus) !in StatusValues)
    ensures r.Err? ==> (PriorityPath in r.error <==> d.priority.GetOr(DefaultPriority) !in PriorityValues)
  {
    var bad := Violations(d);
    if bad == {} then
      Ok(Item(d.firstName.value, d.phone.value, d.notes, d.agent,
              d.status.GetOr(DefaultStatus), d.priority.GetOr(DefaultPriority), now, now))
    else
      Err(bad)
  }

  /** A draft that leaves status and priority unset is stored as Pending and Medium when its required paths are set. */
  lemma OmittedEnumsTakeDefaults(d: Draft, now: nat)
    requires Present(d.firstName) && Present(d.phone)
    requires d.status.None? && d.priority.None?
    ensures Validate(d, now).Ok?
    ensures Validate(d, now).value.status == "Pending"
    ensures Validate(d, now).value.priority == "Medium"
  {
  }
}
