/** The Organizer aggregate: its factory with the guard and name checks,
    the creation event queued for a new organizer, and `changeName`. An
    aggregate is an immutable value; its pending domain events are a field. */
module OrganizerEntity {
  import opened Wrappers
  import opened Errors
  import opened JsText
  import opened ContactInfosDomain

  datatype OrganizerType = CityHall | TouristOffice | Association | Other

  /** The props handed to `Organizer.create`. The guarded fields and
      `contactIds` may be `null`/`undefined` at run time: `None`. */
  datatype OrganizerProps = OrganizerProps(
    bookerId: Option<EntityId>,
    name: Option<string>,
    organizerType: Option<OrganizerType>,
    contactInfos: ContactInfos,
    contactIds: Option<seq<EntityId>>)

  /** `OrganizerCreatedEvent`, which refers to its organizer by id here. */
  datatype DomainEvent = OrganizerCreatedEvent(aggregateId: EntityId)

  datatype Organizer = Organizer(
    id: EntityId,
    bookerId: EntityId,
    name: string,
    organizerType: OrganizerType,
    contactInfos: ContactInfos,
    contactIds: seq<EntityId>,
    domainEvents: seq<DomainEvent>)

  const MaxNameLength: nat := 255

  /** `!id`: no id, or the empty one, means a brand-new organizer. */
  function IsNew(id: Option<EntityId>): (b: bool)
    ensures id.None? ==> b
    ensures id == Some("") ==> b
    ensures id.Some? && |id.value| > 0 ==> !b
  {
    !Truthy(id)
  }

  /** Some pending event is an `OrganizerCreatedEvent`. */
  predicate HasCreatedEvent(o: Organizer) {
    exists i :: 0 <= i < |o.domainEvents| && o.domainEvents[i].OrganizerCreatedEvent?
  }

  /** A name `create` accepts: not blank, at most 255 UTF-16 code units. */
  predicate IsValidName(name: string) {
    !IsBlank(name) && Utf16Length(name) <= MaxNameLength
  }

  /** `Organizer.nameIsEmpty`. */
  function NameIsEmpty(name: string): (b: bool)
    ensures b <==> IsBlank(name)
  {
    Trim(name) == ""
  }

  /** `Organizer.nameIsTooLong`. */
  function NameIsTooLong(name: string): (b: bool)
    ensures |name| > MaxNameLength ==> b
    ensures b ==> 2 * |name| > MaxNameLength
    ensures (forall i :: 0 <= i < |name| ==> name[i] as int < 0x1_0000) ==> (b <==> |name| > MaxNameLength)
  {
    Utf16LengthOfBmp(name);
    Utf16Length(name) > MaxNameLength
  }

  /** `Guard.againstNullOrUndefinedBulk` over bookerId, name and type, in
      that order: the first missing one is reported. */
  function GuardAgainstMissing(props: OrganizerProps): (r: Option<string>)
    ensures r.None? <==> props.bookerId.Some? && props.name.Some? && props.organizerType.Some?
    ensures r == Some("bookerId") <==> props.bookerId.None?
    ensures r == Some("name") <==> props.bookerId.Some? && props.name.None?
    ensures r == Some("type") <==> props.bookerId.Some? && props.name.Some? && props.organizerType.None?
  {
    if props.bookerId.None? then Some("bookerId")
    else if props.name.None? then Some("name")
    else if props.organizerType.None? then Some("type")
    else None
  }

  /** `Organizer.create(props, id)`. `freshId` is the identity the
      aggregate root generates when `id` is falsy. */
  function Create(props: OrganizerProps, id: Option<EntityId>, freshId: EntityId): (r: Result<Organizer, Error>)
    // the presence guard comes first, in field order
    ensures props.bookerId.None? ==> r == Err(OrganizerError(NullOrUndefined("bookerId"), None))
    ensures props.bookerId.Some? && props.name.None? ==> r == Err(OrganizerError(NullOrUndefined("name"), None))
    ensures props.bookerId.Some? && props.name.Some? && props.organizerType.None?
            ==> r == Err(OrganizerError(NullOrUndefined("type"), None))
    // then blankness, then length; a blank over-long name is reported blank
    ensures props.bookerId.Some? && props.name.Some? && props.organizerType.Some? && IsBlank(props.name.value)
            ==> r == Err(OrganizerError(NameEmpty, None))
    ensures props.bookerId.Some? && props.name.Some? && props.organizerType.Some? && !IsBlank(props.name.value)
            && Utf16Length(props.name.value) > MaxNameLength
            ==> r == Err(OrganizerError(NameTooLong, None))
    ensures r.Ok? <==> props.bookerId.Some? && props.name.Some? && props.organizerType.Some? && IsValidName(props.name.value)
    // on success the props are kept and contactIds defaults to []
    ensures r.Ok? ==> && r.value.bookerId == props.bookerId.value
                      && r.value.name == props.name.value
                      && r.value.organizerType == props.organizerType.value
                      && r.value.contactInfos == props.contactInfos
                      && r.value.contactIds == props.contactIds.GetOr([])
    // a new organizer gets the fresh id and exactly one creation event; a
    // rehydrated one keeps its id and has no event
    ensures r.Ok? && IsNew(id) ==> r.value.id == freshId && r.value.domainEvents == [OrganizerCreatedEvent(freshId)]
    ensures r.Ok? && !IsNew(id) ==> r.value.id == id.value && !HasCreatedEvent(r.value)
  {
    var missing := GuardAgainstMissing(props);
    if missing.Some? then Err(OrganizerError(NullOrUndefined(missing.value), None))
    else if NameIsEmpty(props.name.value) then Err(OrganizerError(NameEmpty, None))
    else if NameIsTooLong(props.name.value) then Err(OrganizerError(NameTooLong, None))
    else
      var isNew := IsNew(id);
      var organizerId := if isNew then freshId else id.value;
      var organizer := Organizer(organizerId, props.bookerId.value, props.name.value, props.organizerType.value,
                                 props.contactInfos, if props.contactIds.Some? then props.contactIds.value else [], []);
      if isNew then Ok(organizer.(domainEvents := organizer.domainEvents + [OrganizerCreatedEvent(organizer.id)]))
      else Ok(organizer)
  }

  /** `organizer.changeName(name)`: no blank or length check, no event. */
  function ChangeName(o: Organizer, name: string): (r: Organizer)
    ensures r.name == name
    ensures r.(name := o.name) == o
  {
    o.(name := name)
  }

  /** The invariant `create` establishes for an organizer it returns. */
  predicate IsWellFormed(o: Organizer) {
    IsValidName(o.name) && o.id != ""
  }

  /** Every organizer `create` returns is well formed, given a non-empty
      generated identity. */
  lemma CreateEstablishesInvariant(props: OrganizerProps, id: Option<EntityId>, freshId: EntityId)
    requires freshId != ""
    requires Create(props, id, freshId).Ok?
    ensures IsWellFormed(Create(props, id, freshId).value)
  {
  }

  /** `changeName` keeps the invariant only for names `create` would
      accept: renaming to a blank or over-long name breaks it. */
  lemma ChangeNameKeepsInvariantIff(o: Organizer, name: string)
    requires IsWellFormed(o)
    ensures IsWellFormed(ChangeName(o, name)) <==> IsValidName(name)
  {
  }

  /** Renaming twice is renaming once with the last name; renaming to the
      current name changes nothing. */
  lemma ChangeNameLastWins(o: Organizer, a: string, b: string)
    ensures ChangeName(ChangeName(o, a), b) == ChangeName(o, b)
    ensures ChangeName(o, o.name) == o
  {
  }

  /** The unit scenarios: a name of 256 'a' characters is too long, an
      empty name is empty, "John Doe" is accepted. */
  lemma NameExamples()
    ensures Utf16Length(seq(256, _ => 'a')) > MaxNameLength
    ensures NameIsEmpty("")
    ensures IsValidName("John Doe")
  {
    var j := "John Doe";
    assert !IsWhitespace(j[0]);
  }
}
