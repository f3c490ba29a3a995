/** `OrganizerMapper`: Organizer aggregate to and from its stored record,
    composing the ContactInfos mapper. Reading always takes the rehydration
    path of `Organizer.create`; writing checks the result against the
    persistence schema. */
module OrganizerMapper {
  import opened Wrappers
  import opened Errors
  import opened ContactInfosDomain
  import opened ContactInfosModel
  import opened OrganizerEntity
  import opened OrganizerModel
  import JsText
  import CI = ContactInfosMapper

  /** The props `toDomain` hands to `Organizer.create`. */
  function PropsOf(r: OrganizerRecord, contactInfos: ContactInfos): OrganizerProps {
    OrganizerProps(Some(r.bookerId), Some(r.name), Some(r.organizerType), contactInfos, Some(r.contactIds))
  }

  /** `OrganizerMapper.toDomain`. A ContactInfos mapping failure escapes
      unwrapped; a failure of `Organizer.create` is wrapped in an
      `OrganizerError` whose cause is that failure. `freshId` is only used
      for a record whose id is the empty string. */
  function ToDomain(rules: DomainRules, r: OrganizerRecord, freshId: EntityId): (res: Result<Organizer, Error>)
    ensures CI.ToDomain(rules, r.contactInfos).Err? ==> res == Err(CI.ToDomain(rules, r.contactInfos).error)
    ensures CI.Revalidates(rules, r.contactInfos) && JsText.IsBlank(r.name)
            ==> res == Err(OrganizerError(MappingFailed, Some(OrganizerError(NameEmpty, None))))
    ensures CI.Revalidates(rules, r.contactInfos) && !JsText.IsBlank(r.name) && JsText.Utf16Length(r.name) > MaxNameLength
            ==> res == Err(OrganizerError(MappingFailed, Some(OrganizerError(NameTooLong, None))))
    ensures res.Ok? <==> CI.Revalidates(rules, r.contactInfos) && IsValidName(r.name)
    ensures res.Ok? ==> && res.value.bookerId == r.bookerId
                        && res.value.name == r.name
                        && res.value.organizerType == r.organizerType
                        && res.value.contactIds == r.contactIds
                        && res.value.contactInfos == CI.ToDomain(rules, r.contactInfos).value
    ensures res.Ok? && r.id != "" ==> res.value.id == r.id && res.value.domainEvents == []
  {
    var contactInfos :- CI.ToDomain(rules, r.contactInfos);
    var created := Create(PropsOf(r, contactInfos), Some(r.id), freshId);
    if created.Err? then Err(OrganizerError(MappingFailed, Some(created.error)))
    else created
  }

  /** The record `toPersistence` builds before the schema check. */
  function RecordOf(o: Organizer): OrganizerRecord {
    OrganizerRecord(o.id, o.bookerId, None, None, o.name, o.organizerType, CI.ToPersistence(o.contactInfos), o.contactIds)
  }

  /** Every identifier the schema requires to be a UUID is one, and every
      email the schema checks is well-formed. */
  predicate PassesSchema(rules: SchemaRules, o: Organizer) {
    && rules.isUuid(o.id)
    && rules.isUuid(o.bookerId)
    && rules.isUuid(o.contactInfos.id)
    && (forall i :: 0 <= i < |o.contactIds| ==> rules.isUuid(o.contactIds[i]))
    && (forall i :: 0 <= i < |o.contactInfos.props.emails| ==> rules.isEmail(o.contactInfos.props.emails[i].value))
  }

  /** `OrganizerMapper.toPersistence`: fields copied, timestamps left
      unset, contact infos mapped, then `organizerSchema.parse`. */
  function ToPersistence(rules: SchemaRules, o: Organizer): (res: Result<OrganizerRecord, Error>)
    ensures res.Ok? <==> PassesSchema(rules, o)
    ensures res.Err? ==> res.error == SchemaError
    ensures res.Ok? ==> && res.value.id == o.id
                        && res.value.bookerId == o.bookerId
                        && res.value.name == o.name
                        && res.value.organizerType == o.organizerType
                        && res.value.contactIds == o.contactIds
                        && res.value.contactInfos == CI.ToPersistence(o.contactInfos)
                        && res.value.createdAt.None? && res.value.updatedAt.None?
  {
    CI.StoredRecordMeetsSchemaIff(rules, o.contactInfos);
    Parse(rules, RecordOf(o))
  }

  /** Storing a well-formed organizer and reading it back yields the same
      organizer with no pending events. */
  lemma {:induction false} RoundTrip(domainRules: DomainRules, schemaRules: SchemaRules, o: Organizer, freshId: EntityId)
    requires IsWellFormed(o)
    requires IsValid(domainRules, o.contactInfos) && CI.NoEmptyOptionals(o.contactInfos)
    requires ToPersistence(schemaRules, o).Ok?
    ensures ToDomain(domainRules, ToPersistence(schemaRules, o).value, freshId) == Ok(o.(domainEvents := []))
  {
    CI.RoundTrip(domainRules, o.contactInfos);
  }

  /** A stored organizer with a non-empty id is never read back as new. */
  lemma ReadNeverRaisesCreatedEvent(rules: DomainRules, r: OrganizerRecord, freshId: EntityId)
    requires r.id != ""
    requires ToDomain(rules, r, freshId).Ok?
    ensures !HasCreatedEvent(ToDomain(rules, r, freshId).value)
  {
  }

  /** A record whose id is the empty string is falsy to `create`, which then
      treats it as a new organizer and queues a creation event. */
  lemma EmptyStoredIdIsTreatedAsNew(rules: DomainRules, r: OrganizerRecord, freshId: EntityId)
    requires r.id == ""
    requires ToDomain(rules, r, freshId).Ok?
    ensures ToDomain(rules, r, freshId).value.id == freshId
    ensures HasCreatedEvent(ToDomain(rules, r, freshId).value)
  {
    var o := ToDomain(rules, r, freshId).value;
    assert o.domainEvents[0].OrganizerCreatedEvent?;
  }

  /** `changeName` bypasses validation, so a renamed organizer can be
      stored but no longer read back. */
  lemma {:induction false} BlankRenameCannotBeReadBack(domainRules: DomainRules, schemaRules: SchemaRules, o: Organizer, name: string, freshId: EntityId)
    requires JsText.IsBlank(name)
    requires IsValid(domainRules, o.contactInfos) && CI.NoEmptyOptionals(o.contactInfos)
    requires ToPersistence(schemaRules, ChangeName(o, name)).Ok?
    ensures ToDomain(domainRules, ToPersistence(schemaRules, ChangeName(o, name)).value, freshId)
            == Err(OrganizerError(MappingFailed, Some(OrganizerError(NameEmpty, None))))
  {
    CI.RoundTrip(domainRules, o.contactInfos);
  }

  /** Reading a stored record that passes the schema and writing it back
      drops the timestamps and normalises the contact infos, and changes
      nothing else. */
  lemma {:induction false} ReadThenStoreNormalizes(domainRules: DomainRules, schemaRules: SchemaRules, r: OrganizerRecord, freshId: EntityId)
    requires r.id != ""
    requires OrganizerModel.SatisfiesSchema(schemaRules, r)
    requires ToDomain(domainRules, r, freshId).Ok?
    ensures ToPersistence(schemaRules, ToDomain(domainRules, r, freshId).value)
            == Ok(r.(createdAt := None, updatedAt := None, contactInfos := CI.Normalize(r.contactInfos)))
  {
    var o := ToDomain(domainRules, r, freshId).value;
    CI.ReadThenStoreNormalizes(domainRules, r.contactInfos);
    assert PassesSchema(schemaRules, o);
  }
}
