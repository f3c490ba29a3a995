/** The persistence shape of an Organizer and its zod schema
    (`organizerSchema`), which nests the ContactInfos schema. */
module OrganizerModel {
  import opened Wrappers
  import opened Errors
  import opened ContactInfosModel
  import OrganizerEntity

  /** A stored Organizer. `organizerType` is typed by the enum, so the
      schema's enum check holds of every record by construction. */
  datatype OrganizerRecord = OrganizerRecord(
    id: string,
    bookerId: string,
    createdAt: Option<string>,
    updatedAt: Option<string>,
    name: string,
    organizerType: OrganizerEntity.OrganizerType,
    contactInfos: ContactInfosRecord,
    contactIds: seq<string>)

  /** Every constraint `organizerSchema` places on a record. */
  predicate SatisfiesSchema(rules: SchemaRules, r: OrganizerRecord) {
    && rules.isUuid(r.id)
    && rules.isUuid(r.bookerId)
    && (r.createdAt.Some? ==> rules.isDate(r.createdAt.value))
    && (r.updatedAt.Some? ==> rules.isDate(r.updatedAt.value))
    && ContactInfosModel.SatisfiesSchema(rules, r.contactInfos)
    && (forall i :: 0 <= i < |r.contactIds| ==> rules.isUuid(r.contactIds[i]))
  }

  /** `organizerSchema.parse(record)`: the record back, or a schema error. */
  function Parse(rules: SchemaRules, r: OrganizerRecord): (res: Result<OrganizerRecord, Error>)
    ensures res.Ok? <==> SatisfiesSchema(rules, r)
    ensures res.Ok? ==> res.value == r
    ensures res.Err? ==> res.error == SchemaError
  {
    if SatisfiesSchema(rules, r) then Ok(r) else Err(SchemaError)
  }
}
