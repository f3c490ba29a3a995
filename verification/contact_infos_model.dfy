/** The persistence shape of ContactInfos and its zod schema. The string
    formats zod checks (`.uuid()`, `.email()`, and the date preprocessing
    the Organizer schema uses) are uninterpreted predicates in
    `SchemaRules`. */
module ContactInfosModel {
  import opened Wrappers

  datatype EmailRecord = EmailRecord(value: string)

  datatype PhoneRecord = PhoneRecord(value: string)

  /** `undefined` street or country is `None`; a stored `""` is `Some("")`. */
  datatype AddressRecord = AddressRecord(street: Option<string>, city: string, zipCode: string, country: Option<string>)

  /** A stored ContactInfos. The arrays are optional because the mapper
      accepts a record that lacks them. */
  datatype ContactInfosRecord = ContactInfosRecord(
    id: string,
    emails: Option<seq<EmailRecord>>,
    phones: Option<seq<PhoneRecord>>,
    website: Option<string>,
    address: Option<AddressRecord>)

  datatype SchemaRules = SchemaRules(
    isUuid: string -> bool,
    isEmail: string -> bool,
    isDate: string -> bool)

  /** `contactInfosSchema`: a UUID id, both arrays present, every email
      well-formed; phones, website and address fields are any strings. */
  predicate SatisfiesSchema(rules: SchemaRules, r: ContactInfosRecord) {
    && rules.isUuid(r.id)
    && r.emails.Some?
    && (forall i :: 0 <= i < |r.emails.value| ==> rules.isEmail(r.emails.value[i].value))
    && r.phones.Some?
  }
}
