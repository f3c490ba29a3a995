# Organizer and ContactInfos domain layer, in Dafny

A model of the contacts domain of the booking backend: the Organizer
aggregate with its validating factory, its creation event and its one
mutator `changeName`; the ContactInfos aggregate with its Email, Website
and Address value objects; and the two mappers that translate these
aggregates to and from their persistence records, including the zod schema
check on the way out.

Everything is a pure function over immutable datatypes:

- `wrappers.dfy`: `Option` (absent = `undefined`) and `Result`.
- `js_text.dfy`: JavaScript's `trim` and `length`. The whitespace set is the
  ECMAScript WhiteSpace and LineTerminator set. `length` counts UTF-16 code
  units.
- `errors.dfy`: the error classes of `contact-infos.errors.ts`, with their
  messages and codes, plus `OrganizerError` and the schema failure.
- `contact_infos.dfy`: the ContactInfos aggregate and value objects. Their
  validation is held in `DomainRules` as uninterpreted predicates. Each
  factory returns its input wrapped unchanged exactly when its predicate
  holds.
- `contact_infos_model.dfy`, `organizer_model.dfy`: the stored record shapes
  and their schemas. zod's `.uuid()`, `.email()` and date checks are held in
  `SchemaRules` as uninterpreted predicates.
- `contact_infos_mapper.dfy`, `organizer_mapper.dfy`: the mappers and their
  round-trip and normalisation lemmas.
- `organizer.dfy`: the Organizer aggregate.

Randomness is a parameter. `Organizer.create` takes `freshId`, the identity
the aggregate root generates for a new organizer.

Error propagation in the code:

- In `ContactInfosMapper.toDomain`, an email, website or address that fails
  revalidation aborts the mapping with its own error (`InvalidEmailError`,
  `InvalidWebsiteError`, `AddressError`). The cause is `.unwrap()` throwing
  before `ContactInfos.create` runs. Only a failure of `ContactInfos.create`
  itself is wrapped in a `ContactInfosError`.
- In `OrganizerMapper.toDomain`, a ContactInfos mapping failure escapes
  unwrapped. Only a failure of `Organizer.create` is wrapped in an
  `OrganizerError`.
- The length limit is checked on the untrimmed name, in UTF-16 code units.
  The trimmed length is not what is checked.

## Model

| member | source | states |
|---|---|---|
| JsText.IsWhitespace | src/domains/contacts/organizer/domain/organizer.entity.ts:94 | The set `trim` strips: ECMAScript WhiteSpace and LineTerminator. Each of these characters is a single UTF-16 code unit. |
| JsText.Trim | src/domains/contacts/organizer/domain/organizer.entity.ts:93-95 | `trim` returns the middle slice of the input with only leading and trailing whitespace removed. It gives `""` exactly when every character is whitespace. Otherwise the result starts and ends with a non-whitespace character. |
| JsText.Utf16Length | src/domains/contacts/organizer/domain/organizer.entity.ts:98 | `length` counts UTF-16 code units: between the character count and twice it. |
| JsText.Utf16LengthOfBmp | src/domains/contacts/organizer/domain/organizer.entity.ts:97-99 | `length` equals the character count when every character is in the BMP. |
| OrganizerEntity.NameIsEmpty | src/domains/contacts/organizer/domain/organizer.entity.ts:93-95 | A name is empty after trimming exactly when it is blank (every character whitespace, `""` included). |
| OrganizerEntity.NameIsTooLong | src/domains/contacts/organizer/domain/organizer.entity.ts:97-99 | Any name over 255 characters is too long. A too-long name has over 127 characters. For BMP-only names, too long means more than 255 characters. |
| OrganizerEntity.IsNew | src/domains/contacts/organizer/domain/organizer.entity.ts:77 | `!id`: an absent id and the empty id mean a new organizer, and any non-empty id means a rehydrated one. |
| OrganizerEntity.GuardAgainstMissing | src/domains/contacts/organizer/domain/organizer.entity.ts:59-66 | Reports the first missing field in the order bookerId, name, type. Reports nothing exactly when all three are present. |
| OrganizerEntity.Create | src/domains/contacts/organizer/domain/organizer.entity.ts:55-91 | Checks run in this order: the presence guard, then blankness, then length over 255; each failure is a distinct `OrganizerError`. Success happens exactly when the fields are present and the name is valid. On success bookerId, name, type and contactInfos are kept, and contactIds defaults to `[]`. A new organizer (id absent or `""`) gets the fresh id and exactly one `OrganizerCreatedEvent`. Otherwise the organizer keeps the supplied id and has no creation event. |
| OrganizerEntity.ChangeName | src/domains/contacts/organizer/domain/organizer.entity.ts:35-37 | Sets the name to the argument with no check. Every other field, the events included, is unchanged. |
| OrganizerEntity.CreateEstablishesInvariant | src/domains/contacts/organizer/domain/organizer.entity.ts:68-88 | Every organizer `create` returns has a non-blank name of at most 255 code units and a non-empty id. |
| OrganizerEntity.ChangeNameKeepsInvariantIff | src/domains/contacts/organizer/domain/organizer.entity.ts:35-37 | Renaming keeps that invariant exactly when `create` would accept the new name. |
| OrganizerEntity.ChangeNameLastWins | src/domains/contacts/organizer/domain/organizer.entity.ts:35-37 | Two renames equal one rename to the last name. Renaming to the current name is the identity. |
| OrganizerEntity.NameExamples | src/domains/contacts/organizer/domain/__tests/unit/organizer.spec.ts:63-95 | 256 `'a'` characters are too long, `""` is empty, and "John Doe" is a valid name. |
| Errors.Message | src/domains/contacts/contact-infos/domain/contact-infos.errors.ts:3-37 | Every error carries a non-empty message. A `ContactInfosError` falls back to "Invalid contact infos" when its message is missing or `""`. |
| Errors.Code | src/domains/contacts/contact-infos/domain/contact-infos.errors.ts:5-32 | Every error of the family carries a non-empty code. |
| Errors.CodesAreDistinct | src/domains/contacts/contact-infos/domain/contact-infos.errors.ts:3-37 | Two errors with the same code are of the same class. |
| ContactInfosDomain.CreateEmail | src/domains/contacts/contact-infos/domain/contact-infos.mapper.ts:22 | `Email.create` succeeds exactly on valid strings and keeps the value. Otherwise it fails with `InvalidEmailError`. |
| ContactInfosDomain.CreateWebsite | src/domains/contacts/contact-infos/domain/contact-infos.mapper.ts:26 | `Website.create` succeeds exactly on valid links and keeps the link. Otherwise it fails with `InvalidWebsiteError`. |
| ContactInfosDomain.CreateAddress | src/domains/contacts/contact-infos/domain/contact-infos.mapper.ts:30-39 | `Address.create` succeeds exactly on valid props and returns them unchanged. Otherwise it fails with `AddressError`. |
| ContactInfosDomain.CreateContactInfos | src/domains/contacts/contact-infos/domain/contact-infos.mapper.ts:19-44 | `ContactInfos.create` keeps the supplied id and props when it accepts them. |
| ContactInfosMapper.FromFalsy | src/domains/contacts/contact-infos/domain/contact-infos.mapper.ts:31-38 | An optional string is kept exactly when it is truthy. `undefined` and `""` both become absent. |
| ContactInfosMapper.AddressProps | src/domains/contacts/contact-infos/domain/contact-infos.mapper.ts:28-41 | city and zipCode are copied. Street and country are present exactly when stored truthy. |
| ContactInfosMapper.Phones | src/domains/contacts/contact-infos/domain/contact-infos.mapper.ts:24 | Phones pass through in order without validation. A missing array reads as empty. |
| ContactInfosMapper.Collapse | src/domains/contacts/contact-infos/domain/contact-infos.mapper.ts:19-44 | The domain props a record denotes: emails in order (a missing array is empty), phones, a website only when truthy, and an address only when present. |
| ContactInfosMapper.EmailsToDomain | src/domains/contacts/contact-infos/domain/contact-infos.mapper.ts:21-23 | Succeeds exactly when every stored email revalidates, keeping order and values. Otherwise it fails with `InvalidEmailError`. |
| ContactInfosMapper.WebsiteToDomain | src/domains/contacts/contact-infos/domain/contact-infos.mapper.ts:25-27 | A falsy website is absent. A truthy one must revalidate or the mapping fails with `InvalidWebsiteError`. |
| ContactInfosMapper.AddressToDomain | src/domains/contacts/contact-infos/domain/contact-infos.mapper.ts:28-41 | A present address must revalidate, or the mapping fails with `AddressError`. |
| ContactInfosMapper.ToDomain | src/domains/contacts/contact-infos/domain/contact-infos.mapper.ts:18-54 | Succeeds exactly when every check passes, giving the record's id and collapsed props. Failures take precedence in order: email, website, address, and only then `ContactInfos.create`. Only the last is wrapped, as `ContactInfosError` with the mapping message and the cause. Every failure is an error of `contact-infos.errors.ts`. |
| ContactInfosMapper.RejectionReportsMappingMessage | src/domains/contacts/contact-infos/domain/contact-infos.mapper.ts:46-51 | A record that `ContactInfos.create` rejects fails with message "An error occured during ContactInfos mapping", code `CONTACT_INFOS.INVALID`, and the rejection as cause. |
| ContactInfosMapper.ToPersistence | src/domains/contacts/contact-infos/domain/contact-infos.mapper.ts:56-81 | Copies the id. Emails become `{value}` and phones become `{value}`, in order and with the same lengths. A website becomes its link or `undefined`. An address is copied field by field or becomes `undefined`. |
| ContactInfosMapper.RoundTrip | src/domains/contacts/contact-infos/domain/contact-infos.mapper.ts:18-81 | Storing then reading returns the same aggregate when its value objects are valid and its optional strings are non-empty. |
| ContactInfosMapper.Normalize | src/domains/contacts/contact-infos/domain/contact-infos.mapper.ts:21-38 | Missing arrays become empty ones. Falsy website, street and country become `undefined`. Everything else is kept. |
| ContactInfosMapper.ReadThenStoreNormalizes | src/domains/contacts/contact-infos/domain/contact-infos.mapper.ts:18-81 | Reading a record and storing the result gives back the normalised record. |
| ContactInfosMapper.NormalizeFixesExactly | src/domains/contacts/contact-infos/domain/contact-infos.mapper.ts:21-38 | Normalising leaves a record unchanged exactly when both arrays are present and no optional string is `""`. |
| ContactInfosMapper.EmptyWebsiteIsNotPreserved | src/domains/contacts/contact-infos/domain/contact-infos.mapper.ts:25-27 | A stored `""` website comes back as `undefined`, so reading then storing is not the identity. |
| ContactInfosModel.SatisfiesSchema | src/domains/contacts/contact-infos/infrastructure/persistence/contact-infos.model.ts:3-25 | `contactInfosSchema`: a UUID id, both arrays present, and every email schema-valid. Phones, website and address may hold any strings. |
| ContactInfosMapper.StoredRecordMeetsSchemaIff | src/domains/contacts/contact-infos/infrastructure/persistence/contact-infos.model.ts:3-25 | A record built by `toPersistence` meets `contactInfosSchema` exactly when the aggregate's id is a UUID and each email passes the schema's email check. |
| OrganizerModel.Parse | src/domains/contacts/organizer/infrastructure/persistence/organizer.model.ts:5-14 | `organizerSchema.parse` returns the record exactly when it meets the schema: UUID ids, well-formed dates and emails, and both contact arrays present. Otherwise it fails. |
| OrganizerMapper.ToDomain | src/domains/contacts/organizer/domain/organizer.mapper.ts:15-35 | A ContactInfos failure escapes unwrapped. A blank or over-long stored name fails as `OrganizerError` wrapping the `create` error. Success happens exactly when contact infos revalidate and the name is valid. On success it copies bookerId, name, type and contactIds and maps contactInfos. For a non-empty id it keeps the id and queues no event. |
| OrganizerMapper.ToPersistence | src/domains/contacts/organizer/domain/organizer.mapper.ts:38-49 | Succeeds exactly when id, bookerId, the contact infos id and every contactId are UUIDs and every email is schema-valid. Otherwise it fails with a schema error. On success it copies the fields, maps contactInfos and sets no timestamps. |
| OrganizerMapper.RoundTrip | src/domains/contacts/organizer/domain/organizer.mapper.ts:15-49 | Storing a well-formed organizer that passes the schema, then reading it back, gives the same organizer with no pending events. |
| OrganizerMapper.ReadNeverRaisesCreatedEvent | src/domains/contacts/organizer/domain/organizer.mapper.ts:15-25 | A stored organizer with a non-empty id is read back with no creation event. |
| OrganizerMapper.EmptyStoredIdIsTreatedAsNew | src/domains/contacts/organizer/domain/organizer.mapper.ts:24 | A stored id of `""` is falsy to `create`. The organizer read back gets a fresh id and a creation event. |
| OrganizerMapper.BlankRenameCannotBeReadBack | src/domains/contacts/organizer/domain/organizer.entity.ts:35-37 | After `changeName` to a blank name, the organizer can still be stored. Reading it back then fails with `OrganizerError` wrapping "Name cannot be empty". |
| OrganizerMapper.ReadThenStoreNormalizes | src/domains/contacts/organizer/domain/organizer.mapper.ts:15-49 | Reading a schema-valid record and storing the result drops createdAt/updatedAt and normalises the contact infos. Nothing else changes. |

## Left out

- The Prisma repository and the in-memory repository (save/upsert, `idExists`, `findOneById`, `findAllForBooker`): asynchronous ORM calls, logging and I/O against a store this model does not have. Properties of `save`, `idExists` and the finders go with them.
- NestJS module wiring and the create-user request DTO are framework plumbing.
- The validation grammars of Email, Website and Address, of `ContactInfos.create`, and of zod's `.uuid()`, `.email()` and date preprocessing: these bodies are not part of this model. They are uninterpreted predicates in `DomainRules` and `SchemaRules`.
- The `Guard` utility's message text is not part of this model. A guard failure is `NullOrUndefined(argumentName)`, and the `OrganizerError` messages become the `OrganizerReason` constructors.
- `AggregateRoot` is not part of this model. Its id generation for a falsy id is the `freshId` parameter. The model assumes a generated id replaces a falsy one, including `""`.
- `OrganizerCreatedEvent` holds the organizer's id, not a reference to the organizer, because values here cannot refer to themselves. Event dispatch and clearing after save are not modelled.
- `contactInfos` is not guarded by `create`. A `null` contactInfos has no counterpart here.
- OrganizerModel.Parse: the schema's check that `type` is one of the four enum values holds by typing. The record's `type` is `OrganizerType`, as the record type declares. The zod parse strips unknown keys, and records here have none.
- ContactInfosMapper.ToDomain: the exact object `.unwrap()` throws for a failed value object is oxide.ts behaviour. The model surfaces the value object's own error.
- A `null` array or field is not distinguished from `undefined`. Both are `None`.
- ContactInfosDomain.CreateContactInfos: `ContactInfos.create` is not part of this model. The model assumes it keeps the supplied id as it is, `""` included, whereas `Organizer.create` replaces a falsy id.
- JsText.Utf16Length and JsText.Trim cover only well-formed UTF-16 strings. A name holding an unpaired surrogate (length 1 in JavaScript, kept by `trim`) cannot be represented, because a character here is a Unicode scalar value.
