/** The error taxonomy of the contacts domain: the value-object and
    aggregate errors of `contact-infos.errors.ts`, the Organizer's error,
    and the schema failure raised by the persistence schema. */
module Errors {
  import opened Wrappers

  /** Why `Organizer.create` (or the Organizer mapping) failed. */
  datatype OrganizerReason =
    | NullOrUndefined(argumentName: string)  // the guard's first missing argument
    | NameEmpty                              // "Name cannot be empty"
    | NameTooLong                            // "Name cannot be longer than 255 characters"
    | MappingFailed                          // "An error occured during Organizer mapping"

  datatype Error =
    | InvalidEmailError
    | InvalidWebsiteError
    | AddressError
      /** An explicit `message` that is falsy falls back to the default one. */
    | ContactInfosError(message: Option<string>, cause: Option<Error>)
      /** The failure value of `ContactInfos.create`, whose body is not part of this model. */
    | ContactInfosRejected
    | OrganizerError(reason: OrganizerReason, cause: Option<Error>)
      /** The persistence schema refused a record. */
    | SchemaError

  /** The errors declared in `contact-infos.errors.ts`. */
  predicate IsContactInfosFamily(e: Error) {
    e.InvalidEmailError? || e.InvalidWebsiteError? || e.AddressError? || e.ContactInfosError?
  }

  const ContactInfosMappingMessage: string := "An error occured during ContactInfos mapping"

  /** The message an error of `contact-infos.errors.ts` carries. */
  function Message(e: Error): (m: string)
    requires IsContactInfosFamily(e)
    ensures m != ""
    ensures e.ContactInfosError? && e.message.Some? && e.message.value != "" ==> m == e.message.value
    ensures e.ContactInfosError? && (e.message.None? || e.message.value == "") ==> m == "Invalid contact infos"
  {
    match e
    case InvalidEmailError => "Invalid email"
    case InvalidWebsiteError => "Invalid website"
    case AddressError => "Invalid address"
    case ContactInfosError(msg, _) =>
      if msg.Some? && msg.value != "" then msg.value else "Invalid contact infos"
  }

  /** The machine-readable code of an error of `contact-infos.errors.ts`. */
  function Code(e: Error): (c: string)
    requires IsContactInfosFamily(e)
    ensures c != ""
  {
    match e
    case InvalidEmailError => "EMAIL.INVALID"
    case InvalidWebsiteError => "WEBSITE.INVALID"
    case AddressError => "ADDRESS.INVALID"
    case ContactInfosError(_, _) => "CONTACT_INFOS.INVALID"
  }

  /** Distinct error classes carry distinct codes. */
  lemma CodesAreDistinct(e1: Error, e2: Error)
    requires IsContactInfosFamily(e1) && IsContactInfosFamily(e2)
    requires Code(e1) == Code(e2)
    ensures e1.InvalidEmailError? <==> e2.InvalidEmailError?
    ensures e1.InvalidWebsiteError? <==> e2.InvalidWebsiteError?
    ensures e1.AddressError? <==> e2.AddressError?
    ensures e1.ContactInfosError? <==> e2.ContactInfosError?
  {
  }
}
