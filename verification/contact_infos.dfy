/** The ContactInfos aggregate and its value objects (Email, Website,
    Address). Their validation grammars are not part of this model: each is
    an uninterpreted predicate carried by `DomainRules`, and each factory
    returns the wrapped value unchanged exactly when its predicate holds. */
module ContactInfosDomain {
  import opened Wrappers
  import opened Errors

  /** Entity identities are plain strings (UUIDs in practice). */
  type EntityId = string

  datatype Email = Email(value: string)

  datatype Website = Website(link: string)

  datatype Address = Address(street: Option<string>, city: string, zipCode: string, country: Option<string>)

  /** The arguments of `ContactInfos.create`. */
  datatype ContactInfosProps = ContactInfosProps(
    emails: seq<Email>,
    phones: seq<string>,
    website: Option<Website>,
    address: Option<Address>)

  datatype ContactInfos = ContactInfos(id: EntityId, props: ContactInfosProps)

  /** The validation each factory applies, left uninterpreted. */
  datatype DomainRules = DomainRules(
    isEmail: string -> bool,
    isWebsite: string -> bool,
    isAddress: Address -> bool,
    acceptsContactInfos: (EntityId, ContactInfosProps) -> bool)

  /** `Email.create`. */
  function CreateEmail(rules: DomainRules, value: string): (r: Result<Email, Error>)
    ensures r.Ok? <==> rules.isEmail(value)
    ensures r.Ok? ==> r.value.value == value
    ensures r.Err? ==> r.error == InvalidEmailError
  {
    if rules.isEmail(value) then Ok(Email(value)) else Err(InvalidEmailError)
  }

  /** `Website.create`. */
  function CreateWebsite(rules: DomainRules, link: string): (r: Result<Website, Error>)
    ensures r.Ok? <==> rules.isWebsite(link)
    ensures r.Ok? ==> r.value.link == link
    ensures r.Err? ==> r.error == InvalidWebsiteError
  {
    if rules.isWebsite(link) then Ok(Website(link)) else Err(InvalidWebsiteError)
  }

  /** `Address.create`. */
  function CreateAddress(rules: DomainRules, props: Address): (r: Result<Address, Error>)
    ensures r.Ok? <==> rules.isAddress(props)
    ensures r.Ok? ==> r.value == props
    ensures r.Err? ==> r.error == AddressError
  {
    if rules.isAddress(props) then Ok(props) else Err(AddressError)
  }

  /** `ContactInfos.create(props, id)`, always called here with an id. */
  function CreateContactInfos(rules: DomainRules, props: ContactInfosProps, id: EntityId): (r: Result<ContactInfos, Error>)
    ensures r.Ok? <==> rules.acceptsContactInfos(id, props)
    ensures r.Ok? ==> r.value.id == id && r.value.props == props
    ensures r.Err? ==> r.error == ContactInfosRejected
  {
    if rules.acceptsContactInfos(id, props) then Ok(ContactInfos(id, props)) else Err(ContactInfosRejected)
  }

  /** What the factories guarantee of an aggregate they built: every value
      object inside it passed its own validation, and the aggregate passed
      `ContactInfos.create`. */
  predicate IsValid(rules: DomainRules, c: ContactInfos) {
    && (forall i :: 0 <= i < |c.props.emails| ==> rules.isEmail(c.props.emails[i].value))
    && (c.props.website.Some? ==> rules.isWebsite(c.props.website.value.link))
    && (c.props.address.Some? ==> rules.isAddress(c.props.address.value))
    && rules.acceptsContactInfos(c.id, c.props)
  }
}
