/** `ContactInfosMapper`: the two directions between the ContactInfos
    aggregate and its stored record. `ToDomain` revalidates every value
    object and collapses falsy optional strings to `None`; `ToPersistence`
    unwraps every option to the value or `undefined`. */
module ContactInfosMapper {
  import opened Wrappers
  import opened Errors
  import opened ContactInfosDomain
  import opened ContactInfosModel
  import opened JsText

  /** `o ? Some(o) : None`. */
  function FromFalsy(o: Option<string>): (r: Option<string>)
    ensures r.Some? <==> Truthy(o)
    ensures r.Some? ==> r == o
  {
    if Truthy(o) then o else None
  }

  /** The Address props `toDomain` hands to `Address.create`. */
  function AddressProps(a: AddressRecord): (p: Address)
    ensures p.city == a.city && p.zipCode == a.zipCode
    ensures p.street.Some? <==> Truthy(a.street)
    ensures p.country.Some? <==> Truthy(a.country)
    ensures p.street.Some? ==> p.street == a.street
    ensures p.country.Some? ==> p.country == a.country
  {
    Address(FromFalsy(a.street), a.city, a.zipCode, FromFalsy(a.country))
  }

  /** The phones of a record, in order and unvalidated; a missing array
      reads as empty. */
  function Phones(r: ContactInfosRecord): (ps: seq<string>)
    ensures |ps| == |r.phones.GetOr([])|
    ensures forall i :: 0 <= i < |ps| ==> ps[i] == r.phones.GetOr([])[i].value
  {
    var stored := r.phones.GetOr([]);
    seq(|stored|, i requires 0 <= i < |stored| => stored[i].value)
  }

  /** The domain props a record denotes once every value object has been
      accepted: what `toDomain` passes to `ContactInfos.create`. */
  function Collapse(r: ContactInfosRecord): (p: ContactInfosProps)
    ensures |p.emails| == |r.emails.GetOr([])|
    ensures forall i :: 0 <= i < |p.emails| ==> p.emails[i].value == r.emails.GetOr([])[i].value
    ensures p.phones == Phones(r)
    ensures p.website.Some? <==> Truthy(r.website)
    ensures p.website.Some? ==> p.website.value.link == r.website.value
    ensures p.address.Some? <==> r.address.Some?
    ensures p.address.Some? ==> p.address.value == AddressProps(r.address.value)
  {
    var stored := r.emails.GetOr([]);
    ContactInfosProps(
      seq(|stored|, i requires 0 <= i < |stored| => Email(stored[i].value)),
      Phones(r),
      if Truthy(r.website) then Some(Website(r.website.value)) else None,
      if r.address.Some? then Some(AddressProps(r.address.value)) else None)
  }

  /** Every stored email is accepted by `Email.create`. */
  predicate EmailsRevalidate(rules: DomainRules, r: ContactInfosRecord) {
    forall i :: 0 <= i < |r.emails.GetOr([])| ==> rules.isEmail(r.emails.GetOr([])[i].value)
  }

  /** A stored website, if truthy, is accepted by `Website.create`. */
  predicate WebsiteRevalidates(rules: DomainRules, r: ContactInfosRecord) {
    Truthy(r.website) ==> rules.isWebsite(r.website.value)
  }

  /** A stored address, if present, is accepted by `Address.create`. */
  predicate AddressRevalidates(rules: DomainRules, r: ContactInfosRecord) {
    r.address.Some? ==> rules.isAddress(AddressProps(r.address.value))
  }

  /** Every check `toDomain` performs succeeds on `r`. */
  predicate Revalidates(rules: DomainRules, r: ContactInfosRecord) {
    && EmailsRevalidate(rules, r)
    && WebsiteRevalidates(rules, r)
    && AddressRevalidates(rules, r)
    && rules.acceptsContactInfos(r.id, Collapse(r))
  }

  /** `record.emails.map(e => Email.create(e.value).unwrap())`: the first
      email that does not revalidate aborts the mapping. */
  function EmailsToDomain(rules: DomainRules, stored: seq<EmailRecord>): (r: Result<seq<Email>, Error>)
    ensures r.Ok? <==> forall i :: 0 <= i < |stored| ==> rules.isEmail(stored[i].value)
    ensures r.Ok? ==> |r.value| == |stored| && forall i :: 0 <= i < |stored| ==> r.value[i].value == stored[i].value
    ensures r.Err? ==> r.error == InvalidEmailError
  {
    if |stored| == 0 then Ok([])
    else
      var head :- CreateEmail(rules, stored[0].value);
      var tail :- EmailsToDomain(rules, stored[1..]);
      Ok([head] + tail)
  }

  function WebsiteToDomain(rules: DomainRules, stored: Option<string>): (r: Result<Option<Website>, Error>)
    ensures r.Ok? <==> (Truthy(stored) ==> rules.isWebsite(stored.value))
    ensures r.Ok? ==> (r.value.Some? <==> Truthy(stored))
    ensures r.Ok? && r.value.Some? ==> r.value.value.link == stored.value
    ensures r.Err? ==> r.error == InvalidWebsiteError
  {
    if Truthy(stored) then
      var w :- CreateWebsite(rules, stored.value);
      Ok(Some(w))
    else Ok(None)
  }

  function AddressToDomain(rules: DomainRules, stored: Option<AddressRecord>): (r: Result<Option<Address>, Error>)
    ensures r.Ok? <==> (stored.Some? ==> rules.isAddress(AddressProps(stored.value)))
    ensures r.Ok? ==> (r.value.Some? <==> stored.Some?)
    ensures r.Ok? && r.value.Some? ==> r.value.value == AddressProps(stored.value)
    ensures r.Err? ==> r.error == AddressError
  {
    if stored.Some? then
      var a :- CreateAddress(rules, AddressProps(stored.value));
      Ok(Some(a))
    else Ok(None)
  }

  /** `ContactInfosMapper.toDomain`. Emails are revalidated first, then the
      website, then the address; a failing value object aborts with its own
      error, and only a failure of `ContactInfos.create` is wrapped in a
      `ContactInfosError`. */
  function ToDomain(rules: DomainRules, r: ContactInfosRecord): (res: Result<ContactInfos, Error>)
    ensures res.Ok? <==> Revalidates(rules, r)
    ensures res.Err? ==> IsContactInfosFamily(res.error)
    ensures res.Ok? ==> res.value == ContactInfos(r.id, Collapse(r))
    ensures !EmailsRevalidate(rules, r) ==> res == Err(InvalidEmailError)
    ensures EmailsRevalidate(rules, r) && !WebsiteRevalidates(rules, r) ==> res == Err(InvalidWebsiteError)
    ensures EmailsRevalidate(rules, r) && WebsiteRevalidates(rules, r) && !AddressRevalidates(rules, r)
            ==> res == Err(AddressError)
    ensures EmailsRevalidate(rules, r) && WebsiteRevalidates(rules, r) && AddressRevalidates(rules, r)
            && !rules.acceptsContactInfos(r.id, Collapse(r))
            ==> res == Err(ContactInfosError(Some(ContactInfosMappingMessage), Some(ContactInfosRejected)))
  {
    var emails :- EmailsToDomain(rules, r.emails.GetOr([]));
    var website :- WebsiteToDomain(rules, r.website);
    var address :- AddressToDomain(rules, r.address);
    var props := ContactInfosProps(emails, Phones(r), website, address);
    assert props == Collapse(r);
    var created := CreateContactInfos(rules, props, r.id);
    if created.Err? then
      Err(ContactInfosError(Some(ContactInfosMappingMessage), Some(created.error)))
    else
      created
  }

  /** `ContactInfosMapper.toPersistence`. */
  function ToPersistence(c: ContactInfos): (r: ContactInfosRecord)
    ensures r.id == c.id
    ensures r.emails.Some? && |r.emails.value| == |c.props.emails|
    ensures forall i :: 0 <= i < |c.props.emails| ==> r.emails.value[i].value == c.props.emails[i].value
    ensures r.phones.Some? && |r.phones.value| == |c.props.phones|
    ensures forall i :: 0 <= i < |c.props.phones| ==> r.phones.value[i].value == c.props.phones[i]
    ensures c.props.website.None? ==> r.website.None?
    ensures c.props.website.Some? ==> r.website == Some(c.props.website.value.link)
    ensures c.props.address.None? ==> r.address.None?
    ensures c.props.address.Some? ==> r.address.Some?
    ensures c.props.address.Some? ==> var a, ar := c.props.address.value, r.address.value;
              ar.street == a.street && ar.city == a.city && ar.zipCode == a.zipCode && ar.country == a.country
  {
    var es := c.props.emails;
    var ps := c.props.phones;
    ContactInfosRecord(
      c.id,
      Some(seq(|es|, i requires 0 <= i < |es| => EmailRecord(es[i].value))),
      Some(seq(|ps|, i requires 0 <= i < |ps| => PhoneRecord(ps[i]))),
      if c.props.website.Some? then Some(c.props.website.value.link) else None,
      match c.props.address
      case None => None
      case Some(a) => Some(AddressRecord(a.street, a.city, a.zipCode, a.country)))
  }

  /** No optional string inside `c` is the empty string, so none of them
      reads back as falsy. */
  predicate NoEmptyOptionals(c: ContactInfos) {
    && (c.props.website.Some? ==> c.props.website.value.link != "")
    && (c.props.address.Some? ==> c.props.address.value.street != Some(""))
    && (c.props.address.Some? ==> c.props.address.value.country != Some(""))
  }

  /** Storing a valid aggregate and reading it back yields the same
      aggregate: id, emails, phones, website and address. */
  lemma {:induction false} RoundTrip(rules: DomainRules, c: ContactInfos)
    requires IsValid(rules, c)
    requires NoEmptyOptionals(c)
    ensures ToDomain(rules, ToPersistence(c)) == Ok(c)
  {
    var r := ToPersistence(c);
    var p := Collapse(r);
    assert p.emails == c.props.emails;
    assert p.phones == c.props.phones;
    assert p == c.props;
  }

  /** The record `toDomain` then `toPersistence` produce: missing arrays
      become empty ones and falsy optional strings become `undefined`. */
  function Normalize(r: ContactInfosRecord): (n: ContactInfosRecord)
    ensures n.id == r.id
    ensures n.emails == Some(r.emails.GetOr([])) && n.phones == Some(r.phones.GetOr([]))
    ensures n.website == FromFalsy(r.website)
    ensures n.address.Some? <==> r.address.Some?
    ensures n.address.Some? ==> n.address.value.street == FromFalsy(r.address.value.street)
    ensures n.address.Some? ==> n.address.value.country == FromFalsy(r.address.value.country)
    ensures n.address.Some? ==> n.address.value.city == r.address.value.city
    ensures n.address.Some? ==> n.address.value.zipCode == r.address.value.zipCode
  {
    ContactInfosRecord(
      r.id,
      Some(r.emails.GetOr([])),
      Some(r.phones.GetOr([])),
      FromFalsy(r.website),
      match r.address
      case None => None
      case Some(a) => Some(AddressRecord(FromFalsy(a.street), a.city, a.zipCode, FromFalsy(a.country))))
  }

  /** Reading a record and storing the result again normalises it. */
  lemma {:induction false} ReadThenStoreNormalizes(rules: DomainRules, r: ContactInfosRecord)
    requires ToDomain(rules, r).Ok?
    ensures ToPersistence(ToDomain(rules, r).value) == Normalize(r)
  {
    var back := ToPersistence(ToDomain(rules, r).value);
    var n := Normalize(r);
    assert back.emails.value == n.emails.value;
    assert back.phones.value == n.phones.value;
  }

  /** Normalisation changes a record exactly when it lacks an array or
      holds an empty optional string. */
  lemma NormalizeFixesExactly(r: ContactInfosRecord)
    ensures Normalize(r) == r <==>
      && r.emails.Some? && r.phones.Some?
      && r.website != Some("")
      && (r.address.Some? ==> r.address.value.street != Some("") && r.address.value.country != Some(""))
  {
  }

  /** Hence reading then storing is not the identity: a stored `""`
      website comes back as `undefined`. */
  lemma EmptyWebsiteIsNotPreserved(rules: DomainRules, r: ContactInfosRecord)
    requires r.website == Some("")
    requires ToDomain(rules, r).Ok?
    ensures ToPersistence(ToDomain(rules, r).value).website.None?
    ensures ToPersistence(ToDomain(rules, r).value) != r
  {
  }

  /** When `ContactInfos.create` rejects a stored record, the mapping error
      reports the mapping message under the ContactInfos code, and keeps the
      rejection as its cause. */
  lemma RejectionReportsMappingMessage(rules: DomainRules, r: ContactInfosRecord)
    requires EmailsRevalidate(rules, r) && WebsiteRevalidates(rules, r) && AddressRevalidates(rules, r)
    requires !rules.acceptsContactInfos(r.id, Collapse(r))
    ensures Message(ToDomain(rules, r).error) == ContactInfosMappingMessage
    ensures Code(ToDomain(rules, r).error) == "CONTACT_INFOS.INVALID"
    ensures ToDomain(rules, r).error.cause == Some(ContactInfosRejected)
  {
  }

  /** The record `toPersistence` builds meets `contactInfosSchema` exactly
      when the aggregate's id is a UUID and each of its emails passes the
      schema's email check; phones, website and address always do. */
  lemma StoredRecordMeetsSchemaIff(rules: SchemaRules, c: ContactInfos)
    ensures ContactInfosModel.SatisfiesSchema(rules, ToPersistence(c)) <==>
      rules.isUuid(c.id) && forall i :: 0 <= i < |c.props.emails| ==> rules.isEmail(c.props.emails[i].value)
  {
  }
}
