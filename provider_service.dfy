/**
 * Provider accounts (`services/ProviderService.java`): registration with a unique email and an encoded
 * password, profile completion, and lookup by email. The provider's profile fields are those of
 * `ProfileCompletionRequest`.
 */
module ProviderService {
  import opened Wrappers
  import opened Sequences
  import DocumentStore

  /** The eight profile fields a provider fills in; any of them may be `null`. */
  datatype ProviderProfile = ProviderProfile(
    fullName: Option<string>,
    professionalTitle: Option<string>,
    specialty: Option<string>,
    subSpecialties: Option<seq<string>>,
    stateLicenses: Option<seq<string>>,
    primaryClinicName: Option<string>,
    clinicAddress: Option<string>,
    contactNumber: Option<string>)

  /** The completion request carries exactly the provider's profile fields. */
  type ProfileCompletionRequest = ProviderProfile

  const EmptyProviderProfile := ProviderProfile(None, None, None, None, None, None, None, None)

  /** A stored provider: the account, its four account flags, and its profile. */
  datatype ProviderRecord = ProviderRecord(
    id: Option<string>,
    email: Option<string>,
    password: Option<string>,
    enabled: bool,
    accountNonExpired: bool,
    accountNonLocked: bool,
    credentialsNonExpired: bool,
    profile: ProviderProfile)

  /** `new Provider()`: no id, email or password, every flag true, an empty profile. */
  const BlankProvider := ProviderRecord(None, None, None, true, true, true, true, EmptyProviderProfile)

  /** A provider whose fields are assigned in place through its setters. */
  class Provider {
    var id: Option<string>
    var email: Option<string>
    var password: Option<string>
    var enabled: bool
    var accountNonExpired: bool
    var accountNonLocked: bool
    var credentialsNonExpired: bool
    var fullName: Option<string>
    var professionalTitle: Option<string>
    var specialty: Option<string>
    var subSpecialties: Option<seq<string>>
    var stateLicenses: Option<seq<string>>
    var primaryClinicName: Option<string>
    var clinicAddress: Option<string>
    var contactNumber: Option<string>

    function Snapshot(): ProviderRecord
      reads this
    {
      ProviderRecord(id, email, password, enabled, accountNonExpired, accountNonLocked, credentialsNonExpired,
        ProviderProfile(fullName, professionalTitle, specialty, subSpecialties, stateLicenses, primaryClinicName, clinicAddress, contactNumber))
    }

    constructor ()
      ensures Snapshot() == BlankProvider
    {
      id, email, password := None, None, None;
      enabled, accountNonExpired, accountNonLocked, credentialsNonExpired := true, true, true, true;
      fullName, professionalTitle, specialty := None, None, None;
      subSpecialties, stateLicenses := None, None;
      primaryClinicName, clinicAddress, contactNumber := None, None, None;
    }

    /** The provider as read back from the store. */
    constructor Load(r: ProviderRecord)
      ensures Snapshot() == r
    {
      id, email, password := r.id, r.email, r.password;
      enabled, accountNonExpired, accountNonLocked, credentialsNonExpired := r.enabled, r.accountNonExpired, r.accountNonLocked, r.credentialsNonExpired;
      fullName, professionalTitle, specialty := r.profile.fullName, r.profile.professionalTitle, r.profile.specialty;
      subSpecialties, stateLicenses := r.profile.subSpecialties, r.profile.stateLicenses;
      primaryClinicName, clinicAddress, contactNumber := r.profile.primaryClinicName, r.profile.clinicAddress, r.profile.contactNumber;
    }

    method SetEmail(v: Option<string>)
      modifies this
      ensures Snapshot() == old(Snapshot()).(email := v)
    {
      email := v;
    }

    method SetPassword(v: Option<string>)
      modifies this
      ensures Snapshot() == old(Snapshot()).(password := v)
    {
      password := v;
    }

    method SetFullName(v: Option<string>)
      modifies this
      ensures Snapshot() == old(Snapshot()).(profile := old(Snapshot()).profile.(fullName := v))
    {
      fullName := v;
    }

    method SetProfessionalTitle(v: Option<string>)
      modifies this
      ensures Snapshot() == old(Snapshot()).(profile := old(Snapshot()).profile.(professionalTitle := v))
    {
      professionalTitle := v;
    }

    method SetSpecialty(v: Option<string>)
      modifies this
      ensures Snapshot() == old(Snapshot()).(profile := old(Snapshot()).profile.(specialty := v))
    {
      specialty := v;
    }

    method SetSubSpecialties(v: Option<seq<string>>)
      modifies this
      ensures Snapshot() == old(Snapshot()).(profile := old(Snapshot()).profile.(subSpecialties := v))
    {
      subSpecialties := v;
    }

    method SetStateLicenses(v: Option<seq<string>>)
      modifies this
      ensures Snapshot() == old(Snapshot()).(profile := old(Snapshot()).profile.(stateLicenses := v))
    {
      stateLicenses := v;
    }

    method SetPrimaryClinicName(v: Option<string>)
      modifies this
      ensures Snapshot() == old(Snapshot()).(profile := old(Snapshot()).profile.(primaryClinicName := v))
    {
      primaryClinicName := v;
    }

    method SetClinicAddress(v: Option<string>)
      modifies this
      ensures Snapshot() == old(Snapshot()).(profile := old(Snapshot()).profile.(clinicAddress := v))
    {
      clinicAddress := v;
    }

    method SetContactNumber(v: Option<string>)
      modifies this
      ensures Snapshot() == old(Snapshot()).(profile := old(Snapshot()).profile.(contactNumber := v))
    {
      contactNumber := v;
    }
  }

  type ProviderStore = DocumentStore.Collection<ProviderRecord>

  /** No two stored providers share an email (the unique index on `email`). */
  ghost predicate UniqueEmails(c: ProviderStore)
  {
    forall a, b :: a in c.docs && b in c.docs && c.docs[a].email == c.docs[b].email ==> a == b
  }

  /** The store is well formed, each provider is stored under its own id, and emails are unique. */
  ghost predicate ValidStore(c: ProviderStore)
  {
    && DocumentStore.Valid(c)
    && (forall id :: id in c.docs ==> c.docs[id].id == Some(id))
    && UniqueEmails(c)
  }

  /** `providerRepository.findByEmail`: the one provider with this email, if any. */
  function FindProviderByEmail(c: ProviderStore, email: string): (r: Option<ProviderRecord>)
    requires ValidStore(c)
    ensures r.Some? ==> r.value in c.docs.Values && r.value.email == Some(email)
    ensures r.Some? ==> forall id :: id in c.docs && c.docs[id].email == Some(email) ==> c.docs[id] == r.value
    ensures r.None? ==> forall id :: id in c.docs ==> c.docs[id].email != Some(email)
  {
    var all := DocumentStore.Listing(c);
    var r := FindFirst(all, (p: ProviderRecord) => p.email == Some(email));
    assert r.Some? ==> forall id :: id in c.docs && c.docs[id].email == Some(email) ==> c.docs[id] == r.value by {
      if r.Some? {
        var owner :| owner in c.docs && c.docs[owner] == r.value;
        assert forall id :: id in c.docs && c.docs[id].email == Some(email) ==> id == owner;
      }
    }
    assert forall id :: id in c.docs ==> c.docs[id] in all;
    r
  }

  /** `providerRepository.existsByEmail` */
  function ProviderExistsByEmail(c: ProviderStore, email: string): (b: bool)
    requires ValidStore(c)
    ensures b <==> exists id :: id in c.docs && c.docs[id].email == Some(email)
  {
    var r := FindProviderByEmail(c, email);
    assert r.Some? ==> exists id :: id in c.docs && c.docs[id].email == Some(email) by {
      if r.Some? {
        var owner :| owner in c.docs && c.docs[owner] == r.value;
      }
    }
    r.Some?
  }

  /** Another stored provider (a different id) already uses `email`. */
  predicate EmailTakenByOther(c: ProviderStore, id: string, email: Option<string>)
  {
    exists other :: other in c.docs && other != id && c.docs[other].email == email
  }

  /** Storing a provider under its own id keeps the store valid when no other provider has its email. */
  lemma StoreKeepsValid(c: ProviderStore, key: string, p: ProviderRecord)
    requires ValidStore(c) && p.id == Some(key) && !EmailTakenByOther(c, key, p.email)
    ensures ValidStore(DocumentStore.Save(c, key, p))
  {
    var r := DocumentStore.Save(c, key, p);
    forall a, b | a in r.docs && b in r.docs && r.docs[a].email == r.docs[b].email
      ensures a == b
    {
      if a != key && b != key {
        assert c.docs[a].email == c.docs[b].email;
      }
    }
  }

  /**
   * `providerRepository.save`: stores the provider under its id, or under the fresh id the store
   * generates when it has none; a different provider with the same email trips the unique index.
   */
  function SaveProvider(c: ProviderStore, p: ProviderRecord, freshId: string): (r: Result<(ProviderStore, ProviderRecord)>)
    requires ValidStore(c) && (p.id.None? ==> freshId !in c.docs)
    ensures r.Ok? <==> !EmailTakenByOther(c, p.id.GetOr(freshId), p.email)
    ensures r.Ok? ==> ValidStore(r.value.0)
    ensures r.Ok? ==> r.value.1 == p.(id := Some(p.id.GetOr(freshId))) && r.value.0.docs == c.docs[p.id.GetOr(freshId) := r.value.1]
    ensures r.Ok? ==> r.value.0.order == if p.id.GetOr(freshId) in c.docs then c.order else c.order + [p.id.GetOr(freshId)]
  {
    var key := p.id.GetOr(freshId);
    if EmailTakenByOther(c, key, p.email) then
      Err("E11000 duplicate key error: email")
    else
      var saved := p.(id := Some(key));
      StoreKeepsValid(c, key, saved);
      Ok((DocumentStore.Save(c, key, saved), saved))
  }

  /** The provider `registerProvider` creates: a blank provider with the email and the encoded password. */
  function Registered(id: string, email: string, encodedPassword: string): (p: ProviderRecord)
    ensures p.id == Some(id) && p.email == Some(email) && p.password == Some(encodedPassword)
    ensures p.enabled && p.accountNonExpired && p.accountNonLocked && p.credentialsNonExpired
    ensures p.profile == EmptyProviderProfile
  {
    BlankProvider.(id := Some(id), email := Some(email), password := Some(encodedPassword))
  }

  class ProviderService {
    var providers: ProviderStore

    ghost predicate Valid()
      reads this
    {
      ValidStore(providers)
    }

    constructor ()
      ensures Valid() && providers.docs == map[]
    {
      providers := DocumentStore.Empty();
    }

    /** `loadUserByUsername`: the provider with this email, or `UsernameNotFoundException`. */
    function LoadUserByUsername(email: string): (r: Result<ProviderRecord>)
      reads this
      requires Valid()
      ensures r.Ok? <==> exists id :: id in providers.docs && providers.docs[id].email == Some(email)
      ensures r.Ok? ==> r.value in providers.docs.Values && r.value.email == Some(email)
      ensures r.Err? ==> r.error == "UsernameNotFoundException: Provider not found with email: " + email
    {
      match FindProviderByEmail(providers, email)
      case Some(p) => Ok(p)
      case None => Err("UsernameNotFoundException: Provider not found with email: " + email)
    }

    /** `findByEmail`: the provider with this email, or a `RuntimeException`. */
    function FindByEmail(email: string): (r: Result<ProviderRecord>)
      reads this
      requires Valid()
      ensures r.Ok? <==> exists id :: id in providers.docs && providers.docs[id].email == Some(email)
      ensures r.Ok? ==> r.value in providers.docs.Values && r.value.email == Some(email)
      ensures r.Err? ==> r.error == "Provider not found with email: " + email
    {
      match FindProviderByEmail(providers, email)
      case Some(p) => Ok(p)
      case None => Err("Provider not found with email: " + email)
    }

    /**
     * `registerProvider`: a taken email fails and changes nothing; otherwise exactly one provider is
     * added, under the fresh id the store generates, with the email and the encoded password, and
     * looking the email up afterwards finds it. Emails stay unique either way.
     */
    method RegisterProvider(email: string, password: string, encode: string -> string, freshId: string)
      returns (r: Result<ProviderRecord>)
      requires Valid() && freshId !in providers.docs
      modifies this
      ensures Valid()
      ensures (exists id :: id in old(providers.docs) && old(providers.docs)[id].email == Some(email)) ==>
        r == Err("Provider already exists with email: " + email) && providers == old(providers)
      ensures !(exists id :: id in old(providers.docs) && old(providers.docs)[id].email == Some(email)) ==>
        r == Ok(Registered(freshId, email, encode(password))) && providers.docs == old(providers.docs)[freshId := r.value]
        && providers.order == old(providers.order) + [freshId]
      ensures r.Ok? ==> LoadUserByUsername(email) == Ok(r.value)
    {
      if ProviderExistsByEmail(providers, email) {
        r := Err("Provider already exists with email: " + email);
        return;
      }
      var provider := new Provider();
      provider.SetEmail(Some(email));
      provider.SetPassword(Some(encode(password)));
      var saved := SaveProvider(providers, provider.Snapshot(), freshId);
      providers := saved.value.0;
      r := Ok(saved.value.1);
      assert providers.docs[freshId] == r.value;
    }

    /**
     * `completeProviderProfile`: an unknown id fails and changes nothing; otherwise all eight profile
     * fields take the request's values, `null`s included, and nothing else about the provider changes.
     */
    method CompleteProviderProfile(providerId: string, request: ProfileCompletionRequest)
      returns (r: Result<ProviderRecord>)
      requires Valid()
      modifies this
      ensures Valid()
      ensures providerId !in old(providers.docs) ==>
        r == Err("Provider not found with ID: " + providerId) && providers == old(providers)
      ensures providerId in old(providers.docs) ==>
        r == Ok(old(providers.docs)[providerId].(profile := request)) && providers.docs == old(providers.docs)[providerId := r.value]
        && providers.order == old(providers.order)
    {
      var found := DocumentStore.FindById(providers, providerId);
      if found.None? {
        r := Err("Provider not found with ID: " + providerId);
        return;
      }
      var provider := new Provider.Load(found.value);
      provider.SetFullName(request.fullName);
      provider.SetProfessionalTitle(request.professionalTitle);
      provider.SetSpecialty(request.specialty);
      provider.SetSubSpecialties(request.subSpecialties);
      provider.SetStateLicenses(request.stateLicenses);
      provider.SetPrimaryClinicName(request.primaryClinicName);
      provider.SetClinicAddress(request.clinicAddress);
      provider.SetContactNumber(request.contactNumber);
      assert provider.Snapshot() == found.value.(profile := request);
      var saved := SaveProvider(providers, provider.Snapshot(), providerId);
      providers := saved.value.0;
      r := Ok(saved.value.1);
    }
  }
}
