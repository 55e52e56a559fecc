/**
 * The local patient replica and the operations a provider performs on it
 * (`services/PatientManagementService.java`): idempotent insertion of newly registered patients,
 * profile completion, activation with a notification to the patient service, and read-only views.
 */
module PatientManagement {
  import opened Wrappers
  import opened Sequences
  import opened PatientModel
  import opened PatientDto
  import opened PatientRepository
  import DocumentStore
  import opened Broker
  import opened MessagePublisher

  const SecondsPerDay := 86400

  /** `convertToDTO`: every field of the patient except `activated`. */
  function ConvertToDTO(p: PatientRecord): (d: PatientDTO)
    ensures d.id == Some(p.id) && d.email == Some(p.email) && d.accountStatus == Some(p.accountStatus)
    ensures d.registrationDate == Some(p.registrationDate) && d.lastUpdated == Some(p.lastUpdated)
    ensures d.profile == p.profile && d.profileComplete == p.profileCompleted
    ensures d.assignedProviderId == p.assignedProviderId && d.assignedProviderName == p.assignedProviderName
  {
    PatientDTO(Some(p.id), Some(p.email), Some(p.accountStatus), Some(p.registrationDate), p.profile,
               p.assignedProviderId, p.assignedProviderName, p.profileCompleted, Some(p.lastUpdated))
  }

  /** The view loses exactly the `activated` flag: two patients have the same view iff they agree on everything else. */
  lemma ConvertToDTOForgetsOnlyActivated(p: PatientRecord, q: PatientRecord)
    ensures ConvertToDTO(p) == ConvertToDTO(q) <==> p.(activated := false) == q.(activated := false)
  {
  }

  /** A supplied value replaces the current one; a `null` keeps it. */
  function Prefer<T>(supplied: Option<T>, current: Option<T>): (r: Option<T>)
  {
    if supplied.Some? then supplied else current
  }

  /** The null-skipping merge of `updatePatientProfile`, field by field. */
  function MergeProfile(current: Profile, update: Profile): (r: Profile)
  {
    Profile(
      Prefer(update.firstName, current.firstName),
      Prefer(update.lastName, current.lastName),
      Prefer(update.phone, current.phone),
      Prefer(update.dateOfBirth, current.dateOfBirth),
      Prefer(update.gender, current.gender),
      Prefer(update.address, current.address),
      Prefer(update.city, current.city),
      Prefer(update.state, current.state),
      Prefer(update.zipCode, current.zipCode),
      Prefer(update.country, current.country),
      Prefer(update.emergencyContactName, current.emergencyContactName),
      Prefer(update.emergencyContactPhone, current.emergencyContactPhone),
      Prefer(update.bloodType, current.bloodType),
      Prefer(update.allergies, current.allergies),
      Prefer(update.currentMedications, current.currentMedications),
      Prefer(update.medicalConditions, current.medicalConditions))
  }

  /** The record `updatePatientProfile` saves: merged profile, the given provider, the recomputed completion flag. */
  function UpdatedRecord(p: PatientRecord, info: PatientDTO, providerId: string, providerName: string, now: Timestamp): (r: PatientRecord)
  {
    var merged := p.(profile := MergeProfile(p.profile, info.profile),
                     assignedProviderId := Some(providerId), assignedProviderName := Some(providerName),
                     lastUpdated := now);
    merged.(profileCompleted := merged.HasRequiredInfo())
  }

  /** The record `activatePatient` saves. */
  function ActivatedRecord(p: PatientRecord, providerId: string, providerName: string, now: Timestamp): (r: PatientRecord)
  {
    p.(accountStatus := "ACTIVE", activated := true,
       assignedProviderId := Some(providerId), assignedProviderName := Some(providerName), lastUpdated := now)
  }

  /** The store transition of `addNewPatient` and the patient it returns. */
  function InsertIfAbsent(c: PatientStore, p: PatientRecord): (r: (Result<PatientRecord>, PatientStore))
    requires PatientRepository.Valid(c)
    ensures PatientRepository.Valid(r.1)
    ensures p.id in c.docs ==> r == (Ok(c.docs[p.id]), c)
    ensures p.id !in c.docs && EmailTakenByOther(c, p.id, p.email) ==> r.0.Err? && r.1 == c
    ensures p.id !in c.docs && !EmailTakenByOther(c, p.id, p.email) ==> r.0 == Ok(p) && r.1.docs == c.docs[p.id := p]
    ensures p.id !in c.docs && !EmailTakenByOther(c, p.id, p.email) ==> r.1.order == c.order + [p.id]
  {
    if p.id in c.docs then (Ok(c.docs[p.id]), c)
    else
      match PatientRepository.Save(c, p)
      case Ok(saved) => (Ok(p), saved)
      case Err(e) => (Err(e), c)
  }

  /** The profile fields by name, so that properties can be stated for all sixteen at once. */
  datatype Field = FirstName | LastName | Phone | DateOfBirth | Gender | Address | City | State | ZipCode | Country | EmergencyContactName | EmergencyContactPhone | BloodType | Allergies | CurrentMedications | MedicalConditions

  /** A profile field's content: text, or a day for the date of birth. */
  datatype FieldValue = Str(s: string) | Day(d: Date)

  /** The value of field `f`, or `None` when it is `null`. */
  function Get(p: Profile, f: Field): Option<FieldValue>
  {
    match f
    case FirstName => if p.firstName.Some? then Some(Str(p.firstName.value)) else None
    case LastName => if p.lastName.Some? then Some(Str(p.lastName.value)) else None
    case Phone => if p.phone.Some? then Some(Str(p.phone.value)) else None
    case DateOfBirth => if p.dateOfBirth.Some? then Some(Day(p.dateOfBirth.value)) else None
    case Gender => if p.gender.Some? then Some(Str(p.gender.value)) else None
    case Address => if p.address.Some? then Some(Str(p.address.value)) else None
    case City => if p.city.Some? then Some(Str(p.city.value)) else None
    case State => if p.state.Some? then Some(Str(p.state.value)) else None
    case ZipCode => if p.zipCode.Some? then Some(Str(p.zipCode.value)) else None
    case Country => if p.country.Some? then Some(Str(p.country.value)) else None
    case EmergencyContactName => if p.emergencyContactName.Some? then Some(Str(p.emergencyContactName.value)) else None
    case EmergencyContactPhone => if p.emergencyContactPhone.Some? then Some(Str(p.emergencyContactPhone.value)) else None
    case BloodType => if p.bloodType.Some? then Some(Str(p.bloodType.value)) else None
    case Allergies => if p.allergies.Some? then Some(Str(p.allergies.value)) else None
    case CurrentMedications => if p.currentMedications.Some? then Some(Str(p.currentMedications.value)) else None
    case MedicalConditions => if p.medicalConditions.Some? then Some(Str(p.medicalConditions.value)) else None
  }

  /** The five fields `hasRequiredInfo` checks. */
  const RequiredFields: set<Field> := {FirstName, LastName, Phone, EmergencyContactName, EmergencyContactPhone}

  /** Field access covers the whole profile: profiles that agree on every field are equal. */
  lemma ProfileExtensional(p: Profile, q: Profile)
    requires forall f :: Get(p, f) == Get(q, f)
    ensures p == q
  {
    assert p.firstName == q.firstName by { assert Get(p, FirstName) == Get(q, FirstName); }
    assert p.lastName == q.lastName by { assert Get(p, LastName) == Get(q, LastName); }
    assert p.phone == q.phone by { assert Get(p, Phone) == Get(q, Phone); }
    assert p.dateOfBirth == q.dateOfBirth by { assert Get(p, DateOfBirth) == Get(q, DateOfBirth); }
    assert p.gender == q.gender by { assert Get(p, Gender) == Get(q, Gender); }
    assert p.address == q.address by { assert Get(p, Address) == Get(q, Address); }
    assert p.city == q.city by { assert Get(p, City) == Get(q, City); }
    assert p.state == q.state by { assert Get(p, State) == Get(q, State); }
    assert p.zipCode == q.zipCode by { assert Get(p, ZipCode) == Get(q, ZipCode); }
    assert p.country == q.country by { assert Get(p, Country) == Get(q, Country); }
    assert p.emergencyContactName == q.emergencyContactName by { assert Get(p, EmergencyContactName) == Get(q, EmergencyContactName); }
    assert p.emergencyContactPhone == q.emergencyContactPhone by { assert Get(p, EmergencyContactPhone) == Get(q, EmergencyContactPhone); }
    assert p.bloodType == q.bloodType by { assert Get(p, BloodType) == Get(q, BloodType); }
    assert p.allergies == q.allergies by { assert Get(p, Allergies) == Get(q, Allergies); }
    assert p.currentMedications == q.currentMedications by { assert Get(p, CurrentMedications) == Get(q, CurrentMedications); }
    assert p.medicalConditions == q.medicalConditions by { assert Get(p, MedicalConditions) == Get(q, MedicalConditions); }
  }

  /** `hasRequiredInfo` holds exactly when none of the five required fields is `null`. */
  lemma HasRequiredInfoMeans(r: PatientRecord)
    ensures r.HasRequiredInfo() <==> forall f :: f in RequiredFields ==> Get(r.profile, f).Some?
  {
    if !r.HasRequiredInfo() {
      var missing :| missing in RequiredFields && Get(r.profile, missing).None?;
    }
  }

  /** The merge overwrites each of the sixteen fields exactly when the update supplies a value for it. */
  lemma MergeProfileOverwritesSuppliedFields(current: Profile, update: Profile)
    ensures forall f :: Get(MergeProfile(current, update), f) == if Get(update, f).Some? then Get(update, f) else Get(current, f)
  {
  }

  /** Merging the same update twice is the same as merging it once. */
  lemma MergeProfileIdempotent(current: Profile, update: Profile)
    ensures MergeProfile(MergeProfile(current, update), update) == MergeProfile(current, update)
  {
    var once := MergeProfile(current, update);
    MergeProfileOverwritesSuppliedFields(current, update);
    MergeProfileOverwritesSuppliedFields(once, update);
    ProfileExtensional(MergeProfile(once, update), once);
  }

  /** An update of all `null`s keeps the profile, and so does an update equal to the profile itself. */
  lemma MergeProfileNeutral(current: Profile)
    ensures MergeProfile(current, EmptyProfile) == current
    ensures MergeProfile(current, current) == current
  {
    MergeProfileOverwritesSuppliedFields(current, EmptyProfile);
    ProfileExtensional(MergeProfile(current, EmptyProfile), current);
    MergeProfileOverwritesSuppliedFields(current, current);
    ProfileExtensional(MergeProfile(current, current), current);
  }

  /**
   * After a profile update the identity, status, registration date and activation flag are untouched;
   * the provider fields hold the arguments; the completion flag is `hasRequiredInfo` of the merged record;
   * and a patient that had the required information keeps it.
   */
  lemma UpdatedRecordKeepsIdentity(p: PatientRecord, info: PatientDTO, providerId: string, providerName: string, now: Timestamp)
    ensures var u := UpdatedRecord(p, info, providerId, providerName, now);
      && u.id == p.id && u.email == p.email && u.accountStatus == p.accountStatus
      && u.registrationDate == p.registrationDate && u.activated == p.activated
      && u.assignedProviderId == Some(providerId) && u.assignedProviderName == Some(providerName)
      && u.lastUpdated == now
      && u.profileCompleted == u.HasRequiredInfo()
      && (p.HasRequiredInfo() ==> u.HasRequiredInfo() && u.profileCompleted)
  {
  }

  /** Submitting the patient's own current view as the update changes no profile field. */
  lemma UpdateWithOwnViewKeepsProfile(p: PatientRecord, providerId: string, providerName: string, now: Timestamp)
    ensures UpdatedRecord(p, ConvertToDTO(p), providerId, providerName, now).profile == p.profile
  {
    MergeProfileNeutral(p.profile);
  }

  /** Repeating a profile update with the same arguments gives the record a single update gives (stamped with the later time). */
  lemma UpdatedRecordIdempotent(p: PatientRecord, info: PatientDTO, providerId: string, providerName: string, t1: Timestamp, t2: Timestamp)
    ensures UpdatedRecord(UpdatedRecord(p, info, providerId, providerName, t1), info, providerId, providerName, t2)
         == UpdatedRecord(p, info, providerId, providerName, t2)
  {
    MergeProfileIdempotent(p.profile, info.profile);
  }

  /** Delivering the same patient twice leaves the store as delivering it once. */
  lemma {:induction false} InsertIfAbsentIdempotent(c: PatientStore, p: PatientRecord, q: PatientRecord)
    requires PatientRepository.Valid(c) && q.id == p.id
    requires q == p || InsertIfAbsent(c, p).0.Ok?
    ensures var once := InsertIfAbsent(c, p).1;
      InsertIfAbsent(once, q).1 == once
  {
  }

  /** Copies the supplied personal information (names, phone, date of birth, gender) into `patient` through its setters, skipping `null`s. */
  method CopyPersonalInformation(patient: Patient, info: Profile, now: Timestamp)
    modifies patient
    ensures var o, n := old(patient.Snapshot()), patient.Snapshot();
      n == o.(profile := o.profile.(firstName := Prefer(info.firstName, o.profile.firstName), lastName := Prefer(info.lastName, o.profile.lastName), phone := Prefer(info.phone, o.profile.phone), dateOfBirth := Prefer(info.dateOfBirth, o.profile.dateOfBirth), gender := Prefer(info.gender, o.profile.gender)), lastUpdated := n.lastUpdated)
  {
    if info.firstName.Some? {
      patient.SetFirstName(info.firstName, now);
    }
    if info.lastName.Some? {
      patient.SetLastName(info.lastName, now);
    }
    if info.phone.Some? {
      patient.SetPhone(info.phone, now);
    }
    if info.dateOfBirth.Some? {
      patient.SetDateOfBirth(info.dateOfBirth, now);
    }
    if info.gender.Some? {
      patient.SetGender(info.gender, now);
    }
  }

  /** Copies the supplied address information into `patient` through its setters, skipping `null`s. */
  method CopyAddressInformation(patient: Patient, info: Profile, now: Timestamp)
    modifies patient
    ensures var o, n := old(patient.Snapshot()), patient.Snapshot();
      n == o.(profile := o.profile.(address := Prefer(info.address, o.profile.address), city := Prefer(info.city, o.profile.city), state := Prefer(info.state, o.profile.state), zipCode := Prefer(info.zipCode, o.profile.zipCode), country := Prefer(info.country, o.profile.country)), lastUpdated := n.lastUpdated)
  {
    if info.address.Some? {
      patient.SetAddress(info.address, now);
    }
    if info.city.Some? {
      patient.SetCity(info.city, now);
    }
    if info.state.Some? {
      patient.SetState(info.state, now);
    }
    if info.zipCode.Some? {
      patient.SetZipCode(info.zipCode, now);
    }
    if info.country.Some? {
      patient.SetCountry(info.country, now);
    }
  }

  /** Copies the supplied medical information, first part (emergency contact name and phone) into `patient` through its setters, skipping `null`s. */
  method CopyEmergencyContact(patient: Patient, info: Profile, now: Timestamp)
    modifies patient
    ensures var o, n := old(patient.Snapshot()), patient.Snapshot();
      n == o.(profile := o.profile.(emergencyContactName := Prefer(info.emergencyContactName, o.profile.emergencyContactName), emergencyContactPhone := Prefer(info.emergencyContactPhone, o.profile.emergencyContactPhone)), lastUpdated := n.lastUpdated)
  {
    if info.emergencyContactName.Some? {
      patient.SetEmergencyContactName(info.emergencyContactName, now);
    }
    if info.emergencyContactPhone.Some? {
      patient.SetEmergencyContactPhone(info.emergencyContactPhone, now);
    }
  }

  /** Copies the supplied medical information, second part (blood type, allergies, medications, conditions) into `patient` through its setters, skipping `null`s. */
  method CopyMedicalHistory(patient: Patient, info: Profile, now: Timestamp)
    modifies patient
    ensures var o, n := old(patient.Snapshot()), patient.Snapshot();
      n == o.(profile := o.profile.(bloodType := Prefer(info.bloodType, o.profile.bloodType), allergies := Prefer(info.allergies, o.profile.allergies), currentMedications := Prefer(info.currentMedications, o.profile.currentMedications), medicalConditions := Prefer(info.medicalConditions, o.profile.medicalConditions)), lastUpdated := n.lastUpdated)
  {
    if info.bloodType.Some? {
      patient.SetBloodType(info.bloodType, now);
    }
    if info.allergies.Some? {
      patient.SetAllergies(info.allergies, now);
    }
    if info.currentMedications.Some? {
      patient.SetCurrentMedications(info.currentMedications, now);
    }
    if info.medicalConditions.Some? {
      patient.SetMedicalConditions(info.medicalConditions, now);
    }
  }

  /** The statistics of `getPatientStats`. */
  datatype PatientStats = PatientStats(pendingCount: nat, activeCount: nat, totalCount: nat)

  /** The replica service: the patient collection, and the publisher for outbound notifications. */
  class PatientManagementService {
    var patients: PatientStore
    const publisher: MessagePublisherService

    ghost predicate Valid()
      reads this
    {
      PatientRepository.Valid(patients)
    }

    constructor (publisher: MessagePublisherService)
      ensures Valid() && patients.docs == map[] && this.publisher == publisher
    {
      this.patients := PatientRepository.Empty();
      this.publisher := publisher;
    }

    /** `getPendingPatients`: views of exactly the PENDING patients, newest registration first. */
    function GetPendingPatients(): (r: seq<PatientDTO>)
      reads this
      requires Valid()
      ensures forall d :: d in r <==> exists p :: p in patients.docs.Values && p.accountStatus == "PENDING" && d == ConvertToDTO(p)
      ensures forall i, j :: 0 <= i < j < |r| ==>
        r[i].registrationDate.Some? && r[j].registrationDate.Some? && r[i].registrationDate.value >= r[j].registrationDate.value
      ensures r == MapAll(FindByAccountStatusOrderByRegistrationDateDesc(patients, "PENDING"), ConvertToDTO)
    {
      var pending := FindByAccountStatusOrderByRegistrationDateDesc(patients, "PENDING");
      var r := MapAll(pending, ConvertToDTO);
      MapAllMembership(pending, ConvertToDTO);
      r
    }

    /** `getProviderPatients`: views of exactly the patients matching to `providerId`. */
    function GetProviderPatients(providerId: string): (r: seq<PatientDTO>)
      reads this
      requires Valid()
      ensures forall d :: d in r <==> exists p :: p in patients.docs.Values && p.assignedProviderId == Some(providerId) && d == ConvertToDTO(p)
      ensures r == MapAll(FindByAssignedProviderId(patients, providerId), ConvertToDTO)
    {
      var matching := FindByAssignedProviderId(patients, providerId);
      var r := MapAll(matching, ConvertToDTO);
      MapAllMembership(matching, ConvertToDTO);
      r
    }

    /** `getPatientById` */
    function GetPatientById(patientId: string): (r: Option<PatientDTO>)
      reads this
      ensures r.Some? <==> patientId in patients.docs
      ensures r.Some? ==> r.value == ConvertToDTO(patients.docs[patientId])
    {
      match FindById(patients, patientId)
      case Some(p) => Some(ConvertToDTO(p))
      case None => None
    }

    /** `getRecentlyRegisteredPatients`: views of the patients registered no earlier than `days` days before `now`. */
    function GetRecentlyRegisteredPatients(days: int, now: Timestamp): (r: seq<PatientDTO>)
      reads this
      requires Valid()
      ensures forall d :: d in r <==> exists p :: p in patients.docs.Values && p.registrationDate >= now - days * SecondsPerDay && d == ConvertToDTO(p)
      ensures r == MapAll(FindRecentlyRegistered(patients, now - days * SecondsPerDay), ConvertToDTO)
    {
      var recent := FindRecentlyRegistered(patients, now - days * SecondsPerDay);
      var r := MapAll(recent, ConvertToDTO);
      MapAllMembership(recent, ConvertToDTO);
      r
    }

    /** `getPatientStats`: pending and active counts, which together never exceed the total. */
    function GetPatientStats(): (s: PatientStats)
      reads this
      requires Valid()
      ensures s.pendingCount == |FindByAccountStatus(patients, "PENDING")|
      ensures s.activeCount == |FindByAccountStatus(patients, "ACTIVE")|
      ensures s.totalCount == |patients.docs|
      ensures s.pendingCount + s.activeCount <= s.totalCount
    {
      StatusCountsBounded(patients, "PENDING", "ACTIVE");
      PatientStats(CountByAccountStatus(patients, "PENDING"), CountByAccountStatus(patients, "ACTIVE"), CountAll(patients))
    }

    /**
     * `addNewPatient`: a known id leaves the store as it is and returns the stored patient; a new id
     * stores exactly one patient built from the four arguments, unless its email is already taken.
     */
    method AddNewPatient(patientId: string, email: string, accountStatus: string, registrationDate: Timestamp, now: Timestamp)
      returns (r: Result<PatientRecord>)
      requires Valid()
      modifies this
      ensures Valid()
      ensures (r, patients) == InsertIfAbsent(old(patients), NewPatient(patientId, email, accountStatus, registrationDate, now))
    {
      if ExistsById(patientId) {
        r := Ok(patients.docs[patientId]);
        return;
      }
      var patient := new Patient(patientId, email, accountStatus, registrationDate, now);
      var saved := PatientRepository.Save(patients, patient.Snapshot());
      if saved.Err? {
        r := Err(saved.error);
        return;
      }
      patients := saved.value;
      r := Ok(patient.Snapshot());
    }

    /** `existsById` */
    function ExistsById(patientId: string): (b: bool)
      reads this
      ensures b <==> patientId in patients.docs
    {
      FindById(patients, patientId).Some?
    }

    /**
     * `updatePatientProfile`: an unknown id fails and changes nothing; otherwise every supplied field is
     * copied through its setter, the provider is matching, completion is recomputed, and the result saved.
     */
    method UpdatePatientProfile(patientId: string, info: PatientDTO, providerId: string, providerName: string, now: Timestamp)
      returns (r: Result<PatientDTO>)
      requires Valid()
      modifies this
      ensures Valid()
      ensures patientId !in old(patients.docs) ==> r == Err("Patient not found with ID: " + patientId) && patients == old(patients)
      ensures patientId in old(patients.docs) ==>
        var u := UpdatedRecord(old(patients.docs[patientId]), info, providerId, providerName, now);
        && r == Ok(ConvertToDTO(u))
        && patients.docs == old(patients.docs)[patientId := u]
        && patients.order == old(patients.order)
    {
      var found := FindById(patients, patientId);
      if found.None? {
        r := Err("Patient not found with ID: " + patientId);
        return;
      }
      var patient := new Patient.Load(found.value);
      CopyPersonalInformation(patient, info.profile, now);
      CopyAddressInformation(patient, info.profile, now);
      CopyEmergencyContact(patient, info.profile, now);
      CopyMedicalHistory(patient, info.profile, now);
      patient.SetAssignedProviderId(Some(providerId), now);
      patient.SetAssignedProviderName(Some(providerName), now);
      patient.UpdateProfileCompletionStatus(now);
      var record := patient.Snapshot();
      assert record == UpdatedRecord(found.value, info, providerId, providerName, now);
      SaveSameEmailSucceeds(patients, record);
      patients := PatientRepository.Save(patients, record).value;
      r := Ok(ConvertToDTO(record));
    }

    /**
     * `activatePatient`: fails, saving and publishing nothing, when the id is unknown or the profile lacks
     * the required information; otherwise saves the patient as ACTIVE and activated for this provider,
     * and only then publishes one activation notice (whose own failure is swallowed).
     */
    method ActivatePatient(patientId: string, providerId: string, providerName: string, now: Timestamp, attempt: SendAttempt)
      returns (r: Result<PatientDTO>)
      requires Valid()
      modifies this, publisher.broker
      ensures Valid()
      ensures patientId !in old(patients.docs) || !old(patients.docs[patientId]).HasRequiredInfo() ==>
        patients == old(patients) && publisher.broker.outbox == old(publisher.broker.outbox)
      ensures patientId !in old(patients.docs) ==> r == Err("Patient not found with ID: " + patientId)
      ensures patientId in old(patients.docs) && !old(patients.docs[patientId]).HasRequiredInfo() ==>
        r == Err("Cannot activate patient: Profile is incomplete. Please fill required fields first.")
      ensures patientId in old(patients.docs) && old(patients.docs[patientId]).HasRequiredInfo() ==>
        var a := ActivatedRecord(old(patients.docs[patientId]), providerId, providerName, now);
        && r == Ok(ConvertToDTO(a))
        && patients.docs == old(patients.docs)[patientId := a]
        && patients.order == old(patients.order)
        && publisher.broker.outbox == AfterPublish(old(publisher.broker.outbox), ActivationMessage(patientId, providerId, providerName, now), attempt)
    {
      var found := FindById(patients, patientId);
      if found.None? {
        r := Err("Patient not found with ID: " + patientId);
        return;
      }
      var patient := new Patient.Load(found.value);
      if !patient.Snapshot().HasRequiredInfo() {
        r := Err("Cannot activate patient: Profile is incomplete. Please fill required fields first.");
        return;
      }
      patient.SetAccountStatus("ACTIVE", now);
      patient.SetActivated(true, now);
      patient.SetAssignedProviderId(Some(providerId), now);
      patient.SetAssignedProviderName(Some(providerName), now);
      var record := patient.Snapshot();
      SaveSameEmailSucceeds(patients, record);
      patients := PatientRepository.Save(patients, record).value;
      publisher.PublishPatientActivation(patientId, providerId, providerName, now, attempt);
      r := Ok(ConvertToDTO(record));
    }
  }
}
