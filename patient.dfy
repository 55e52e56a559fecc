/**
 * The provider service's local copy of a patient (`models/Patient.java`): the stored record as a value,
 * the mutable entity whose setters stamp `lastUpdated`, and the derived helpers `hasRequiredInfo` and
 * `getFullName`.
 */
module PatientModel {
  import opened Wrappers

  /** A `LocalDateTime`, as seconds on the local time line. */
  type Timestamp = int
  /** A `LocalDate`, as a day number. */
  type Date = int

  /** The sixteen fields a provider fills in: personal, address and medical information. */
  datatype Profile = Profile(    firstName: Option<string>,
    lastName: Option<string>,
    phone: Option<string>,
    dateOfBirth: Option<Date>,
    gender: Option<string>,
    address: Option<string>,
    city: Option<string>,
    state: Option<string>,
    zipCode: Option<string>,
    country: Option<string>,
    emergencyContactName: Option<string>,
    emergencyContactPhone: Option<string>,
    bloodType: Option<string>,
    allergies: Option<string>,
    currentMedications: Option<string>,
    medicalConditions: Option<string>  )

  /** A profile with every field still `null`. */
  const EmptyProfile := Profile(None, None, None, None, None, None, None, None, None, None, None, None, None, None, None, None)

  /** A patient document as the repository stores it. */
  datatype PatientRecord = PatientRecord(
    id: string,
    email: string,
    accountStatus: string,
    registrationDate: Timestamp,
    lastUpdated: Timestamp,
    profile: Profile,
    assignedProviderId: Option<string>,
    assignedProviderName: Option<string>,
    profileCompleted: bool,
    activated: bool
  )
  {
    /** `hasRequiredInfo`: names, phone and emergency contact are all present. */
    predicate HasRequiredInfo()
      ensures HasRequiredInfo() ==>
        profile.firstName.Some? && profile.lastName.Some? && FullName() == profile.firstName.value + " " + profile.lastName.value
    {
      && profile.firstName.Some?
      && profile.lastName.Some?
      && profile.phone.Some?
      && profile.emergencyContactName.Some?
      && profile.emergencyContactPhone.Some?
    }

    /** `getFullName`: first and last name joined by one space when both are present, the email otherwise. */
    function FullName(): (name: string)
      ensures (profile.firstName.None? || profile.lastName.None?) ==> name == email
      ensures profile.firstName.Some? && profile.lastName.Some? ==>
        var first, last := profile.firstName.value, profile.lastName.value;
        && |name| == |first| + 1 + |last|
        && name[..|first|] == first
        && name[|first|] == ' '
        && name[|first| + 1..] == last
    {
      if profile.firstName.Some? && profile.lastName.Some? then
        profile.firstName.value + " " + profile.lastName.value
      else
        email
    }
  }

  /** The record built by the four-argument constructor at time `now`. */
  function NewPatient(id: string, email: string, accountStatus: string, registrationDate: Timestamp, now: Timestamp): (p: PatientRecord)
  {
    PatientRecord(id, email, accountStatus, registrationDate, now, EmptyProfile, None, None, false, false)
  }

  /** A newly constructed patient has no profile yet: it lacks the required information and is neither complete nor activated. */
  lemma NewPatientIsIncomplete(id: string, email: string, accountStatus: string, registrationDate: Timestamp, now: Timestamp)
    ensures var p := NewPatient(id, email, accountStatus, registrationDate, now);
      && !p.HasRequiredInfo() && !p.profileCompleted && !p.activated
      && p.FullName() == email
      && p.assignedProviderId.None? && p.assignedProviderName.None?
  {
  }

  /** The mutable entity: each setter assigns its field and, except for identity and time fields, stamps `lastUpdated`. */
  class Patient {
    var id: string
    var email: string
    var accountStatus: string
    var registrationDate: Timestamp
    var lastUpdated: Timestamp
    var firstName: Option<string>
    var lastName: Option<string>
    var phone: Option<string>
    var dateOfBirth: Option<Date>
    var gender: Option<string>
    var address: Option<string>
    var city: Option<string>
    var state: Option<string>
    var zipCode: Option<string>
    var country: Option<string>
    var emergencyContactName: Option<string>
    var emergencyContactPhone: Option<string>
    var bloodType: Option<string>
    var allergies: Option<string>
    var currentMedications: Option<string>
    var medicalConditions: Option<string>
    var assignedProviderId: Option<string>
    var assignedProviderName: Option<string>
    var profileCompleted: bool
    var activated: bool

    /** The document this object is saved as. */
    function Snapshot(): PatientRecord
      reads this
    {
      PatientRecord(
        id, email, accountStatus, registrationDate, lastUpdated,
        Profile(firstName, lastName, phone, dateOfBirth, gender, address, city, state, zipCode, country, emergencyContactName, emergencyContactPhone, bloodType, allergies, currentMedications, medicalConditions),
        assignedProviderId, assignedProviderName, profileCompleted, activated)
    }

    /** `new Patient(id, email, accountStatus, registrationDate)`, with `lastUpdated` initialised to the clock reading `now`. */
    constructor (id: string, email: string, accountStatus: string, registrationDate: Timestamp, now: Timestamp)
      ensures Snapshot() == NewPatient(id, email, accountStatus, registrationDate, now)
    {
      this.id, this.email, this.accountStatus := id, email, accountStatus;
      this.registrationDate, this.lastUpdated := registrationDate, now;
      this.firstName := None;
      this.lastName := None;
      this.phone := None;
      this.dateOfBirth := None;
      this.gender := None;
      this.address := None;
      this.city := None;
      this.state := None;
      this.zipCode := None;
      this.country := None;
      this.emergencyContactName := None;
      this.emergencyContactPhone := None;
      this.bloodType := None;
      this.allergies := None;
      this.currentMedications := None;
      this.medicalConditions := None;
      this.assignedProviderId, this.assignedProviderName := None, None;
      this.profileCompleted, this.activated := false, false;
    }

    /** The object the repository materialises from a stored document (`findById`). */
    constructor Load(r: PatientRecord)
      ensures Snapshot() == r
    {
      id, email, accountStatus := r.id, r.email, r.accountStatus;
      registrationDate, lastUpdated := r.registrationDate, r.lastUpdated;
      firstName := r.profile.firstName;
      lastName := r.profile.lastName;
      phone := r.profile.phone;
      dateOfBirth := r.profile.dateOfBirth;
      gender := r.profile.gender;
      address := r.profile.address;
      city := r.profile.city;
      state := r.profile.state;
      zipCode := r.profile.zipCode;
      country := r.profile.country;
      emergencyContactName := r.profile.emergencyContactName;
      emergencyContactPhone := r.profile.emergencyContactPhone;
      bloodType := r.profile.bloodType;
      allergies := r.profile.allergies;
      currentMedications := r.profile.currentMedications;
      medicalConditions := r.profile.medicalConditions;
      assignedProviderId, assignedProviderName := r.assignedProviderId, r.assignedProviderName;
      profileCompleted, activated := r.profileCompleted, r.activated;
    }

    method SetId(v: string)
      modifies this
      ensures Snapshot() == old(Snapshot()).(id := v)
    {
      id := v;
    }

    method SetEmail(v: string)
      modifies this
      ensures Snapshot() == old(Snapshot()).(email := v)
    {
      email := v;
    }

    method SetAccountStatus(v: string, now: Timestamp)
      modifies this
      ensures Snapshot() == old(Snapshot()).(accountStatus := v, lastUpdated := now)
    {
      accountStatus := v;
      lastUpdated := now;
    }

    method SetRegistrationDate(v: Timestamp)
      modifies this
      ensures Snapshot() == old(Snapshot()).(registrationDate := v)
    {
      registrationDate := v;
    }

    method SetLastUpdated(v: Timestamp)
      modifies this
      ensures Snapshot() == old(Snapshot()).(lastUpdated := v)
    {
      lastUpdated := v;
    }

    method SetFirstName(v: Option<string>, now: Timestamp)
      modifies this
      ensures Snapshot() == old(Snapshot()).(profile := old(Snapshot()).profile.(firstName := v), lastUpdated := now)
    {
      firstName := v;
      lastUpdated := now;
    }

    method SetLastName(v: Option<string>, now: Timestamp)
      modifies this
      ensures Snapshot() == old(Snapshot()).(profile := old(Snapshot()).profile.(lastName := v), lastUpdated := now)
    {
      lastName := v;
      lastUpdated := now;
    }

    method SetPhone(v: Option<string>, now: Timestamp)
      modifies this
      ensures Snapshot() == old(Snapshot()).(profile := old(Snapshot()).profile.(phone := v), lastUpdated := now)
    {
      phone := v;
      lastUpdated := now;
    }

    method SetDateOfBirth(v: Option<Date>, now: Timestamp)
      modifies this
      ensures Snapshot() == old(Snapshot()).(profile := old(Snapshot()).profile.(dateOfBirth := v), lastUpdated := now)
    {
      dateOfBirth := v;
      lastUpdated := now;
    }

    method SetGender(v: Option<string>, now: Timestamp)
      modifies this
      ensures Snapshot() == old(Snapshot()).(profile := old(Snapshot()).profile.(gender := v), lastUpdated := now)
    {
      gender := v;
      lastUpdated := now;
    }

    method SetAddress(v: Option<string>, now: Timestamp)
      modifies this
      ensures Snapshot() == old(Snapshot()).(profile := old(Snapshot()).profile.(address := v), lastUpdated := now)
    {
      address := v;
      lastUpdated := now;
    }

    method SetCity(v: Option<string>, now: Timestamp)
      modifies this
      ensures Snapshot() == old(Snapshot()).(profile := old(Snapshot()).profile.(city := v), lastUpdated := now)
    {
      city := v;
      lastUpdated := now;
    }

    method SetState(v: Option<string>, now: Timestamp)
      modifies this
      ensures Snapshot() == old(Snapshot()).(profile := old(Snapshot()).profile.(state := v), lastUpdated := now)
    {
      state := v;
      lastUpdated := now;
    }

    method SetZipCode(v: Option<string>, now: Timestamp)
      modifies this
      ensures Snapshot() == old(Snapshot()).(profile := old(Snapshot()).profile.(zipCode := v), lastUpdated := now)
    {
      zipCode := v;
      lastUpdated := now;
    }

    method SetCountry(v: Option<string>, now: Timestamp)
      modifies this
      ensures Snapshot() == old(Snapshot()).(profile := old(Snapshot()).profile.(country := v), lastUpdated := now)
    {
      country := v;
      lastUpdated := now;
    }

    method SetEmergencyContactName(v: Option<string>, now: Timestamp)
      modifies this
      ensures Snapshot() == old(Snapshot()).(profile := old(Snapshot()).profile.(emergencyContactName := v), lastUpdated := now)
    {
      emergencyContactName := v;
      lastUpdated := now;
    }

    method SetEmergencyContactPhone(v: Option<string>, now: Timestamp)
      modifies this
      ensures Snapshot() == old(Snapshot()).(profile := old(Snapshot()).profile.(emergencyContactPhone := v), lastUpdated := now)
    {
      emergencyContactPhone := v;
      lastUpdated := now;
    }

    method SetBloodType(v: Option<string>, now: Timestamp)
      modifies this
      ensures Snapshot() == old(Snapshot()).(profile := old(Snapshot()).profile.(bloodType := v), lastUpdated := now)
    {
      bloodType := v;
      lastUpdated := now;
    }

    method SetAllergies(v: Option<string>, now: Timestamp)
      modifies this
      ensures Snapshot() == old(Snapshot()).(profile := old(Snapshot()).profile.(allergies := v), lastUpdated := now)
    {
      allergies := v;
      lastUpdated := now;
    }

    method SetCurrentMedications(v: Option<string>, now: Timestamp)
      modifies this
      ensures Snapshot() == old(Snapshot()).(profile := old(Snapshot()).profile.(currentMedications := v), lastUpdated := now)
    {
      currentMedications := v;
      lastUpdated := now;
    }

    method SetMedicalConditions(v: Option<string>, now: Timestamp)
      modifies this
      ensures Snapshot() == old(Snapshot()).(profile := old(Snapshot()).profile.(medicalConditions := v), lastUpdated := now)
    {
      medicalConditions := v;
      lastUpdated := now;
    }

    method SetAssignedProviderId(v: Option<string>, now: Timestamp)
      modifies this
      ensures Snapshot() == old(Snapshot()).(assignedProviderId := v, lastUpdated := now)
    {
      assignedProviderId := v;
      lastUpdated := now;
    }

    method SetAssignedProviderName(v: Option<string>, now: Timestamp)
      modifies this
      ensures Snapshot() == old(Snapshot()).(assignedProviderName := v, lastUpdated := now)
    {
      assignedProviderName := v;
      lastUpdated := now;
    }

    method SetProfileCompleted(v: bool, now: Timestamp)
      modifies this
      ensures Snapshot() == old(Snapshot()).(profileCompleted := v, lastUpdated := now)
    {
      profileCompleted := v;
      lastUpdated := now;
    }

    method SetActivated(v: bool, now: Timestamp)
      modifies this
      ensures Snapshot() == old(Snapshot()).(activated := v, lastUpdated := now)
    {
      activated := v;
      lastUpdated := now;
    }

    /** `updateProfileCompletionStatus`: the completion flag becomes `hasRequiredInfo()`, and `lastUpdated` is stamped. */
    method UpdateProfileCompletionStatus(now: Timestamp)
      modifies this
      ensures Snapshot() == old(Snapshot()).(profileCompleted := old(Snapshot()).HasRequiredInfo(), lastUpdated := now)
      ensures profileCompleted <==> firstName.Some? && lastName.Some? && phone.Some? && emergencyContactName.Some? && emergencyContactPhone.Some?
    {
      profileCompleted := firstName.Some? && lastName.Some? && phone.Some?
        && emergencyContactName.Some? && emergencyContactPhone.Some?;
      lastUpdated := now;
    }
  }
}
