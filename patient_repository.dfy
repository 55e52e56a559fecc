/**
 * The patient collection and its derived queries (`repository/PatientRepository.java`), as functions
 * over the stored documents. Unsorted queries list documents in natural order.
 */
module PatientRepository {
  import opened Wrappers
  import opened Sequences
  import DocumentStore
  import opened PatientModel

  type PatientStore = DocumentStore.Collection<PatientRecord>

  /** No two stored patients share an email (the unique index on `email`). */
  ghost predicate UniqueEmails(c: PatientStore)
  {
    forall a, b :: a in c.docs && b in c.docs && c.docs[a].email == c.docs[b].email ==> a == b
  }

  /** The store is well formed, each document is stored under its own id, and emails are unique. */
  ghost predicate Valid(c: PatientStore)
  {
    && DocumentStore.Valid(c)
    && (forall id :: id in c.docs ==> c.docs[id].id == id)
    && UniqueEmails(c)
  }

  function Empty(): (c: PatientStore)
    ensures Valid(c) && c.docs == map[]
  {
    DocumentStore.Empty()
  }

  /** Another stored patient (a different id) already uses `email`. */
  predicate EmailTakenByOther(c: PatientStore, id: string, email: string)
  {
    exists other :: other in c.docs && other != id && c.docs[other].email == email
  }

  /**
   * `save`: upserts the patient under its id, unless the unique email index rejects it
   * because a different patient already has that email (a duplicate-key error).
   */
  function Save(c: PatientStore, p: PatientRecord): (r: Result<PatientStore>)
    requires Valid(c)
    ensures r.Ok? <==> !EmailTakenByOther(c, p.id, p.email)
    ensures r.Ok? ==> Valid(r.value) && r.value.docs == c.docs[p.id := p]
    ensures r.Ok? ==> r.value.order == if p.id in c.docs then c.order else c.order + [p.id]
  {
    if EmailTakenByOther(c, p.id, p.email) then Err("E11000 duplicate key error: email " + p.email)
    else Ok(DocumentStore.Save(c, p.id, p))
  }

  /** Saving a changed copy of a stored patient that keeps its email never trips the unique index. */
  lemma SaveSameEmailSucceeds(c: PatientStore, p: PatientRecord)
    requires Valid(c) && p.id in c.docs && c.docs[p.id].email == p.email
    ensures Save(c, p).Ok?
  {
  }

  function FindById(c: PatientStore, id: string): (r: Option<PatientRecord>)
    ensures r.Some? <==> id in c.docs
    ensures r.Some? ==> r.value == c.docs[id]
  {
    DocumentStore.FindById(c, id)
  }

  /** `count()`: the number of stored patients. */
  function CountAll(c: PatientStore): (n: nat)
    requires Valid(c)
    ensures n == |DocumentStore.Listing(c)|
  {
    |c.docs|
  }

  /** `findByAccountStatus` */
  function FindByAccountStatus(c: PatientStore, status: string): (r: seq<PatientRecord>)
    requires Valid(c)
    ensures forall p :: p in r <==> p in c.docs.Values && p.accountStatus == status
    ensures SubsequenceOf(r, DocumentStore.Listing(c))
  {
    DocumentStore.Select(c, (p: PatientRecord) => p.accountStatus == status)
  }

  function RegistrationKey(p: PatientRecord): int
  {
    p.registrationDate
  }

  /** `findByAccountStatusOrderByRegistrationDateDesc`: the same patients, newest registration first. */
  function FindByAccountStatusOrderByRegistrationDateDesc(c: PatientStore, status: string): (r: seq<PatientRecord>)
    requires Valid(c)
    ensures multiset(r) == multiset(FindByAccountStatus(c, status))
    ensures forall p :: p in r <==> p in c.docs.Values && p.accountStatus == status
    ensures forall i, j :: 0 <= i < j < |r| ==> r[i].registrationDate >= r[j].registrationDate
  {
    var r := SortDesc(FindByAccountStatus(c, status), RegistrationKey);
    assert forall p :: p in r <==> p in multiset(r);
    r
  }

  /** `findByAssignedProviderId` */
  function FindByAssignedProviderId(c: PatientStore, providerId: string): (r: seq<PatientRecord>)
    requires Valid(c)
    ensures forall p :: p in r <==> p in c.docs.Values && p.assignedProviderId == Some(providerId)
    ensures SubsequenceOf(r, DocumentStore.Listing(c))
  {
    DocumentStore.Select(c, (p: PatientRecord) => p.assignedProviderId == Some(providerId))
  }

  /** `findByEmail`: the one patient with this email, if any. */
  function FindByEmail(c: PatientStore, email: string): (r: Option<PatientRecord>)
    requires Valid(c)
    ensures r.Some? ==> r.value in c.docs.Values && r.value.email == email
    ensures r.Some? ==> forall id :: id in c.docs && c.docs[id].email == email ==> c.docs[id] == r.value
    ensures r.None? ==> forall id :: id in c.docs ==> c.docs[id].email != email
  {
    var all := DocumentStore.Listing(c);
    var r := FindFirst(all, (p: PatientRecord) => p.email == email);
    assert r.Some? ==> forall id :: id in c.docs && c.docs[id].email == email ==> c.docs[id] == r.value by {
      if r.Some? {
        var owner :| owner in c.docs && c.docs[owner] == r.value;
        assert forall id :: id in c.docs && c.docs[id].email == email ==> id == owner;
      }
    }
    assert forall id :: id in c.docs ==> c.docs[id] in all;
    r
  }

  /** `existsByEmail` */
  function ExistsByEmail(c: PatientStore, email: string): (b: bool)
    requires Valid(c)
    ensures b <==> exists id :: id in c.docs && c.docs[id].email == email
    ensures b <==> FindByEmail(c, email).Some?
  {
    var matches := DocumentStore.Select(c, (p: PatientRecord) => p.email == email);
    assert |matches| > 0 <==> exists id :: id in c.docs && c.docs[id].email == email by {
      if |matches| > 0 {
        assert matches[0] in matches;
      } else {
        assert forall id :: id in c.docs ==> c.docs[id] !in matches;
      }
    }
    DocumentStore.Count(c, (p: PatientRecord) => p.email == email) > 0
  }

  /** `findByProfileCompletedFalse` */
  function FindByProfileCompletedFalse(c: PatientStore): (r: seq<PatientRecord>)
    requires Valid(c)
    ensures forall p :: p in r <==> p in c.docs.Values && !p.profileCompleted
    ensures SubsequenceOf(r, DocumentStore.Listing(c))
  {
    DocumentStore.Select(c, (p: PatientRecord) => !p.profileCompleted)
  }

  /** `findByRegistrationDateBetween`: `{$gte: start, $lte: end}`, inclusive at both ends. */
  function FindByRegistrationDateBetween(c: PatientStore, start: Timestamp, end: Timestamp): (r: seq<PatientRecord>)
    requires Valid(c)
    ensures forall p :: p in r <==> p in c.docs.Values && start <= p.registrationDate <= end
    ensures SubsequenceOf(r, DocumentStore.Listing(c))
  {
    DocumentStore.Select(c, (p: PatientRecord) => start <= p.registrationDate <= end)
  }

  /** `findRecentlyRegistered`: `{$gte: since}`. */
  function FindRecentlyRegistered(c: PatientStore, since: Timestamp): (r: seq<PatientRecord>)
    requires Valid(c)
    ensures forall p :: p in r <==> p in c.docs.Values && since <= p.registrationDate
    ensures SubsequenceOf(r, DocumentStore.Listing(c))
  {
    DocumentStore.Select(c, (p: PatientRecord) => since <= p.registrationDate)
  }

  /** `countByAccountStatus`: agrees with the length of `findByAccountStatus`. */
  function CountByAccountStatus(c: PatientStore, status: string): (n: nat)
    requires Valid(c)
    ensures n == |FindByAccountStatus(c, status)|
  {
    DocumentStore.Count(c, (p: PatientRecord) => p.accountStatus == status)
  }

  /** `countByAssignedProviderId`: agrees with the length of `findByAssignedProviderId`. */
  function CountByAssignedProviderId(c: PatientStore, providerId: string): (n: nat)
    requires Valid(c)
    ensures n == |FindByAssignedProviderId(c, providerId)|
  {
    DocumentStore.Count(c, (p: PatientRecord) => p.assignedProviderId == Some(providerId))
  }

  /** Counts of two different statuses never add up to more than the number of stored patients. */
  lemma StatusCountsBounded(c: PatientStore, s1: string, s2: string)
    requires Valid(c) && s1 != s2
    ensures CountByAccountStatus(c, s1) + CountByAccountStatus(c, s2) <= CountAll(c)
  {
    var all := DocumentStore.Listing(c);
    DisjointFiltersBound(all, (p: PatientRecord) => p.accountStatus == s1, (p: PatientRecord) => p.accountStatus == s2);
  }
}
