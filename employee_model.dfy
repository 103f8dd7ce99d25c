/** The employee schema and its collection: the required paths, the unique
    `empId` index, and the pre-save hook that replaces a modified password by
    its salted hash before the document is written. */
module EmployeeModel {
  import opened Wrappers
  import opened Bcrypt

  /** Cost factor passed to `genSalt` by the pre-save hook. */
  const SaltRounds: nat := 10

  /** The schema's path names, in declaration order. */
  const RequiredPaths: seq<string> := ["name", "designation", "empId", "favTools", "password"]

  /** `profileImage`: the uploaded bytes and their MIME type. */
  datatype Image = Image(data: seq<bv8>, contentType: string)

  /** What the `password` path holds: a plaintext that was set and not yet
      hashed, or the digest the hook put there. Before the hook runs, a
      document of this core holds plaintext exactly when mongoose reports
      the path modified. */
  datatype Secret = Plain(text: string) | Hashed(digest: Digest)

  /** A document as `new Employee({...})` builds it: every path may be unset. */
  datatype Draft = Draft(
    name: Option<string>,
    designation: Option<string>,
    empId: Option<string>,
    favTools: Option<seq<string>>,
    password: Option<Secret>,
    profileImage: Option<Image>)

  /** A record as the collection holds it: the password only as a digest. */
  datatype Employee = Employee(
    name: string,
    designation: string,
    empId: string,
    favTools: seq<string>,
    password: Digest,
    profileImage: Option<Image>)

  datatype SaveError =
    | ValidationError(missing: seq<string>)
    | DuplicateKey(empId: string)

  /** `new Employee({...})`: a password that is given is set (so the path is
      modified) and held as plaintext. */
  function NewDraft(name: Option<string>, designation: Option<string>, empId: Option<string>,
                    favTools: Option<seq<string>>, password: Option<string>,
                    profileImage: Option<Image>): (d: Draft)
    ensures HoldsPlaintext(d) <==> password.Some?
    ensures password.Some? ==> d.password == Some(Plain(password.value))
  {
    Draft(name, designation, empId, favTools,
          if password.Some? then Some(Plain(password.value)) else None,
          profileImage)
  }

  /** The password path holds plaintext; before the hook this is
      `isModified("password")`. */
  predicate HoldsPlaintext(d: Draft)
  {
    d.password.Some? && d.password.value.Plain?
  }

  /** A required String path: set, and not the empty string. */
  predicate RequiredString(s: Option<string>)
  {
    s.Some? && |s.value| > 0
  }

  /** The required password path; a digest is never empty. */
  predicate RequiredSecret(p: Option<Secret>)
  {
    p.Some? && (p.value.Plain? ==> |p.value.text| > 0)
  }

  /** The document passes the schema's `required` validators; an empty
      `favTools` array is accepted. */
  predicate Complete(d: Draft)
  {
    && RequiredString(d.name)
    && RequiredString(d.designation)
    && RequiredString(d.empId)
    && d.favTools.Some?
    && RequiredSecret(d.password)
  }

  /** The paths whose `required` validator fails, in schema order. */
  function MissingPaths(d: Draft): (r: seq<string>)
    ensures r == [] <==> Complete(d)
    ensures "name" in r <==> !RequiredString(d.name)
    ensures "designation" in r <==> !RequiredString(d.designation)
    ensures "empId" in r <==> !RequiredString(d.empId)
    ensures "favTools" in r <==> d.favTools.None?
    ensures "password" in r <==> !RequiredSecret(d.password)
    ensures forall i :: 0 <= i < |r| ==> r[i] in RequiredPaths
  {
    (if RequiredString(d.name) then [] else ["name"]) +
    (if RequiredString(d.designation) then [] else ["designation"]) +
    (if RequiredString(d.empId) then [] else ["empId"]) +
    (if d.favTools.Some? then [] else ["favTools"]) +
    (if RequiredSecret(d.password) then [] else ["password"])
  }

  /** The pre-save hook: a modified (plaintext) password is replaced by its
      hash under `salt`; otherwise the document is left as it is. Afterwards
      the path holds a digest, not plaintext. */
  function PreSave(d: Draft, salt: Salt): (r: Draft)
    ensures HoldsPlaintext(d) ==> r.password == Some(Hashed(Hash(d.password.value.text, salt)))
    ensures !HoldsPlaintext(d) ==> r == d
    ensures !HoldsPlaintext(r)
    ensures r.(password := d.password) == d
  {
    if HoldsPlaintext(d) then d.(password := Some(Hashed(Hash(d.password.value.text, salt)))) else d
  }

  /** The schema's guarantees about every stored record. */
  predicate WellFormed(e: Employee)
  {
    |e.name| > 0 && |e.designation| > 0 && |e.empId| > 0
  }

  /** The record that a save of a complete document under `salt` writes. */
  function Saved(d: Draft, salt: Salt): (e: Employee)
    requires Complete(d)
    ensures WellFormed(e)
    ensures e.name == d.name.value && e.designation == d.designation.value
    ensures e.empId == d.empId.value && e.favTools == d.favTools.value
    ensures e.profileImage == d.profileImage
    ensures d.password.value.Plain? ==> e.password == Hash(d.password.value.text, salt)
    ensures d.password.value.Hashed? ==> e.password == d.password.value.digest
  {
    var h := PreSave(d, salt);
    Employee(h.name.value, h.designation.value, h.empId.value, h.favTools.value,
             h.password.value.digest, h.profileImage)
  }

  /** After a save, the stored digest authenticates exactly the plaintext the
      document carried. */
  lemma SavedPasswordMatches(d: Draft, nonce: seq<bv8>, candidate: string)
    requires Complete(d) && HoldsPlaintext(d)
    ensures Compare(candidate, Saved(d, GenSalt(SaltRounds, nonce)).password)
            <==> candidate == d.password.value.text
    ensures Saved(d, GenSalt(SaltRounds, nonce)).password.salt.rounds == 10
  {
    CompareHash(candidate, d.password.value.text, GenSalt(SaltRounds, nonce));
  }

  /** The employee collection: records keyed by `empId`, and the keys in the
      order the records were inserted (the order a full scan returns). */
  class EmployeeStore {
    var records: map<string, Employee>
    var order: seq<string>

    ghost predicate Valid()
      reads this
    {
      && (forall id :: id in records ==> records[id].empId == id && WellFormed(records[id]))
      && (forall id :: id in records <==> id in order)
      && (forall i, j :: 0 <= i < j < |order| ==> order[i] != order[j])
    }

    constructor ()
      ensures Valid()
      ensures records == map[] && order == []
    {
      records := map[];
      order := [];
    }

    /** `doc.save()` of a new document: validation, then the pre-save hook
        with a salt of cost `SaltRounds` drawn from `nonce`, then the insert,
        which the unique index on `empId` refuses for a key already present.
        A failed save leaves the collection as it was. */
    method Insert(d: Draft, nonce: seq<bv8>) returns (r: Result<Employee, SaveError>)
      requires Valid()
      modifies this
      ensures Valid()
      ensures !Complete(d) ==> r == Failure(ValidationError(MissingPaths(d)))
      ensures Complete(d) && d.empId.value in old(records) ==> r == Failure(DuplicateKey(d.empId.value))
      ensures Complete(d) && d.empId.value !in old(records) ==>
                && r == Success(Saved(d, GenSalt(SaltRounds, nonce)))
                && records == old(records)[d.empId.value := r.value]
                && order == old(order) + [d.empId.value]
      ensures r.Failure? ==> records == old(records) && order == old(order)
    {
      var missing := MissingPaths(d);
      if missing != [] {
        return Failure(ValidationError(missing));
      }
      var salt := GenSalt(SaltRounds, nonce);
      var doc := PreSave(d, salt);
      var id := doc.empId.value;
      if id in records {
        return Failure(DuplicateKey(id));
      }
      var e := Employee(doc.name.value, doc.designation.value, id, doc.favTools.value,
                        doc.password.value.digest, doc.profileImage);
      assert e == Saved(d, salt);
      records := records[id := e];
      order := order + [id];
      r := Success(e);
    }

    /** `Employee.findOne({ empId })`. */
    function Find(empId: string): (r: Option<Employee>)
      reads this
      requires Valid()
      ensures r.Some? <==> empId in records
      ensures r.Some? ==> r.value == records[empId] && r.value.empId == empId
    {
      if empId in records then Some(records[empId]) else None
    }
  }

  /** Two inserts with the same `empId`: the second fails and the first
      record is untouched. */
  method InsertTwice(d1: Draft, d2: Draft, n1: seq<bv8>, n2: seq<bv8>)
    returns (store: EmployeeStore, r1: Result<Employee, SaveError>, r2: Result<Employee, SaveError>)
    requires Complete(d1) && Complete(d2) && d1.empId == d2.empId
    ensures r1.Success? && r2 == Failure(DuplicateKey(d1.empId.value))
    ensures store.records == map[d1.empId.value := r1.value]
  {
    store := new EmployeeStore();
    r1 := store.Insert(d1, n1);
    r2 := store.Insert(d2, n2);
  }
}
