/** The completion percentage of a candidate profile: seven scalar fields
    and three lists of related records, each worth a tenth. */
module CandidateProfile {

  import opened Wrappers
  import opened Seqs
  import opened ResumeData

  /** The parts of a profile the percentage looks at; the related records
      are represented by how many there are. */
  datatype Profile = Profile(
    firstName: Option<string>,
    lastName: Option<string>,
    phone: Option<string>,
    location: Option<string>,
    headline: Option<string>,
    summary: Option<string>,
    preferredRole: Option<string>,
    experiences: nat,
    education: nat,
    skills: nat)

  /** The seven scalar fields, in the order they are listed. */
  function Fields(p: Profile): (fs: seq<Option<string>>)
    ensures |fs| == 7
  {
    [p.firstName, p.lastName, p.phone, p.location, p.headline, p.summary, p.preferredRole]
  }

  /** One completed part when the condition holds. */
  function OneIfDone(b: bool): nat {
    if b then 1 else 0
  }

  /** The filled fields plus one for each non-empty list of records. */
  function Completed(p: Profile): (c: nat)
    ensures c <= 10
  {
    |Filter(Fields(p), Truthy)| + OneIfDone(p.experiences > 0) + OneIfDone(p.education > 0)
      + OneIfDone(p.skills > 0)
  }

  /** `int((completed / 10) * 100)`: exactly ten points per completed part. */
  function Completion(p: Profile): (pct: int)
    ensures pct == 10 * Completed(p)
    ensures 0 <= pct <= 100
  {
    var c := Completed(p);
    var ratio := (c as real / 10.0) * 100.0;
    assert ratio == (10 * c) as real;
    ratio.Floor
  }

  /** Nothing filled in gives 0, and only then. */
  lemma CompletionZero(p: Profile)
    ensures Completion(p) == 0 <==>
              (forall i :: 0 <= i < 7 ==> !Truthy(Fields(p)[i]))
              && p.experiences == 0 && p.education == 0 && p.skills == 0
  {
    FilterLength(Fields(p), Truthy);
  }

  /** Everything filled in gives 100, and only then. */
  lemma CompletionFull(p: Profile)
    ensures Completion(p) == 100 <==>
              (forall i :: 0 <= i < 7 ==> Truthy(Fields(p)[i]))
              && p.experiences > 0 && p.education > 0 && p.skills > 0
  {
    FilterLength(Fields(p), Truthy);
  }

  /** Every part filled in `p` is filled in `q`. */
  predicate FilledWithin(p: Profile, q: Profile) {
    (forall i :: 0 <= i < 7 ==> Truthy(Fields(p)[i]) ==> Truthy(Fields(q)[i]))
    && (p.experiences > 0 ==> q.experiences > 0)
    && (p.education > 0 ==> q.education > 0)
    && (p.skills > 0 ==> q.skills > 0)
  }

  /** Filling in more of a profile never lowers its percentage. */
  lemma CompletionMonotone(p: Profile, q: Profile)
    requires FilledWithin(p, q)
    ensures Completion(p) <= Completion(q)
  {
    FilterLengthMonotone(Fields(p), Fields(q), Truthy);
  }
}
