/** The `Match` JPA entity: a proposed donor/seeker pairing with a blood
    group, a distance, a compatibility score and a status. */
module MatchEntity {
  import opened Common
  import opened UserEntity

  /** The persisted state of a match. Donor and seeker are the referenced users. */
  datatype MatchRow = MatchRow(
    id: Option<int>,
    donor: Option<UserRow>,
    seeker: Option<UserRow>,
    bloodGroup: string,
    distance: Option<real>,
    compatibilityScore: Option<int>,
    status: string,
    createdAt: Option<Timestamp>,
    updatedAt: Option<Timestamp>)

  /** The state `new Match()` leaves: only the status initialiser runs. */
  function BlankMatch(): (m: MatchRow)
    ensures m.status == "pending"
    ensures m.id.None? && m.donor.None? && m.seeker.None? && m.compatibilityScore.None?
  {
    MatchRow(None, None, None, "", None, None, "pending", None, None)
  }

  /** The state the five-argument constructor leaves. */
  function NewMatch(donor: Option<UserRow>, seeker: Option<UserRow>, bloodGroup: string,
                    distance: Option<real>, score: Option<int>, now: Timestamp): MatchRow
  {
    BlankMatch().(donor := donor, seeker := seeker, bloodGroup := bloodGroup, distance := distance,
                  compatibilityScore := score, createdAt := Some(now), updatedAt := Some(now))
  }

  /** The bean validation constraints: a non-blank blood group and status, and a
      score within 0..100 when present (`@Min`/`@Max` accept null). */
  predicate IsValid(m: MatchRow) {
    && NotBlank(m.bloodGroup)
    && (m.compatibilityScore.Some? ==> 0 <= m.compatibilityScore.value <= 100)
    && NotBlank(m.status)
  }

  /** A match built by the five-argument constructor is pending, and is valid
      exactly when its blood group is non-blank and its score, if any, lies in 0..100. */
  lemma {:induction false} NewMatchValidity(donor: Option<UserRow>, seeker: Option<UserRow>, bloodGroup: string,
                                            distance: Option<real>, score: Option<int>, now: Timestamp)
    ensures NewMatch(donor, seeker, bloodGroup, distance, score, now).status == "pending"
    ensures IsValid(NewMatch(donor, seeker, bloodGroup, distance, score, now)) <==>
      (NotBlank(bloodGroup) && (score.Some? ==> 0 <= score.value <= 100))
  {
    assert !Trimmable("pending"[0]);
  }

  /** The entity object. `Row()` is the state a save writes to the table. */
  class Match {
    var id: Option<int>
    var donor: Option<UserRow>
    var seeker: Option<UserRow>
    var bloodGroup: string
    var distance: Option<real>
    var compatibilityScore: Option<int>
    var status: string
    var createdAt: Option<Timestamp>
    var updatedAt: Option<Timestamp>

    function Row(): MatchRow
      reads this
    {
      MatchRow(id, donor, seeker, bloodGroup, distance, compatibilityScore, status, createdAt, updatedAt)
    }

    /** `new Match()`. */
    constructor ()
      ensures Row() == BlankMatch()
    {
      id, donor, seeker, bloodGroup := None, None, None, "";
      distance, compatibilityScore, status := None, None, "pending";
      createdAt, updatedAt := None, None;
    }

    /** The five-argument constructor; the status keeps its initialiser. */
    constructor Create(donor: Option<UserRow>, seeker: Option<UserRow>, bloodGroup: string,
                       distance: Option<real>, score: Option<int>, now: Timestamp)
      ensures Row() == NewMatch(donor, seeker, bloodGroup, distance, score, now)
    {
      this.id, this.status := None, "pending";
      this.donor, this.seeker, this.bloodGroup := donor, seeker, bloodGroup;
      this.distance, this.compatibilityScore := distance, score;
      this.createdAt, this.updatedAt := Some(now), Some(now);
    }

    /** The entity a repository lookup materialises from a stored row. */
    constructor Load(r: MatchRow)
      ensures Row() == r
    {
      id, donor, seeker, bloodGroup := r.id, r.donor, r.seeker, r.bloodGroup;
      distance, compatibilityScore, status := r.distance, r.compatibilityScore, r.status;
      createdAt, updatedAt := r.createdAt, r.updatedAt;
    }

    /** `@PrePersist onCreate`: both timestamps, nothing else. */
    method OnCreate(now: Timestamp)
      modifies this
      ensures Row() == old(Row()).(createdAt := Some(now), updatedAt := Some(now))
    {
      createdAt := Some(now);
      updatedAt := Some(now);
    }

    /** `@PreUpdate onUpdate`: only `updatedAt`. */
    method OnUpdate(now: Timestamp)
      modifies this
      ensures Row() == old(Row()).(updatedAt := Some(now))
    {
      updatedAt := Some(now);
    }

    method SetId(v: Option<int>)
      modifies this
      ensures Row() == old(Row()).(id := v)
    { id := v; }

    method SetDonor(v: Option<UserRow>)
      modifies this
      ensures Row() == old(Row()).(donor := v)
    { donor := v; }

    method SetSeeker(v: Option<UserRow>)
      modifies this
      ensures Row() == old(Row()).(seeker := v)
    { seeker := v; }

    method SetBloodGroup(v: string)
      modifies this
      ensures Row() == old(Row()).(bloodGroup := v)
    { bloodGroup := v; }

    method SetDistance(v: Option<real>)
      modifies this
      ensures Row() == old(Row()).(distance := v)
    { distance := v; }

    method SetCompatibilityScore(v: Option<int>)
      modifies this
      ensures Row() == old(Row()).(compatibilityScore := v)
    { compatibilityScore := v; }

    method SetStatus(v: string)
      modifies this
      ensures Row() == old(Row()).(status := v)
    { status := v; }

    method SetCreatedAt(v: Option<Timestamp>)
      modifies this
      ensures Row() == old(Row()).(createdAt := v)
    { createdAt := v; }

    method SetUpdatedAt(v: Option<Timestamp>)
      modifies this
      ensures Row() == old(Row()).(updatedAt := v)
    { updatedAt := v; }
  }
}
