/** The `Donation` JPA entity: a donation between a donor and a seeker with
    its blood group, amount, type, location, status, urgency and dates. */
module DonationEntity {
  import opened Common
  import opened UserEntity

  /** The persisted state of a donation. Donor and seeker are the referenced users. */
  datatype DonationRow = DonationRow(
    id: Option<int>,
    donor: Option<UserRow>,
    seeker: Option<UserRow>,
    bloodGroup: string,
    amount: Option<real>,
    donationType: string,
    location: string,
    status: string,
    urgency: string,
    scheduledDate: Option<Timestamp>,
    completedDate: Option<Timestamp>,
    createdAt: Option<Timestamp>,
    updatedAt: Option<Timestamp>)

  /** The state `new Donation()` leaves: status "pending" and urgency "normal". */
  function BlankDonation(): (d: DonationRow)
    ensures d.status == "pending" && d.urgency == "normal"
    ensures d.id.None? && d.donor.None? && d.seeker.None?
  {
    DonationRow(None, None, None, "", None, "", "", "pending", "normal", None, None, None, None)
  }

  /** The state the six-argument constructor leaves. */
  function NewDonation(donor: Option<UserRow>, seeker: Option<UserRow>, bloodGroup: string,
                       donationType: string, location: string, urgency: string, now: Timestamp): DonationRow
  {
    BlankDonation().(donor := donor, seeker := seeker, bloodGroup := bloodGroup, donationType := donationType,
                     location := location, urgency := urgency, createdAt := Some(now), updatedAt := Some(now))
  }

  /** The bean validation constraints: five non-blank text fields. */
  predicate IsValid(d: DonationRow) {
    NotBlank(d.bloodGroup) && NotBlank(d.donationType) && NotBlank(d.location)
    && NotBlank(d.status) && NotBlank(d.urgency)
  }

  /** A donation built by the six-argument constructor is pending, and is valid
      exactly when the four text arguments are non-blank. */
  lemma {:induction false} NewDonationValidity(donor: Option<UserRow>, seeker: Option<UserRow>, bloodGroup: string,
                                               donationType: string, location: string, urgency: string, now: Timestamp)
    ensures NewDonation(donor, seeker, bloodGroup, donationType, location, urgency, now).status == "pending"
    ensures IsValid(NewDonation(donor, seeker, bloodGroup, donationType, location, urgency, now)) <==>
      (NotBlank(bloodGroup) && NotBlank(donationType) && NotBlank(location) && NotBlank(urgency))
  {
    assert !Trimmable("pending"[0]);
  }

  /** The entity object. `Row()` is the state a save writes to the table. */
  class Donation {
    var id: Option<int>
    var donor: Option<UserRow>
    var seeker: Option<UserRow>
    var bloodGroup: string
    var amount: Option<real>
    var donationType: string
    var location: string
    var status: string
    var urgency: string
    var scheduledDate: Option<Timestamp>
    var completedDate: Option<Timestamp>
    var createdAt: Option<Timestamp>
    var updatedAt: Option<Timestamp>

    function Row(): DonationRow
      reads this
    {
      DonationRow(id, donor, seeker, bloodGroup, amount, donationType, location, status, urgency,
                  scheduledDate, completedDate, createdAt, updatedAt)
    }

    /** `new Donation()`. */
    constructor ()
      ensures Row() == BlankDonation()
    {
      id, donor, seeker, bloodGroup, amount := None, None, None, "", None;
      donationType, location, status, urgency := "", "", "pending", "normal";
      scheduledDate, completedDate, createdAt, updatedAt := None, None, None, None;
    }

    /** The six-argument constructor; the status keeps its initialiser. */
    constructor Create(donor: Option<UserRow>, seeker: Option<UserRow>, bloodGroup: string,
                       donationType: string, location: string, urgency: string, now: Timestamp)
      ensures Row() == NewDonation(donor, seeker, bloodGroup, donationType, location, urgency, now)
    {
      this.id, this.amount, this.status := None, None, "pending";
      this.donor, this.seeker, this.bloodGroup := donor, seeker, bloodGroup;
      this.donationType, this.location, this.urgency := donationType, location, urgency;
      this.scheduledDate, this.completedDate := None, None;
      this.createdAt, this.updatedAt := Some(now), Some(now);
    }

    /** The entity a repository lookup materialises from a stored row. */
    constructor Load(r: DonationRow)
      ensures Row() == r
    {
      id, donor, seeker, bloodGroup, amount := r.id, r.donor, r.seeker, r.bloodGroup, r.amount;
      donationType, location, status, urgency := r.donationType, r.location, r.status, r.urgency;
      scheduledDate, completedDate := r.scheduledDate, r.completedDate;
      createdAt, updatedAt := r.createdAt, r.updatedAt;
    }

    /** `@PrePersist onCreate`: both timestamps, nothing else. */
    method OnCreate(now: Timestamp)
      modifies this
      ensures Row() == old(Row()).(createdAt := Some(now), updatedAt := Some(now))
    {
      createdAt := Some(now);
      updatedAt := Some(now);
    }

    /** `@PreUpdate onUpdate`: only `updatedAt`. */
    method OnUpdate(now: Timestamp)
      modifies this
      ensures Row() == old(Row()).(updatedAt := Some(now))
    {
      updatedAt := Some(now);
    }

    method SetId(v: Option<int>)
      modifies this
      ensures Row() == old(Row()).(id := v)
    { id := v; }

    method SetDonor(v: Option<UserRow>)
      modifies this
      ensures Row() == old(Row()).(donor := v)
    { donor := v; }

    method SetSeeker(v: Option<UserRow>)
      modifies this
      ensures Row() == old(Row()).(seeker := v)
    { seeker := v; }

    method SetBloodGroup(v: string)
      modifies this
      ensures Row() == old(Row()).(bloodGroup := v)
    { bloodGroup := v; }

    method SetAmount(v: Option<real>)
      modifies this
      ensures Row() == old(Row()).(amount := v)
    { amount := v; }

    method SetDonationType(v: string)
      modifies this
      ensures Row() == old(Row()).(donationType := v)
    { donationType := v; }

    method SetLocation(v: string)
      modifies this
      ensures Row() == old(Row()).(location := v)
    { location := v; }

    method SetStatus(v: string)
      modifies this
      ensures Row() == old(Row()).(status := v)
    { status := v; }

    method SetUrgency(v: string)
      modifies this
      ensures Row() == old(Row()).(urgency := v)
    { urgency := v; }

    method SetScheduledDate(v: Option<Timestamp>)
      modifies this
      ensures Row() == old(Row()).(scheduledDate := v)
    { scheduledDate := v; }

    method SetCompletedDate(v: Option<Timestamp>)
      modifies this
      ensures Row() == old(Row()).(completedDate := v)
    { completedDate := v; }

    method SetCreatedAt(v: Option<Timestamp>)
      modifies this
      ensures Row() == old(Row()).(createdAt := v)
    { createdAt := v; }

    method SetUpdatedAt(v: Option<Timestamp>)
      modifies this
      ensures Row() == old(Row()).(updatedAt := v)
    { updatedAt := v; }
  }
}
