/** `DonationRepository`: the donation table, its derived and JPQL queries,
    and `save`/`deleteById`. */
module DonationRepository {
  import opened Common
  import opened UserEntity
  import opened DonationEntity

  // ---------------------------------------------------------------------------
  // Row predicates

  function HasId(id: int): DonationRow -> bool { (d: DonationRow) => d.id == Some(id) }

  function LacksId(id: int): DonationRow -> bool { (d: DonationRow) => d.id != Some(id) }

  /** `d.donor.id = :userId`: a donation without a donor never qualifies. */
  predicate DonorIs(d: DonationRow, userId: int) { d.donor.Some? && d.donor.value.id == Some(userId) }

  predicate SeekerIs(d: DonationRow, userId: int) { d.seeker.Some? && d.seeker.value.id == Some(userId) }

  function HasBloodGroup(bloodGroup: string): DonationRow -> bool { (d: DonationRow) => d.bloodGroup == bloodGroup }

  function HasStatus(status: string): DonationRow -> bool { (d: DonationRow) => d.status == status }

  function HasUrgency(urgency: string): DonationRow -> bool { (d: DonationRow) => d.urgency == urgency }

  // ---------------------------------------------------------------------------
  // Queries

  /** `findById`. */
  function FindById(rows: seq<DonationRow>, id: int): (r: Option<DonationRow>)
    ensures r.Some? <==> exists d :: d in rows && d.id == Some(id)
    ensures r.Some? ==> r.value in rows && r.value.id == Some(id)
  {
    FirstWhere(rows, HasId(id))
  }

  /** `findByDonorId`. */
  function FindByDonorId(rows: seq<DonationRow>, donorId: int): (r: seq<DonationRow>)
    ensures forall d :: d in r <==> d in rows && DonorIs(d, donorId)
  {
    Filter(rows, (d: DonationRow) => DonorIs(d, donorId))
  }

  /** `findBySeekerId`. */
  function FindBySeekerId(rows: seq<DonationRow>, seekerId: int): (r: seq<DonationRow>)
    ensures forall d :: d in r <==> d in rows && SeekerIs(d, seekerId)
  {
    Filter(rows, (d: DonationRow) => SeekerIs(d, seekerId))
  }

  /** `findByBloodGroup`. */
  function FindByBloodGroup(rows: seq<DonationRow>, bloodGroup: string): (r: seq<DonationRow>)
    ensures forall d :: d in r <==> d in rows && d.bloodGroup == bloodGroup
  {
    Filter(rows, HasBloodGroup(bloodGroup))
  }

  /** `findByStatus`. */
  function FindByStatus(rows: seq<DonationRow>, status: string): (r: seq<DonationRow>)
    ensures forall d :: d in r <==> d in rows && d.status == status
  {
    Filter(rows, HasStatus(status))
  }

  /** `findByUrgency`. */
  function FindByUrgency(rows: seq<DonationRow>, urgency: string): (r: seq<DonationRow>)
    ensures forall d :: d in r <==> d in rows && d.urgency == urgency
  {
    Filter(rows, HasUrgency(urgency))
  }

  /** `findDonationsByUserId`: the donations where the user is donor or
      seeker, which is the union of the two single-role queries. */
  function FindDonationsByUserId(rows: seq<DonationRow>, userId: int): (r: seq<DonationRow>)
    ensures forall d :: d in r <==> d in FindByDonorId(rows, userId) || d in FindBySeekerId(rows, userId)
  {
    Filter(rows, (d: DonationRow) => DonorIs(d, userId) || SeekerIs(d, userId))
  }

  /** `findByBloodGroupAndStatus`: the status query applied to the blood-group query. */
  function FindByBloodGroupAndStatus(rows: seq<DonationRow>, bloodGroup: string, status: string): (r: seq<DonationRow>)
    ensures forall d :: d in r <==> d in rows && d.bloodGroup == bloodGroup && d.status == status
    ensures r == FindByStatus(FindByBloodGroup(rows, bloodGroup), status)
  {
    var both := (d: DonationRow) => d.bloodGroup == bloodGroup && d.status == status;
    FilterFilter(rows, HasBloodGroup(bloodGroup), HasStatus(status), both);
    Filter(rows, both)
  }

  /** `findCriticalPendingDonations`: the pending donations among the critical
      ones, that is, the intersection of the urgency and status queries. */
  function FindCriticalPendingDonations(rows: seq<DonationRow>): (r: seq<DonationRow>)
    ensures forall d :: d in r <==> d in rows && d.urgency == "critical" && d.status == "pending"
    ensures r == FindByStatus(FindByUrgency(rows, "critical"), "pending")
  {
    var both := (d: DonationRow) => d.urgency == "critical" && d.status == "pending";
    FilterFilter(rows, HasUrgency("critical"), HasStatus("pending"), both);
    Filter(rows, both)
  }

  // ---------------------------------------------------------------------------
  // The table

  /** Stored rows: every row has a generated key below the next one, and keys are distinct. */
  predicate WellFormed(rows: seq<DonationRow>, nextId: int) {
    && (forall i :: 0 <= i < |rows| ==> rows[i].id.Some? && rows[i].id.value < nextId)
    && (forall i, j :: 0 <= i < j < |rows| ==> rows[i].id != rows[j].id)
  }
  /** The rows in which the user is neither donor nor seeker. */
  function Uninvolved(userId: int): DonationRow -> bool {
    (d: DonationRow) => !DonorIs(d, userId) && !SeekerIs(d, userId)
  }

  /** The rows after the first are well formed, and none shares its key. */
  lemma WellFormedTail(rows: seq<DonationRow>, nextId: int)
    requires rows != [] && WellFormed(rows, nextId)
    ensures WellFormed(rows[1..], nextId)
    ensures forall x :: x in rows[1..] ==> x.id != rows[0].id
  {
    forall i, j | 0 <= i < j < |rows[1..]| ensures rows[1..][i].id != rows[1..][j].id {
      assert rows[1..][i] == rows[i + 1] && rows[1..][j] == rows[j + 1];
    }
    forall x | x in rows[1..] ensures x.id != rows[0].id {
      var k :| 0 <= k < |rows[1..]| && rows[1..][k] == x;
      assert rows[k + 1] == x;
    }
  }

  /** A row with a fresh generated key can go in front. */
  lemma WellFormedCons(x: DonationRow, tail: seq<DonationRow>, nextId: int)
    requires WellFormed(tail, nextId) && x.id.Some? && x.id.value < nextId
    requires forall y :: y in tail ==> y.id != x.id
    ensures WellFormed([x] + tail, nextId)
  {
    var s := [x] + tail;
    forall i, j | 0 <= i < j < |s| ensures s[i].id != s[j].id {
      assert s[j] == tail[j - 1] && tail[j - 1] in tail;
      if i > 0 {
        assert s[i] == tail[i - 1];
      }
    }
  }

  /** Dropping rows keeps every key generated and distinct. */
  lemma {:induction false} WellFormedFilter(rows: seq<DonationRow>, nextId: int, p: DonationRow -> bool)
    requires WellFormed(rows, nextId)
    ensures WellFormed(Filter(rows, p), nextId)
  {
    if rows != [] {
      WellFormedTail(rows, nextId);
      WellFormedFilter(rows[1..], nextId, p);
      if p(rows[0]) {
        WellFormedCons(rows[0], Filter(rows[1..], p), nextId);
      }
    }
  }



  /** The row a flush writes for an entity loaded from `before` and now in
      state `after`: the dirty check runs `@PreUpdate` only when a field changed. */
  function Flushed(after: DonationRow, before: DonationRow, now: Timestamp): (r: DonationRow)
    ensures after == before ==> r == before
    ensures after != before ==> r == after.(updatedAt := Some(now))
  {
    if after == before then after else after.(updatedAt := Some(now))
  }

  /** The donations table with its identity counter. */
  class DonationTable {
    var rows: seq<DonationRow>
    var nextId: int

    predicate Valid()
      reads this
    {
      WellFormed(rows, nextId)
    }

    constructor ()
      ensures rows == [] && nextId == 1 && Valid()
    {
      rows, nextId := [], 1;
    }

    /** `save` of a new entity (null id): `@PrePersist`, then the identity key. */
    method Insert(e: Donation, now: Timestamp) returns (saved: DonationRow)
      requires Valid() && e.id.None?
      modifies this, e
      ensures saved == old(e.Row()).(id := Some(old(nextId)), createdAt := Some(now), updatedAt := Some(now))
      ensures e.Row() == saved
      ensures rows == old(rows) + [saved] && nextId == old(nextId) + 1
      ensures Valid()
    {
      e.OnCreate(now);
      e.SetId(Some(nextId));
      saved := e.Row();
      rows := rows + [saved];
      nextId := nextId + 1;
    }

    /** `save` of the entity loaded from row `k`, whose key is unchanged. */
    method Update(k: nat, e: Donation, now: Timestamp) returns (saved: DonationRow)
      requires Valid() && k < |rows| && e.id == rows[k].id
      modifies this, e
      ensures saved == Flushed(old(e.Row()), old(rows[k]), now)
      ensures e.Row() == saved
      ensures rows == old(rows)[k := saved] && nextId == old(nextId)
      ensures Valid()
    {
      if e.Row() != rows[k] {
        e.OnUpdate(now);
      }
      saved := e.Row();
      rows := rows[k := saved];
    }

    /** The cascade of a user's removal: every donation the user gives or
        receives goes with them. */
    method DeleteInvolving(userId: int)
      requires Valid()
      modifies this
      ensures rows == Filter(old(rows), Uninvolved(userId)) && nextId == old(nextId)
      ensures forall d :: d in rows <==> d in old(rows) && !DonorIs(d, userId) && !SeekerIs(d, userId)
      ensures Valid()
    {
      WellFormedFilter(rows, nextId, Uninvolved(userId));
      rows := Filter(rows, Uninvolved(userId));
    }

    /** `deleteById`: removes the row with that key; a missing key changes nothing. */
    method DeleteById(id: int)
      requires Valid()
      modifies this
      ensures rows == Filter(old(rows), LacksId(id)) && nextId == old(nextId)
      ensures Valid()
    {
      match IndexWhere(rows, HasId(id))
      case None =>
        FilterAll(rows, LacksId(id));
      case Some(k) =>
        FilterRemoveAt(rows, LacksId(id), k);
        rows := RemoveAt(rows, k);
    }
  }
}
