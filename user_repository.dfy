/** `UserRepository`: the user table, the derived and JPQL queries over it,
    and the table-changing `save`/`deleteById` that Spring Data supplies. */
module UserRepository {
  import opened Common
  import opened UserEntity
  import DonationRepository
  import MatchRepository

  // ---------------------------------------------------------------------------
  // Row predicates

  function HasId(id: int): UserRow -> bool { (u: UserRow) => u.id == Some(id) }

  function LacksId(id: int): UserRow -> bool { (u: UserRow) => u.id != Some(id) }

  function HasEmail(email: string): UserRow -> bool { (u: UserRow) => u.email == email }

  /** `isAvailable = true`: a null flag does not qualify. */
  predicate IsAvailableTrue(u: UserRow) { u.isAvailable == Some(true) }

  // ---------------------------------------------------------------------------
  // Queries

  /** `findById`. */
  function FindById(rows: seq<UserRow>, id: int): (r: Option<UserRow>)
    ensures r.Some? <==> exists u :: u in rows && u.id == Some(id)
    ensures r.Some? ==> r.value in rows && r.value.id == Some(id)
  {
    FirstWhere(rows, HasId(id))
  }

  /** `findByEmail`. */
  function FindByEmail(rows: seq<UserRow>, email: string): (r: Option<UserRow>)
    ensures r.Some? <==> exists u :: u in rows && u.email == email
    ensures r.Some? ==> r.value in rows && r.value.email == email
  {
    FirstWhere(rows, HasEmail(email))
  }

  /** `existsByEmail`: holds exactly when `findByEmail` finds a row. */
  function ExistsByEmail(rows: seq<UserRow>, email: string): (r: bool)
    ensures r <==> FindByEmail(rows, email).Some?
  {
    exists i :: 0 <= i < |rows| && rows[i].email == email
  }

  /** `findByBloodGroupAndUserTypeAndIsAvailableTrue`, and the JPQL query
      `findAvailableUsersByBloodGroupAndType`, whose WHERE clause is the same
      conjunction: equal blood group, equal user type, available. */
  function FindAvailableUsersByBloodGroupAndType(rows: seq<UserRow>, bloodGroup: string, userType: string): (r: seq<UserRow>)
    ensures forall u :: u in r <==>
      u in rows && u.bloodGroup == bloodGroup && u.userType == userType && IsAvailableTrue(u)
  {
    Filter(rows, (u: UserRow) => u.bloodGroup == bloodGroup && u.userType == userType && IsAvailableTrue(u))
  }

  /** `findByLocationContainingIgnoreCaseAndUserTypeAndIsAvailableTrue`. */
  function FindByLocationContainingIgnoreCaseAndUserTypeAndIsAvailableTrue(rows: seq<UserRow>, location: string, userType: string): (r: seq<UserRow>)
    ensures forall u :: u in r <==>
      u in rows && ContainsIgnoreCase(u.location, location) && u.userType == userType && IsAvailableTrue(u)
  {
    Filter(rows, (u: UserRow) => ContainsIgnoreCase(u.location, location) && u.userType == userType && IsAvailableTrue(u))
  }

  /** `findAvailableUsersByLocationAndType`: `LIKE %location%`, which matches case. */
  function FindAvailableUsersByLocationAndType(rows: seq<UserRow>, location: string, userType: string): (r: seq<UserRow>)
    ensures forall u :: u in r <==>
      u in rows && Contains(u.location, location) && u.userType == userType && IsAvailableTrue(u)
  {
    Filter(rows, (u: UserRow) => Contains(u.location, location) && u.userType == userType && IsAvailableTrue(u))
  }

  /** Every user the `LIKE` query finds, the case-insensitive derived query finds too. */
  lemma LikeWithinIgnoreCase(rows: seq<UserRow>, location: string, userType: string)
    ensures forall u :: u in FindAvailableUsersByLocationAndType(rows, location, userType) ==>
      u in FindByLocationContainingIgnoreCaseAndUserTypeAndIsAvailableTrue(rows, location, userType)
  {
    forall u | u in FindAvailableUsersByLocationAndType(rows, location, userType)
      ensures u in FindByLocationContainingIgnoreCaseAndUserTypeAndIsAvailableTrue(rows, location, userType)
    {
      ContainsImpliesIgnoreCase(u.location, location);
    }
  }

  /** The converse fails: an available donor in "A" is found by the
      case-insensitive query for "a" and missed by the `LIKE` query. */
  lemma LikeIsCaseSensitive()
    ensures var u := BlankUser().(location := "A", userType := "donor");
      && u in FindByLocationContainingIgnoreCaseAndUserTypeAndIsAvailableTrue([u], "a", "donor")
      && u !in FindAvailableUsersByLocationAndType([u], "a", "donor")
  {
    var u := BlankUser().(location := "A", userType := "donor");
    assert Lower("A") == "a";
    assert Lower("a") == "a";
    assert OccursAt(Lower("A"), Lower("a"), 0);
    assert "A"[0..1][0] != "a"[0];
  }

  // ---------------------------------------------------------------------------
  // The table

  /** Stored rows: every row has a generated key below the next one, keys
      are distinct, and emails are distinct (`@Column(unique = true)`). */
  predicate WellFormed(rows: seq<UserRow>, nextId: int) {
    && (forall i :: 0 <= i < |rows| ==> rows[i].id.Some? && rows[i].id.value < nextId)
    && (forall i, j :: 0 <= i < j < |rows| ==> rows[i].id != rows[j].id)
    && (forall i, j :: 0 <= i < j < |rows| ==> rows[i].email != rows[j].email)
  }

  /** In a well-formed table, looking up a stored row's key finds that row. */
  lemma FindByIdOfStored(rows: seq<UserRow>, nextId: int, k: nat)
    requires WellFormed(rows, nextId) && k < |rows|
    ensures FindById(rows, rows[k].id.value) == Some(rows[k])
  {
    var i := IndexWhere(rows, HasId(rows[k].id.value)).value;
    assert i == k;
  }

  /** In a well-formed table, looking up a stored row's email finds that row. */
  lemma FindByEmailOfStored(rows: seq<UserRow>, nextId: int, k: nat)
    requires WellFormed(rows, nextId) && k < |rows|
    ensures FindByEmail(rows, rows[k].email) == Some(rows[k])
  {
    var i := IndexWhere(rows, HasEmail(rows[k].email)).value;
    assert i == k;
  }

  /** The row a flush writes for an entity loaded from `before` and now in
      state `after`: the dirty check runs `@PreUpdate` only when a field changed. */
  function Flushed(after: UserRow, before: UserRow, now: Timestamp): (r: UserRow)
    ensures after == before ==> r == before
    ensures after != before ==> r == after.(updatedAt := Some(now))
  {
    if after == before then after else after.(updatedAt := Some(now))
  }

  /** The users table with its identity counter. */
  class UserTable {
    var rows: seq<UserRow>
    var nextId: int

    predicate Valid()
      reads this
    {
      WellFormed(rows, nextId)
    }

    constructor ()
      ensures rows == [] && nextId == 1 && Valid()
    {
      rows, nextId := [], 1;
    }

    /** `save` of a new entity (null id): `@PrePersist`, then the identity
        key. The caller has checked the email is free, so the unique
        constraint holds. */
    method Insert(e: User, now: Timestamp) returns (saved: UserRow)
      requires Valid() && e.id.None? && !ExistsByEmail(rows, e.email)
      modifies this, e
      ensures saved == old(e.Row()).(id := Some(old(nextId)), createdAt := Some(now), updatedAt := Some(now))
      ensures e.Row() == saved
      ensures rows == old(rows) + [saved] && nextId == old(nextId) + 1
      ensures Valid()
    {
      e.OnCreate(now);
      e.SetId(Some(nextId));
      saved := e.Row();
      rows := rows + [saved];
      nextId := nextId + 1;
    }

    /** `save` of the entity loaded from row `k`, whose key and email are unchanged. */
    method Update(k: nat, e: User, now: Timestamp) returns (saved: UserRow)
      requires Valid() && k < |rows| && e.id == rows[k].id && e.email == rows[k].email
      modifies this, e
      ensures saved == Flushed(old(e.Row()), old(rows[k]), now)
      ensures e.Row() == saved
      ensures rows == old(rows)[k := saved] && nextId == old(nextId)
      ensures Valid()
    {
      if e.Row() != rows[k] {
        e.OnUpdate(now);
      }
      saved := e.Row();
      rows := rows[k := saved];
    }

    /** `deleteById`: when a user has that key, removes it together with
        every donation and match in which it is donor or seeker (the
        `cascade = ALL` one-to-many relations); a missing key changes nothing. */
    method DeleteById(id: int, donations: DonationRepository.DonationTable, matches: MatchRepository.MatchTable)
      requires Valid() && donations.Valid() && matches.Valid()
      modifies this, donations, matches
      ensures rows == Filter(old(rows), LacksId(id)) && nextId == old(nextId)
      ensures old(FindById(rows, id)).Some? ==>
        && donations.rows == Filter(old(donations.rows), DonationRepository.Uninvolved(id))
        && matches.rows == Filter(old(matches.rows), MatchRepository.Uninvolved(id))
      ensures old(FindById(rows, id)).None? ==>
        donations.rows == old(donations.rows) && matches.rows == old(matches.rows)
      ensures donations.nextId == old(donations.nextId) && matches.nextId == old(matches.nextId)
      ensures Valid() && donations.Valid() && matches.Valid()
    {
      match IndexWhere(rows, HasId(id))
      case None =>
        FilterAll(rows, LacksId(id));
      case Some(k) =>
        FilterRemoveAt(rows, LacksId(id), k);
        rows := RemoveAt(rows, k);
        donations.DeleteInvolving(id);
        matches.DeleteInvolving(id);
    }
  }
}
