/** `MatchRepository`: the match table, its derived and JPQL queries
    (including the one ordered by score), and `save`/`deleteById`. */
module MatchRepository {
  import opened Common
  import opened UserEntity
  import opened MatchEntity

  // ---------------------------------------------------------------------------
  // Row predicates

  function HasId(id: int): MatchRow -> bool { (m: MatchRow) => m.id == Some(id) }

  function LacksId(id: int): MatchRow -> bool { (m: MatchRow) => m.id != Some(id) }

  /** `m.donor.id = :userId`: a match without a donor never qualifies. */
  predicate DonorIs(m: MatchRow, userId: int) { m.donor.Some? && m.donor.value.id == Some(userId) }

  predicate SeekerIs(m: MatchRow, userId: int) { m.seeker.Some? && m.seeker.value.id == Some(userId) }

  function HasBloodGroup(bloodGroup: string): MatchRow -> bool { (m: MatchRow) => m.bloodGroup == bloodGroup }

  function HasStatus(status: string): MatchRow -> bool { (m: MatchRow) => m.status == status }

  /** `m.compatibilityScore >= :minScore`: a null score never qualifies. */
  predicate ScoreAtLeast(m: MatchRow, minScore: int) {
    m.compatibilityScore.Some? && m.compatibilityScore.value >= minScore
  }

  /** Both parties' locations contain `location` (`LIKE %location%`) and the match is pending. */
  predicate PendingNear(m: MatchRow, location: string) {
    && m.donor.Some? && Contains(m.donor.value.location, location)
    && m.seeker.Some? && Contains(m.seeker.value.location, location)
    && m.status == "pending"
  }

  // ---------------------------------------------------------------------------
  // Queries

  /** `findById`. */
  function FindById(rows: seq<MatchRow>, id: int): (r: Option<MatchRow>)
    ensures r.Some? <==> exists m :: m in rows && m.id == Some(id)
    ensures r.Some? ==> r.value in rows && r.value.id == Some(id)
  {
    FirstWhere(rows, HasId(id))
  }

  /** `findByDonorId`. */
  function FindByDonorId(rows: seq<MatchRow>, donorId: int): (r: seq<MatchRow>)
    ensures forall m :: m in r <==> m in rows && DonorIs(m, donorId)
  {
    Filter(rows, (m: MatchRow) => DonorIs(m, donorId))
  }

  /** `findBySeekerId`. */
  function FindBySeekerId(rows: seq<MatchRow>, seekerId: int): (r: seq<MatchRow>)
    ensures forall m :: m in r <==> m in rows && SeekerIs(m, seekerId)
  {
    Filter(rows, (m: MatchRow) => SeekerIs(m, seekerId))
  }

  /** `findByBloodGroup`. */
  function FindByBloodGroup(rows: seq<MatchRow>, bloodGroup: string): (r: seq<MatchRow>)
    ensures forall m :: m in r <==> m in rows && m.bloodGroup == bloodGroup
  {
    Filter(rows, HasBloodGroup(bloodGroup))
  }

  /** `findByStatus`. */
  function FindByStatus(rows: seq<MatchRow>, status: string): (r: seq<MatchRow>)
    ensures forall m :: m in r <==> m in rows && m.status == status
  {
    Filter(rows, HasStatus(status))
  }

  /** `findMatchesByUserId`: the matches where the user is donor or seeker,
      which is the union of the two single-role queries. */
  function FindMatchesByUserId(rows: seq<MatchRow>, userId: int): (r: seq<MatchRow>)
    ensures forall m :: m in r <==> m in FindByDonorId(rows, userId) || m in FindBySeekerId(rows, userId)
  {
    Filter(rows, (m: MatchRow) => DonorIs(m, userId) || SeekerIs(m, userId))
  }

  /** `findPendingMatchesByBloodGroup`: the pending matches of that blood
      group, which is the status query applied to the blood-group query. */
  function FindPendingMatchesByBloodGroup(rows: seq<MatchRow>, bloodGroup: string): (r: seq<MatchRow>)
    ensures forall m :: m in r <==> m in rows && m.bloodGroup == bloodGroup && m.status == "pending"
    ensures r == FindByStatus(FindByBloodGroup(rows, bloodGroup), "pending")
  {
    var pending := (m: MatchRow) => m.bloodGroup == bloodGroup && m.status == "pending";
    FilterFilter(rows, HasBloodGroup(bloodGroup), HasStatus("pending"), pending);
    Filter(rows, pending)
  }

  /** `findPendingMatchesByLocation`: both parties near `location`, and pending. */
  function FindPendingMatchesByLocation(rows: seq<MatchRow>, location: string): (r: seq<MatchRow>)
    ensures forall m :: m in r <==> m in rows && PendingNear(m, location)
  {
    Filter(rows, (m: MatchRow) => PendingNear(m, location))
  }

  // ---------------------------------------------------------------------------
  // ORDER BY compatibilityScore DESC

  /** The sort key; every row the ordered query sorts has a score. */
  function ScoreKey(m: MatchRow): int {
    match m.compatibilityScore
    case Some(s) => s
    case None => 0
  }

  predicate SortedByScoreDesc(s: seq<MatchRow>) {
    forall i, j :: 0 <= i < j < |s| ==> ScoreKey(s[i]) >= ScoreKey(s[j])
  }

  /** A row scoring at least every row of a sorted sequence may go in front. */
  lemma SortedCons(x: MatchRow, t: seq<MatchRow>)
    requires SortedByScoreDesc(t)
    requires forall j :: 0 <= j < |t| ==> ScoreKey(x) >= ScoreKey(t[j])
    ensures SortedByScoreDesc([x] + t)
  {
    var r := [x] + t;
    forall i, j | 0 <= i < j < |r|
      ensures ScoreKey(r[i]) >= ScoreKey(r[j])
    {
      assert r[j] == t[j - 1];
      if i > 0 {
        assert r[i] == t[i - 1];
      }
    }
  }

  /** Places `m` before the first row whose score does not exceed its own. */
  function InsertByScore(m: MatchRow, s: seq<MatchRow>): (r: seq<MatchRow>)
    requires SortedByScoreDesc(s)
    ensures SortedByScoreDesc(r)
    ensures multiset(r) == multiset(s) + multiset{m}
  {
    if s == [] || ScoreKey(m) >= ScoreKey(s[0]) then
      SortedCons(m, s);
      [m] + s
    else
      var rest := InsertByScore(m, s[1..]);
      assert s == [s[0]] + s[1..];
      forall j | 0 <= j < |rest|
        ensures ScoreKey(s[0]) >= ScoreKey(rest[j])
      {
        assert rest[j] in multiset(rest);
      }
      SortedCons(s[0], rest);
      [s[0]] + rest
  }

  /** Insertion sort by descending score. */
  function SortByScoreDesc(s: seq<MatchRow>): (r: seq<MatchRow>)
    ensures SortedByScoreDesc(r)
    ensures multiset(r) == multiset(s)
  {
    if s == [] then []
    else
      assert s == [s[0]] + s[1..];
      InsertByScore(s[0], SortByScoreDesc(s[1..]))
  }

  /** `findHighCompatibilityMatches`: every match scoring at least `minScore`,
      each as often as it is stored, highest score first. */
  function FindHighCompatibilityMatches(rows: seq<MatchRow>, minScore: int): (r: seq<MatchRow>)
    ensures SortedByScoreDesc(r)
    ensures forall m :: m in r <==> m in rows && ScoreAtLeast(m, minScore)
    ensures multiset(r) == multiset(Filter(rows, (m: MatchRow) => ScoreAtLeast(m, minScore)))
  {
    var qualifying := Filter(rows, (m: MatchRow) => ScoreAtLeast(m, minScore));
    var r := SortByScoreDesc(qualifying);
    forall m
      ensures m in r <==> m in qualifying
    {
      assert m in r <==> m in multiset(r);
      assert m in qualifying <==> m in multiset(qualifying);
    }
    r
  }

  // ---------------------------------------------------------------------------
  // The table

  /** Stored rows: every row has a generated key below the next one, and keys are distinct. */
  predicate WellFormed(rows: seq<MatchRow>, nextId: int) {
    && (forall i :: 0 <= i < |rows| ==> rows[i].id.Some? && rows[i].id.value < nextId)
    && (forall i, j :: 0 <= i < j < |rows| ==> rows[i].id != rows[j].id)
  }
  /** The rows in which the user is neither donor nor seeker. */
  function Uninvolved(userId: int): MatchRow -> bool {
    (m: MatchRow) => !DonorIs(m, userId) && !SeekerIs(m, userId)
  }

  /** The rows after the first are well formed, and none shares its key. */
  lemma WellFormedTail(rows: seq<MatchRow>, nextId: int)
    requires rows != [] && WellFormed(rows, nextId)
    ensures WellFormed(rows[1..], nextId)
    ensures forall x :: x in rows[1..] ==> x.id != rows[0].id
  {
    forall i, j | 0 <= i < j < |rows[1..]| ensures rows[1..][i].id != rows[1..][j].id {
      assert rows[1..][i] == rows[i + 1] && rows[1..][j] == rows[j + 1];
    }
    forall x | x in rows[1..] ensures x.id != rows[0].id {
      var k :| 0 <= k < |rows[1..]| && rows[1..][k] == x;
      assert rows[k + 1] == x;
    }
  }

  /** A row with a fresh generated key can go in front. */
  lemma WellFormedCons(x: MatchRow, tail: seq<MatchRow>, nextId: int)
    requires WellFormed(tail, nextId) && x.id.Some? && x.id.value < nextId
    requires forall y :: y in tail ==> y.id != x.id
    ensures WellFormed([x] + tail, nextId)
  {
    var s := [x] + tail;
    forall i, j | 0 <= i < j < |s| ensures s[i].id != s[j].id {
      assert s[j] == tail[j - 1] && tail[j - 1] in tail;
      if i > 0 {
        assert s[i] == tail[i - 1];
      }
    }
  }

  /** Dropping rows keeps every key generated and distinct. */
  lemma {:induction false} WellFormedFilter(rows: seq<MatchRow>, nextId: int, p: MatchRow -> bool)
    requires WellFormed(rows, nextId)
    ensures WellFormed(Filter(rows, p), nextId)
  {
    if rows != [] {
      WellFormedTail(rows, nextId);
      WellFormedFilter(rows[1..], nextId, p);
      if p(rows[0]) {
        WellFormedCons(rows[0], Filter(rows[1..], p), nextId);
      }
    }
  }



  /** The row a flush writes for an entity loaded from `before` and now in
      state `after`: the dirty check runs `@PreUpdate` only when a field changed. */
  function Flushed(after: MatchRow, before: MatchRow, now: Timestamp): (r: MatchRow)
    ensures after == before ==> r == before
    ensures after != before ==> r == after.(updatedAt := Some(now))
  {
    if after == before then after else after.(updatedAt := Some(now))
  }

  /** The matches table with its identity counter. */
  class MatchTable {
    var rows: seq<MatchRow>
    var nextId: int

    predicate Valid()
      reads this
    {
      WellFormed(rows, nextId)
    }

    constructor ()
      ensures rows == [] && nextId == 1 && Valid()
    {
      rows, nextId := [], 1;
    }

    /** `save` of a new entity (null id): `@PrePersist`, then the identity key. */
    method Insert(e: Match, now: Timestamp) returns (saved: MatchRow)
      requires Valid() && e.id.None?
      modifies this, e
      ensures saved == old(e.Row()).(id := Some(old(nextId)), createdAt := Some(now), updatedAt := Some(now))
      ensures e.Row() == saved
      ensures rows == old(rows) + [saved] && nextId == old(nextId) + 1
      ensures Valid()
    {
      e.OnCreate(now);
      e.SetId(Some(nextId));
      saved := e.Row();
      rows := rows + [saved];
      nextId := nextId + 1;
    }

    /** `save` of the entity loaded from row `k`, whose key is unchanged. */
    method Update(k: nat, e: Match, now: Timestamp) returns (saved: MatchRow)
      requires Valid() && k < |rows| && e.id == rows[k].id
      modifies this, e
      ensures saved == Flushed(old(e.Row()), old(rows[k]), now)
      ensures e.Row() == saved
      ensures rows == old(rows)[k := saved] && nextId == old(nextId)
      ensures Valid()
    {
      if e.Row() != rows[k] {
        e.OnUpdate(now);
      }
      saved := e.Row();
      rows := rows[k := saved];
    }

    /** The cascade of a user's removal: every match the user gives or
        receives goes with them. */
    method DeleteInvolving(userId: int)
      requires Valid()
      modifies this
      ensures rows == Filter(old(rows), Uninvolved(userId)) && nextId == old(nextId)
      ensures forall m :: m in rows <==> m in old(rows) && !DonorIs(m, userId) && !SeekerIs(m, userId)
      ensures Valid()
    {
      WellFormedFilter(rows, nextId, Uninvolved(userId));
      rows := Filter(rows, Uninvolved(userId));
    }

    /** `deleteById`: removes the row with that key; a missing key changes nothing. */
    method DeleteById(id: int)
      requires Valid()
      modifies this
      ensures rows == Filter(old(rows), LacksId(id)) && nextId == old(nextId)
      ensures Valid()
    {
      match IndexWhere(rows, HasId(id))
      case None =>
        FilterAll(rows, LacksId(id));
      case Some(k) =>
        FilterRemoveAt(rows, LacksId(id), k);
        rows := RemoveAt(rows, k);
    }
  }
}
