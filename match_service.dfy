/** `MatchService`: the compatibility score, the distance rule, automatic
    matching of available seekers with available donors, the field-copying
    update and the location lookup. */
module MatchService {
  import opened Common
  import opened UserEntity
  import opened MatchEntity
  import opened MatchRepository
  import UserRepository

  // ---------------------------------------------------------------------------
  // Scoring

  /** The location test: either lower-cased location contains the other. */
  predicate Near(location1: string, location2: string) {
    ContainsIgnoreCase(location1, location2) || ContainsIgnoreCase(location2, location1)
  }

  function BloodGroupPoints(donor: UserRow, seeker: UserRow): int {
    if donor.bloodGroup == seeker.bloodGroup then 50 else 0
  }

  function ProximityPoints(donor: UserRow, seeker: UserRow): int {
    if Near(donor.location, seeker.location) then 30 else 0
  }

  /** Unboxing `getIsAvailable()` needs a non-null flag. */
  function AvailabilityPoints(donor: UserRow): int
    requires donor.isAvailable.Some?
  {
    if donor.isAvailable.value then 20 else 0
  }

  /** `calculateCompatibilityScore`: the three terms, capped at 100. The cap
      never binds, and the score reaches 50 exactly when the blood groups
      agree or the donor is both near and available. */
  function CompatibilityScore(donor: UserRow, seeker: UserRow): (r: int)
    requires donor.isAvailable.Some?
    ensures 0 <= r <= 100
    ensures r == BloodGroupPoints(donor, seeker) + ProximityPoints(donor, seeker) + AvailabilityPoints(donor)
    ensures r >= 50 <==>
      donor.bloodGroup == seeker.bloodGroup || (Near(donor.location, seeker.location) && donor.isAvailable.value)
  {
    var score := BloodGroupPoints(donor, seeker) + ProximityPoints(donor, seeker) + AvailabilityPoints(donor);
    if score < 100 then score else 100
  }

  /** The location term is symmetric: swapping the two locations leaves the score unchanged. */
  lemma ScoreSymmetricInLocation(donor: UserRow, seeker: UserRow)
    requires donor.isAvailable.Some?
    ensures CompatibilityScore(donor, seeker)
         == CompatibilityScore(donor.(location := seeker.location), seeker.(location := donor.location))
  {
  }

  /** `calculateDistance`: zero exactly when the locations are equal ignoring
      case; otherwise `random * 50 + 1`, which lies in [1, 51) for a draw in [0, 1). */
  function CalculateDistance(location1: string, location2: string, random: real): (r: real)
    requires 0.0 <= random < 1.0
    ensures r == 0.0 <==> EqualsIgnoreCase(location1, location2)
    ensures !EqualsIgnoreCase(location1, location2) ==> 1.0 <= r < 51.0
  {
    if EqualsIgnoreCase(location1, location2) then 0.0 else random * 50.0 + 1.0
  }

  // ---------------------------------------------------------------------------
  // Automatic matching: the specification of the nested loop

  /** A donor/seeker pair that passed the threshold, with its score. */
  datatype Pairing = Pairing(donor: UserRow, seeker: UserRow, score: int)

  predicate AllHaveFlag(users: seq<UserRow>) {
    forall u :: u in users ==> u.isAvailable.Some?
  }

  /** The pairs the inner loop saves for one seeker, in donor order. */
  function SeekerPairs(seeker: UserRow, donors: seq<UserRow>): (r: seq<Pairing>)
    requires AllHaveFlag(donors)
    ensures |r| <= |donors|
    ensures forall p :: p in r ==>
      && p.seeker == seeker && p.donor in donors
      && p.score == CompatibilityScore(p.donor, seeker) && p.score >= 50
    ensures forall d :: d in donors && CompatibilityScore(d, seeker) >= 50 ==>
      Pairing(d, seeker, CompatibilityScore(d, seeker)) in r
  {
    if donors == [] then []
    else
      var d := donors[|donors| - 1];
      var score := CompatibilityScore(d, seeker);
      SeekerPairs(seeker, donors[..|donors| - 1]) + (if score >= 50 then [Pairing(d, seeker, score)] else [])
  }

  /** The pairs the nested loop saves: seeker-major, donor-minor. */
  function Pairings(seekers: seq<UserRow>, donors: seq<UserRow>): (r: seq<Pairing>)
    requires AllHaveFlag(donors)
    ensures forall p :: p in r ==>
      && p.seeker in seekers && p.donor in donors
      && p.score == CompatibilityScore(p.donor, p.seeker) && p.score >= 50
    ensures forall s, d :: s in seekers && d in donors && CompatibilityScore(d, s) >= 50 ==>
      Pairing(d, s, CompatibilityScore(d, s)) in r
  {
    if seekers == [] then []
    else
      var prefix := seekers[..|seekers| - 1];
      assert seekers == prefix + [seekers[|seekers| - 1]];
      Pairings(prefix, donors) + SeekerPairs(seekers[|seekers| - 1], donors)
  }

  /** The match a saved pair becomes, with the `k`-th identity key. */
  function AutoMatchRow(p: Pairing, bloodGroup: string, id: int, now: Timestamp,
                        random: (UserRow, UserRow) -> real): MatchRow
    requires 0.0 <= random(p.donor, p.seeker) < 1.0
  {
    BlankMatch().(id := Some(id), donor := Some(p.donor), seeker := Some(p.seeker), bloodGroup := bloodGroup,
                  compatibilityScore := Some(p.score),
                  distance := Some(CalculateDistance(p.donor.location, p.seeker.location, random(p.donor, p.seeker))),
                  createdAt := Some(now), updatedAt := Some(now))
  }

  ghost predicate DrawsInRange(random: (UserRow, UserRow) -> real) {
    forall d, s :: 0.0 <= random(d, s) < 1.0
  }

  /** The rows saved for `ps`, keyed consecutively from `firstId`. */
  function AutoMatchRows(ps: seq<Pairing>, bloodGroup: string, firstId: int, now: Timestamp,
                         random: (UserRow, UserRow) -> real): (r: seq<MatchRow>)
    requires DrawsInRange(random)
    ensures |r| == |ps|
    ensures forall k :: 0 <= k < |ps| ==> r[k] == AutoMatchRow(ps[k], bloodGroup, firstId + k, now, random)
  {
    seq(|ps|, k requires 0 <= k < |ps| => AutoMatchRow(ps[k], bloodGroup, firstId + k, now, random))
  }

  /** Saving one more pair appends its row. */
  lemma AutoMatchRowsSnoc(ps: seq<Pairing>, p: Pairing, bloodGroup: string, firstId: int, now: Timestamp,
                          random: (UserRow, UserRow) -> real)
    requires DrawsInRange(random)
    ensures AutoMatchRows(ps + [p], bloodGroup, firstId, now, random)
         == AutoMatchRows(ps, bloodGroup, firstId, now, random) + [AutoMatchRow(p, bloodGroup, firstId + |ps|, now, random)]
  {
    var a := AutoMatchRows(ps + [p], bloodGroup, firstId, now, random);
    var b := AutoMatchRows(ps, bloodGroup, firstId, now, random) + [AutoMatchRow(p, bloodGroup, firstId + |ps|, now, random)];
    assert |a| == |b|;
    forall k | 0 <= k < |a|
      ensures a[k] == b[k]
    {
      if k < |ps| {
        assert (ps + [p])[k] == ps[k];
      }
    }
  }

  /** The rows for two runs of pairs are the rows for the first run followed
      by those for the second, keyed on from where the first stopped. */
  lemma AutoMatchRowsAppend(xs: seq<Pairing>, ys: seq<Pairing>, bloodGroup: string, firstId: int, now: Timestamp,
                            random: (UserRow, UserRow) -> real)
    requires DrawsInRange(random)
    ensures AutoMatchRows(xs + ys, bloodGroup, firstId, now, random)
         == AutoMatchRows(xs, bloodGroup, firstId, now, random) + AutoMatchRows(ys, bloodGroup, firstId + |xs|, now, random)
  {
    var a := AutoMatchRows(xs + ys, bloodGroup, firstId, now, random);
    var b := AutoMatchRows(xs, bloodGroup, firstId, now, random) + AutoMatchRows(ys, bloodGroup, firstId + |xs|, now, random);
    assert |a| == |b|;
    forall k | 0 <= k < |a|
      ensures a[k] == b[k]
    {
      if k < |xs| {
        assert (xs + ys)[k] == xs[k];
      } else {
        assert (xs + ys)[k] == ys[k - |xs|];
      }
    }
  }

  /** The inner loop's invariant survives saving one more pair. */
  lemma SavedStep(rows: seq<MatchRow>, prev: seq<MatchRow>, start: seq<MatchRow>, sofar: seq<Pairing>, p: Pairing,
                  bloodGroup: string, startId: int, id: int, now: Timestamp, random: (UserRow, UserRow) -> real)
    requires DrawsInRange(random) && id == startId + |sofar|
    requires prev == start + AutoMatchRows(sofar, bloodGroup, startId, now, random)
    requires rows == prev + [AutoMatchRow(p, bloodGroup, id, now, random)]
    ensures rows == start + AutoMatchRows(sofar + [p], bloodGroup, startId, now, random)
  {
    AutoMatchRowsSnoc(sofar, p, bloodGroup, startId, now, random);
  }

  /** The outer loop's invariant survives one seeker's pairs. */
  lemma SeekerDoneStep(rows: seq<MatchRow>, before: seq<MatchRow>, start: seq<MatchRow>, done: seq<Pairing>,
                       more: seq<Pairing>, bloodGroup: string, firstId: int, startId: int, now: Timestamp,
                       random: (UserRow, UserRow) -> real)
    requires DrawsInRange(random) && startId == firstId + |done|
    requires start == before + AutoMatchRows(done, bloodGroup, firstId, now, random)
    requires rows == start + AutoMatchRows(more, bloodGroup, startId, now, random)
    ensures rows == before + AutoMatchRows(done + more, bloodGroup, firstId, now, random)
  {
    AutoMatchRowsAppend(done, more, bloodGroup, firstId, now, random);
  }

  /** The inner loop's step: donor `j` is paired with the seeker exactly when it scores at least 50. */
  lemma SeekerPairsSnoc(seeker: UserRow, donors: seq<UserRow>, j: nat)
    requires AllHaveFlag(donors) && j < |donors|
    ensures AllHaveFlag(donors[..j]) && AllHaveFlag(donors[..j + 1])
    ensures SeekerPairs(seeker, donors[..j + 1])
         == SeekerPairs(seeker, donors[..j])
            + (if CompatibilityScore(donors[j], seeker) >= 50
               then [Pairing(donors[j], seeker, CompatibilityScore(donors[j], seeker))] else [])
  {
    assert forall d :: d in donors[..j + 1] ==> d in donors;
    assert donors[..j + 1][..j] == donors[..j];
  }

  /** The outer loop's step: seeker `i` contributes its pairs after those of the earlier seekers. */
  lemma PairingsSnoc(seekers: seq<UserRow>, donors: seq<UserRow>, i: nat)
    requires AllHaveFlag(donors) && i < |seekers|
    ensures Pairings(seekers[..i + 1], donors) == Pairings(seekers[..i], donors) + SeekerPairs(seekers[i], donors)
  {
    assert seekers[..i + 1][..i] == seekers[..i];
  }

  /** When every donor is available and shares the seeker's blood group, every
      pair scores at least 70 and all of them are saved. */
  lemma {:induction false} SeekerPairsAll(seeker: UserRow, donors: seq<UserRow>)
    requires forall d :: d in donors ==> d.isAvailable == Some(true) && d.bloodGroup == seeker.bloodGroup
    ensures |SeekerPairs(seeker, donors)| == |donors|
    ensures forall p :: p in SeekerPairs(seeker, donors) ==> p.score >= 70
  {
    if donors != [] {
      var prefix := donors[..|donors| - 1];
      assert forall d :: d in prefix ==> d in donors;
      SeekerPairsAll(seeker, prefix);
    }
  }

  /** Donors and seekers drawn from the same blood group, with available
      donors, give exactly |seekers| * |donors| pairs. */
  lemma {:induction false} PairingsAll(seekers: seq<UserRow>, donors: seq<UserRow>, bloodGroup: string)
    requires forall d :: d in donors ==> d.isAvailable == Some(true) && d.bloodGroup == bloodGroup
    requires forall s :: s in seekers ==> s.bloodGroup == bloodGroup
    ensures |Pairings(seekers, donors)| == |seekers| * |donors|
    ensures forall p :: p in Pairings(seekers, donors) ==> p.score >= 70
  {
    if seekers != [] {
      var prefix, last := seekers[..|seekers| - 1], seekers[|seekers| - 1];
      assert forall s :: s in prefix ==> s in seekers;
      PairingsAll(prefix, donors, bloodGroup);
      SeekerPairsAll(last, donors);
      var all, head, tail := Pairings(seekers, donors), Pairings(prefix, donors), SeekerPairs(last, donors);
      assert all == head + tail;
      MulStep(|prefix|, |donors|);
      forall p | p in all
        ensures p.score >= 70
      {
        if p !in head {
          assert p in tail;
        }
      }
    }
  }

  /** One more row of `m` adds `m` to the product (kept apart: nonlinear
      arithmetic is cheap here and costly inside the lemma above). */
  lemma MulStep(n: nat, m: nat)
    ensures (n + 1) * m == n * m + m
  {
  }

  // ---------------------------------------------------------------------------
  // The service

  /** The row `updateMatch` builds: the four copied fields come from the
      details; key, donor, seeker and both timestamps stay as stored. */
  function CopyDetails(stored: MatchRow, details: MatchRow): (r: MatchRow)
    ensures r == details.(id := stored.id, donor := stored.donor, seeker := stored.seeker,
                          createdAt := stored.createdAt, updatedAt := stored.updatedAt)
  {
    stored.(bloodGroup := details.bloodGroup, distance := details.distance,
            compatibilityScore := details.compatibilityScore, status := details.status)
  }

  class MatchService {
    const matches: MatchTable
    const users: UserRepository.UserTable

    constructor (matches: MatchTable, users: UserRepository.UserTable)
      ensures this.matches == matches && this.users == users
    {
      this.matches := matches;
      this.users := users;
    }

    predicate Valid()
      reads this, matches, users
    {
      matches.Valid() && users.Valid()
    }

    /** `updateMatch`: a missing key throws "Match not found"; otherwise the
        stored row gets the four copied fields, keeps its key, donor and
        seeker, and every other row is left as it was. */
    method UpdateMatch(id: int, details: MatchRow, now: Timestamp) returns (r: Result<MatchRow>)
      requires Valid()
      modifies matches
      ensures Valid() && matches.nextId == old(matches.nextId)
      ensures old(FindById(matches.rows, id)).None? ==>
        r == Err("Match not found") && matches.rows == old(matches.rows)
      ensures old(FindById(matches.rows, id)).Some? ==>
        var stored := old(FindById(matches.rows, id)).value;
        && r == Ok(Flushed(CopyDetails(stored, details), stored, now))
        && r.value.id == Some(id) && r.value.donor == stored.donor && r.value.seeker == stored.seeker
      ensures |matches.rows| == |old(matches.rows)|
      ensures forall i :: 0 <= i < |matches.rows| ==>
        matches.rows[i] == (if old(matches.rows[i]).id == Some(id) then r.value else old(matches.rows[i]))
    {
      var found := IndexWhere(matches.rows, HasId(id));
      if found.None? {
        return Err("Match not found");
      }
      var k := found.value;
      var stored := matches.rows[k];
      var e := new Match.Load(stored);
      e.SetBloodGroup(details.bloodGroup);
      e.SetDistance(details.distance);
      e.SetCompatibilityScore(details.compatibilityScore);
      e.SetStatus(details.status);
      var saved := matches.Update(k, e, now);
      r := Ok(saved);
    }

    /** `findPotentialMatches`: the blood group is ignored; the result is the
        pending matches whose donor and seeker are both near `location`. */
    function FindPotentialMatches(bloodGroup: string, location: string): (r: seq<MatchRow>)
      reads this, matches
      ensures forall m :: m in r <==> m in matches.rows && PendingNear(m, location)
    {
      FindPendingMatchesByLocation(matches.rows, location)
    }

    /** One iteration's `new Match()`, its setters and `matchRepository.save`. */
    method SaveAutoMatch(p: Pairing, bloodGroup: string, now: Timestamp, random: (UserRow, UserRow) -> real)
      requires matches.Valid() && DrawsInRange(random)
      modifies matches
      ensures matches.Valid()
      ensures matches.rows == old(matches.rows) + [AutoMatchRow(p, bloodGroup, old(matches.nextId), now, random)]
      ensures matches.nextId == old(matches.nextId) + 1
    {
      var m := new Match();
      m.SetDonor(Some(p.donor));
      m.SetSeeker(Some(p.seeker));
      m.SetBloodGroup(bloodGroup);
      m.SetCompatibilityScore(Some(p.score));
      m.SetDistance(Some(CalculateDistance(p.donor.location, p.seeker.location, random(p.donor, p.seeker))));
      var saved := matches.Insert(m, now);
    }

    /** One pass of the inner loop of `createAutomaticMatches`: donor `j`
        is paired with the seeker and saved when the pair scores at least 50. */
    method SaveIfCompatible(seeker: UserRow, donors: seq<UserRow>, j: nat, bloodGroup: string, now: Timestamp,
                            random: (UserRow, UserRow) -> real, ghost start: seq<MatchRow>, ghost startId: int)
      requires matches.Valid() && DrawsInRange(random) && AllHaveFlag(donors) && j < |donors|
      requires AllHaveFlag(donors[..j])
      requires matches.rows == start + AutoMatchRows(SeekerPairs(seeker, donors[..j]), bloodGroup, startId, now, random)
      requires matches.nextId == startId + |SeekerPairs(seeker, donors[..j])|
      modifies matches
      ensures matches.Valid() && AllHaveFlag(donors[..j + 1])
      ensures matches.rows == start + AutoMatchRows(SeekerPairs(seeker, donors[..j + 1]), bloodGroup, startId, now, random)
      ensures matches.nextId == startId + |SeekerPairs(seeker, donors[..j + 1])|
    {
      var donor := donors[j];
      var score := CompatibilityScore(donor, seeker);
      SeekerPairsSnoc(seeker, donors, j);
      if score >= 50 {
        ghost var prev, id := matches.rows, matches.nextId;
        SaveAutoMatch(Pairing(donor, seeker, score), bloodGroup, now, random);
        SavedStep(matches.rows, prev, start, SeekerPairs(seeker, donors[..j]), Pairing(donor, seeker, score),
                  bloodGroup, startId, id, now, random);
      }
    }

    /** The inner loop of `createAutomaticMatches`: one seeker against every
        donor in turn, saving the pairs that score at least 50. */
    method SaveSeekerPairs(seeker: UserRow, donors: seq<UserRow>, bloodGroup: string, now: Timestamp,
                           random: (UserRow, UserRow) -> real)
      requires matches.Valid() && DrawsInRange(random) && AllHaveFlag(donors)
      modifies matches
      ensures matches.Valid()
      ensures matches.rows == old(matches.rows) + AutoMatchRows(SeekerPairs(seeker, donors), bloodGroup, old(matches.nextId), now, random)
      ensures matches.nextId == old(matches.nextId) + |SeekerPairs(seeker, donors)|
    {
      ghost var start, startId := matches.rows, matches.nextId;
      assert start + AutoMatchRows([], bloodGroup, startId, now, random) == start;
      for j := 0 to |donors|
        invariant matches.Valid()
        invariant AllHaveFlag(donors[..j])
        invariant matches.rows == start + AutoMatchRows(SeekerPairs(seeker, donors[..j]), bloodGroup, startId, now, random)
        invariant matches.nextId == startId + |SeekerPairs(seeker, donors[..j])|
      {
        SaveIfCompatible(seeker, donors, j, bloodGroup, now, random, start, startId);
      }
      assert donors[..|donors|] == donors;
    }

    /** `createAutomaticMatches`: for every available seeker and then every
        available donor of `bloodGroup`, a pair scoring at least 50 is saved
        as a pending match; `random` stands for the `Math.random` draws. */
    method CreateAutomaticMatches(bloodGroup: string, now: Timestamp, random: (UserRow, UserRow) -> real)
      requires Valid() && DrawsInRange(random)
      modifies matches
      ensures Valid()
      ensures
        var donors := UserRepository.FindAvailableUsersByBloodGroupAndType(users.rows, bloodGroup, "donor");
        var seekers := UserRepository.FindAvailableUsersByBloodGroupAndType(users.rows, bloodGroup, "seeker");
        && matches.rows == old(matches.rows) + AutoMatchRows(Pairings(seekers, donors), bloodGroup, old(matches.nextId), now, random)
        && |matches.rows| == |old(matches.rows)| + |seekers| * |donors|
    {
      var donors := UserRepository.FindAvailableUsersByBloodGroupAndType(users.rows, bloodGroup, "donor");
      var seekers := UserRepository.FindAvailableUsersByBloodGroupAndType(users.rows, bloodGroup, "seeker");
      assert AllHaveFlag(donors);
      ghost var before, firstId := matches.rows, matches.nextId;
      for i := 0 to |seekers|
        invariant matches.Valid()
        invariant matches.rows == before + AutoMatchRows(Pairings(seekers[..i], donors), bloodGroup, firstId, now, random)
        invariant matches.nextId == firstId + |Pairings(seekers[..i], donors)|
      {
        var seeker := seekers[i];
        ghost var start, startId := matches.rows, matches.nextId;
        SaveSeekerPairs(seeker, donors, bloodGroup, now, random);
        PairingsSnoc(seekers, donors, i);
        SeekerDoneStep(matches.rows, before, start, Pairings(seekers[..i], donors), SeekerPairs(seeker, donors),
                       bloodGroup, firstId, startId, now, random);
      }
      assert seekers[..|seekers|] == seekers;
      PairingsAll(seekers, donors, bloodGroup);
    }
  }
}
