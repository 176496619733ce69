/** The donor trust score card: a score out of 100 built from the donor's
    statistics, and the tier that score falls in. Numbers are JavaScript
    doubles in the source; here they are exact reals. */
module DonorTrustScore {

  datatype DonorStats = DonorStats(
    totalDonations: real,
    responseRate: real,
    reliability: real,
    lastDonation: string,
    isVerified: bool)

  function Min(a: real, b: real): real {
    if a <= b then a else b
  }

  /** `Math.round`: the nearest integer, halves rounded up. */
  function Round(x: real): (r: int)
    ensures r as real <= x + 0.5 < r as real + 1.0
  {
    (x + 0.5).Floor
  }

  lemma RoundMonotone(x: real, y: real)
    requires x <= y
    ensures Round(x) <= Round(y)
  {
  }

  /** The donation component: 8 points a donation, at most 40. */
  function DonationPoints(totalDonations: real): (r: real)
    ensures r <= 40.0
    ensures totalDonations <= 5.0 ==> r == 8.0 * totalDonations
    ensures totalDonations >= 5.0 ==> r == 40.0
  {
    Min(totalDonations * 8.0, 40.0)
  }

  /** The score before rounding: donations, 30% of the response rate, 20% of
      the reliability, and 10 for a verified donor. */
  function RawScore(s: DonorStats): real {
    DonationPoints(s.totalDonations) + s.responseRate * 0.3 + s.reliability * 0.2
    + (if s.isVerified then 10.0 else 0.0)
  }

  /** `calculateTrustScore`: the rounded raw score, capped at 100. */
  function TrustScore(s: DonorStats): (r: int)
    ensures r <= 100
    ensures s.totalDonations >= 0.0 && s.responseRate >= 0.0 && s.reliability >= 0.0 ==> r >= 0
    ensures r < 100 ==> r as real <= RawScore(s) + 0.5 < r as real + 1.0
    ensures r == 100 <==> RawScore(s) >= 99.5
  {
    var rounded := Round(RawScore(s));
    if rounded <= 100 then rounded else 100
  }

  /** Verification is worth exactly 10 raw points. */
  lemma VerificationBonus(s: DonorStats)
    ensures RawScore(s.(isVerified := true)) == RawScore(s.(isVerified := false)) + 10.0
  {
  }

  /** Better statistics never give a lower score. */
  lemma TrustScoreMonotone(a: DonorStats, b: DonorStats)
    requires a.totalDonations <= b.totalDonations && a.responseRate <= b.responseRate
    requires a.reliability <= b.reliability && (a.isVerified ==> b.isVerified)
    ensures TrustScore(a) <= TrustScore(b)
  {
    assert DonationPoints(a.totalDonations) <= DonationPoints(b.totalDonations);
    assert RawScore(a) <= RawScore(b);
    RoundMonotone(RawScore(a), RawScore(b));
  }

  /** With percentages up to 100 the raw score is at most 100, so the cap
      only matters for rates above 100; a verified donor with five donations
      and perfect rates scores exactly 100. */
  lemma PerfectDonor(s: DonorStats)
    requires s.totalDonations >= 5.0 && s.responseRate == 100.0 && s.reliability == 100.0 && s.isVerified
    ensures TrustScore(s) == 100
  {
    assert RawScore(s) == 100.0;
  }

  datatype Tier = NewDonor | Bronze | Silver | Gold | Platinum

  function Rank(t: Tier): nat {
    match t
    case NewDonor => 0
    case Bronze => 1
    case Silver => 2
    case Gold => 3
    case Platinum => 4
  }

  /** `getTrustLevel`: the first threshold the score reaches. */
  function TrustLevel(score: int): (t: Tier)
    ensures t == Platinum <==> score >= 90
    ensures t == Gold <==> 75 <= score < 90
    ensures t == Silver <==> 60 <= score < 75
    ensures t == Bronze <==> 40 <= score < 60
    ensures t == NewDonor <==> score < 40
  {
    if score >= 90 then Platinum
    else if score >= 75 then Gold
    else if score >= 60 then Silver
    else if score >= 40 then Bronze
    else NewDonor
  }

  /** A higher score never gives a lower tier. */
  lemma TrustLevelMonotone(a: int, b: int)
    requires a <= b
    ensures Rank(TrustLevel(a)) <= Rank(TrustLevel(b))
  {
  }

  /** The label and badge colour shown for each tier. */
  function Label(t: Tier): (r: (string, string)) {
    match t
    case Platinum => ("Platinum Donor", "bg-purple-600")
    case Gold => ("Gold Donor", "bg-yellow-600")
    case Silver => ("Silver Donor", "bg-gray-500")
    case Bronze => ("Bronze Donor", "bg-orange-600")
    case NewDonor => ("New Donor", "bg-blue-600")
  }

  /** Different tiers are shown with different labels and colours. */
  lemma LabelsDistinct(a: Tier, b: Tier)
    requires a != b
    ensures Label(a).0 != Label(b).0 && Label(a).1 != Label(b).1
  {
  }
}
