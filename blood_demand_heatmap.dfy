/** The live blood demand heatmap: a batch of twelve simulated requests,
    replaced on every refresh, the blood-type filter chosen by the user, the
    critical count shown in the header, and the urgency badge colours. The
    random draws of a batch are parameters. */
module BloodDemandHeatmap {
  import opened Common

  datatype DemandItem = DemandItem(
    location: string,
    bloodType: string,
    urgency: string,
    unitsNeeded: int,
    timePosted: string,
    hospitalName: string)

  const Locations: seq<string> := ["Downtown", "North Side", "East End", "West Hills", "Central"]
  const BloodTypes: seq<string> := ["A+", "A-", "B+", "B-", "O+", "O-", "AB+", "AB-"]
  const Urgencies: seq<string> := ["critical", "high", "medium", "low"]
  const Hospitals: seq<string> := ["General Hospital", "Emergency Center", "Medical Center", "Regional Hospital", "Community Hospital"]
  const BatchSize := 12

  /** `Math.floor(r * n)` for a draw `r` in [0, 1): an index into a list of `n`. */
  function Pick(r: real, n: nat): (i: int)
    requires 0.0 <= r < 1.0 && n > 0
    ensures 0 <= i < n
  {
    var x := r * n as real;
    assert 0.0 <= x < n as real by {
      assert r * n as real < 1.0 * n as real;
    }
    x.Floor
  }

  /** The six draws used for one generated entry. */
  datatype Draws = Draws(location: real, bloodType: real, urgency: real, units: real, minutes: real, hospital: real)

  predicate InRange(d: Draws) {
    && 0.0 <= d.location < 1.0 && 0.0 <= d.bloodType < 1.0 && 0.0 <= d.urgency < 1.0
    && 0.0 <= d.units < 1.0 && 0.0 <= d.minutes < 1.0 && 0.0 <= d.hospital < 1.0
  }

  function MakeItem(d: Draws): (item: DemandItem)
    requires InRange(d)
    ensures item.location in Locations && item.bloodType in BloodTypes
    ensures item.urgency in Urgencies && item.hospitalName in Hospitals
    ensures 1 <= item.unitsNeeded <= 10
  {
    DemandItem(
      Locations[Pick(d.location, |Locations|)],
      BloodTypes[Pick(d.bloodType, |BloodTypes|)],
      Urgencies[Pick(d.urgency, |Urgencies|)],
      Pick(d.units, 10) + 1,
      IntToString(Pick(d.minutes, 60)) + " min ago",
      Hospitals[Pick(d.hospital, |Hospitals|)])
  }

  /** `generateMockData`: twelve entries, entry `i` built from draws `i`. */
  function GenerateMockData(draws: seq<Draws>): (batch: seq<DemandItem>)
    requires |draws| == BatchSize && forall i :: 0 <= i < |draws| ==> InRange(draws[i])
    ensures |batch| == BatchSize
    ensures forall i :: 0 <= i < |batch| ==> batch[i] == MakeItem(draws[i])
    ensures forall x :: x in batch ==> x.bloodType in BloodTypes && x.urgency in Urgencies
  {
    seq(BatchSize, i requires 0 <= i < BatchSize => MakeItem(draws[i]))
  }

  /** The entries shown for the selected filter: all of them for "all",
      otherwise those with that blood type, in their order. */
  function FilteredData(data: seq<DemandItem>, selected: string): (r: seq<DemandItem>)
    ensures selected == "all" ==> r == data
    ensures selected != "all" ==> forall x :: x in r <==> x in data && x.bloodType == selected
    ensures selected != "all" ==> forall x :: multiset(r)[x] == if x.bloodType == selected then multiset(data)[x] else 0
  {
    if selected == "all" then data
    else
      var r := Filter(data, (item: DemandItem) => item.bloodType == selected);
      FilterCounts(data, selected);
      r
  }

  /** Filtering by blood type keeps every matching entry as often as it
      occurs and drops the others. */
  lemma {:induction false} FilterCounts(data: seq<DemandItem>, selected: string)
    ensures forall x ::
      (multiset(Filter(data, (item: DemandItem) => item.bloodType == selected))[x]
       == if x.bloodType == selected then multiset(data)[x] else 0)
  {
    if data != [] {
      FilterCounts(data[1..], selected);
      assert data == [data[0]] + data[1..];
      assert multiset(data) == multiset([data[0]]) + multiset(data[1..]);
    }
  }

  /** The number of critical entries in the whole batch. */
  function CriticalCount(data: seq<DemandItem>): (n: nat)
    ensures n <= |data|
    ensures n == 0 <==> forall x :: x in data ==> x.urgency != "critical"
  {
    var critical := Filter(data, (item: DemandItem) => item.urgency == "critical");
    assert critical != [] ==> critical[0] in critical;
    |critical|
  }

  /** The filter keeps entries in batch order: it distributes over
      concatenation and keeps a single entry iff the filter admits it. */
  lemma FilteredDataKeepsOrder(a: seq<DemandItem>, b: seq<DemandItem>, x: DemandItem, selected: string)
    ensures FilteredData(a + b, selected) == FilteredData(a, selected) + FilteredData(b, selected)
    ensures FilteredData([x], selected) == if selected == "all" || x.bloodType == selected then [x] else []
  {
    if selected != "all" {
      var p := (item: DemandItem) => item.bloodType == selected;
      FilterAppend(a, b, p);
      assert [x][1..] == [];
    }
  }

  /** The header counts each critical entry once: the count adds up over
      concatenation, and a single entry counts 1 iff it is critical. */
  lemma CriticalCountAdds(a: seq<DemandItem>, b: seq<DemandItem>, x: DemandItem)
    ensures CriticalCount(a + b) == CriticalCount(a) + CriticalCount(b)
    ensures CriticalCount([x]) == if x.urgency == "critical" then 1 else 0
  {
    var c := (item: DemandItem) => item.urgency == "critical";
    FilterAppend(a, b, c);
    assert [x][1..] == [];
  }

  /** The header counts over the unfiltered batch: it is never below the
      count over what a filter shows. */
  lemma CriticalCountIgnoresFilter(data: seq<DemandItem>, selected: string)
    ensures CriticalCount(FilteredData(data, selected)) <= CriticalCount(data)
  {
    if selected != "all" {
      var p := (item: DemandItem) => item.bloodType == selected;
      var c := (item: DemandItem) => item.urgency == "critical";
      var pc := (item: DemandItem) => item.bloodType == selected && item.urgency == "critical";
      var cp := (item: DemandItem) => item.urgency == "critical" && item.bloodType == selected;
      FilterFilter(data, p, c, pc);
      FilterFilter(data, c, p, cp);
      FilterSame(data, pc, cp);
    }
  }

  /** The badge classes for the four urgencies, with grey for anything else. */
  function UrgencyColor(urgency: string): (r: string)
    ensures urgency !in Urgencies ==> r == "bg-gray-600 text-white"
  {
    match urgency
    case "critical" => "bg-red-600 text-white animate-pulse"
    case "high" => "bg-orange-600 text-white"
    case "medium" => "bg-yellow-600 text-white"
    case "low" => "bg-green-600 text-white"
    case _ => "bg-gray-600 text-white"
  }

  /** Each urgency has its own colour, and none of them is the grey default. */
  lemma UrgencyColorsDistinct(a: string, b: string)
    requires a in Urgencies && b in Urgencies && a != b
    ensures UrgencyColor(a) != UrgencyColor(b) && UrgencyColor(a) != "bg-gray-600 text-white"
  {
  }

  class Heatmap {
    var demandData: seq<DemandItem>
    var selectedBloodType: string

    constructor ()
      ensures demandData == [] && selectedBloodType == "all"
    {
      demandData := [];
      selectedBloodType := "all";
    }

    /** The effect on mount and every 30 seconds: a new batch replaces the old. */
    method Refresh(draws: seq<Draws>)
      requires |draws| == BatchSize && forall i :: 0 <= i < |draws| ==> InRange(draws[i])
      modifies this
      ensures demandData == GenerateMockData(draws) && |demandData| == BatchSize
      ensures selectedBloodType == old(selectedBloodType)
    {
      demandData := GenerateMockData(draws);
    }

    /** A click on a blood-type button. */
    method Select(bloodType: string)
      modifies this
      ensures selectedBloodType == bloodType && demandData == old(demandData)
    {
      selectedBloodType := bloodType;
    }

    function Shown(): (r: seq<DemandItem>)
      reads this
      ensures r == FilteredData(demandData, selectedBloodType)
      ensures selectedBloodType == "all" ==> r == demandData
      ensures selectedBloodType != "all" ==>
        forall x :: x in r <==> x in demandData && x.bloodType == selectedBloodType
    {
      FilteredData(demandData, selectedBloodType)
    }

    function Critical(): (n: nat)
      reads this
      ensures n == CriticalCount(demandData) && n <= |demandData|
    {
      CriticalCount(demandData)
    }
  }
}
