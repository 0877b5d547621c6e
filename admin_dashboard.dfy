/**
 * The admin dashboard's blood-group aggregation: count the fetched donors per
 * blood group, classify each group against its minimum, and derive totals.
 * Each donor is represented by the value of its bloodGroup field.
 */
module AdminDashboard {
  import opened Records

  /** One group's entry in the working dictionary. */
  datatype Bucket = Bucket(count: nat, minRequired: nat)

  /** The dictionary's keys in their declaration order, which is the order of the output. */
  const KeyOrder: seq<string> := ["A+", "A-", "B+", "B-", "O+", "O-", "AB+", "AB-"]

  /** The dictionary before counting: every count 0, O+ needs 10, O- 8, the rest 5. */
  const InitialData: map<string, Bucket> := map[
    "A+" := Bucket(0, 5), "A-" := Bucket(0, 5), "B+" := Bucket(0, 5), "B-" := Bucket(0, 5),
    "O+" := Bucket(0, 10), "O-" := Bucket(0, 8), "AB+" := Bucket(0, 5), "AB-" := Bucket(0, 5)]

  /** How many donors carry this bloodGroup value. */
  function CountOf(groups: seq<string>, key: string): (n: nat)
    ensures n == multiset(groups)[key]
    ensures n <= |groups|
  {
    if groups == [] then 0
    else
      var init := groups[..|groups| - 1];
      assert groups == init + [groups[|groups| - 1]];
      CountOf(init, key) + (if groups[|groups| - 1] == key then 1 else 0)
  }

  /** How many donors carry a value that is not one of the dictionary's keys. */
  function Unrecognised(groups: seq<string>): (n: nat)
    ensures n <= |groups|
    ensures n == 0 <==> forall i :: 0 <= i < |groups| ==> groups[i] in InitialData
    ensures n == |groups| <==> forall i :: 0 <= i < |groups| ==> groups[i] !in InitialData
  {
    if groups == [] then 0
    else
      var init := groups[..|groups| - 1];
      assert forall i :: 0 <= i < |init| ==> init[i] == groups[i];
      Unrecognised(init) + (if groups[|groups| - 1] in InitialData then 0 else 1)
  }

  /** The dictionary after counting every donor. */
  function Tally(groups: seq<string>): (data: map<string, Bucket>)
    ensures data.Keys == InitialData.Keys
    ensures forall k :: k in data ==> data[k].count == multiset(groups)[k]
    ensures forall k :: k in data ==> data[k].minRequired == InitialData[k].minRequired
  {
    map k | k in InitialData :: Bucket(CountOf(groups, k), InitialData[k].minRequired)
  }

  /** Counting one more donor increments its group's bucket, if its value is a key. */
  lemma TallyAppend(init: seq<string>, g: string)
    ensures Tally(init + [g]) ==
      if g in Tally(init) then Tally(init)[g := Tally(init)[g].(count := Tally(init)[g].count + 1)]
      else Tally(init)
  {
    var t, t' := Tally(init), Tally(init + [g]);
    var expected := if g in t then t[g := t[g].(count := t[g].count + 1)] else t;
    assert multiset(init + [g]) == multiset(init) + multiset{g};
    assert t'.Keys == expected.Keys;
    forall k | k in t' ensures t'[k] == expected[k] {
      if k == g {
        assert t'[k].count == t[k].count + 1;
      } else {
        assert t'[k].count == t[k].count;
      }
    }
  }

  /** Before any donor is counted the dictionary is the initial one. */
  lemma TallyEmpty()
    ensures Tally([]) == InitialData
  {
    forall k | k in InitialData ensures Tally([])[k] == InitialData[k] { }
  }

  datatype Status = Critical | Low | Normal | Excess

  function StatusName(s: Status): string {
    match s
    case Critical => "critical"
    case Low => "low"
    case Normal => "normal"
    case Excess => "excess"
  }

  /**
   * A group's status. The four cases are exclusive and cover every count:
   * critical when empty, low below the minimum, excess above twice the
   * minimum, normal in between.
   */
  function Classify(count: nat, minRequired: nat): (s: Status)
    ensures s == Critical <==> count == 0
    ensures s == Low <==> 0 < count < minRequired
    ensures s == Excess <==> 0 < count && minRequired <= count && count > 2 * minRequired
    ensures s == Normal <==> 0 < count && minRequired <= count <= 2 * minRequired
  {
    if count == 0 then Critical
    else if count < minRequired then Low
    else if count > minRequired * 2 then Excess
    else Normal
  }

  /** One row of the output. */
  datatype GroupSummary = GroupSummary(bloodType: string, count: nat, status: string, minRequired: nat)

  function Summarize(key: string, b: Bucket): GroupSummary {
    GroupSummary(key, b.count, StatusName(Classify(b.count, b.minRequired)), b.minRequired)
  }

  /** The rows for the given keys, in their order. */
  function Rows(keys: seq<string>, data: map<string, Bucket>): (rows: seq<GroupSummary>)
    requires forall k :: k in keys ==> k in data
    ensures |rows| == |keys|
    ensures forall j :: 0 <= j < |keys| ==> rows[j] == Summarize(keys[j], data[keys[j]])
  {
    if keys == [] then [] else [Summarize(keys[0], data[keys[0]])] + Rows(keys[1..], data)
  }

  /**
   * The output for a donor list: one row per group in key order, each with
   * the number of donors in that group, its minimum and its status.
   */
  function Summaries(groups: seq<string>): (rows: seq<GroupSummary>)
    ensures |rows| == 8
    ensures forall j :: 0 <= j < 8 ==>
      && rows[j].bloodType == KeyOrder[j]
      && rows[j].count == multiset(groups)[KeyOrder[j]]
      && rows[j].minRequired == InitialData[KeyOrder[j]].minRequired
      && rows[j].status == StatusName(Classify(rows[j].count, rows[j].minRequired))
  {
    Rows(KeyOrder, Tally(groups))
  }

  datatype Stats = Stats(totalDonors: nat, totalBloodUnits: nat)

  /**
   * The counting loop of calculateBloodGroups: starting from the initial
   * dictionary, each donor whose value is a key adds one to that bucket.
   */
  method CountDonors(groups: seq<string>) returns (data: map<string, Bucket>)
    ensures data == Tally(groups)
  {
    data := InitialData;
    var i := 0;
    while i < |groups|
      invariant 0 <= i <= |groups|
      invariant forall k :: k in data <==> k in InitialData
      invariant forall k :: k in data ==> data[k] == Bucket(multiset(groups[..i])[k], InitialData[k].minRequired)
    {
      var key := groups[i];
      assert multiset(groups[..i + 1]) == multiset(groups[..i]) + multiset{key} by {
        assert groups[..i + 1] == groups[..i] + [key];
      }
      if key in data {
        data := data[key := data[key].(count := data[key].count + 1)];
      }
      i := i + 1;
    }
    assert groups[..|groups|] == groups;
    TallyPointwise(groups, data);
  }

  /** A dictionary with the initial keys whose buckets hold the counts is the tally. */
  lemma TallyPointwise(groups: seq<string>, data: map<string, Bucket>)
    requires forall k :: k in data <==> k in InitialData
    requires forall k :: k in data ==> data[k] == Bucket(multiset(groups)[k], InitialData[k].minRequired)
    ensures data == Tally(groups)
  {
    assert data.Keys == Tally(groups).Keys;
  }

  /**
   * calculateBloodGroups: counts the donors into the dictionary (ignoring
   * values that are not keys), then classifies each group.
   */
  method CalculateBloodGroups(groups: seq<string>) returns (rows: seq<GroupSummary>, stats: Stats)
    ensures rows == Summaries(groups)
    ensures stats == Stats(|groups|, 2 * |groups|)
  {
    var data := CountDonors(groups);
    rows := Rows(KeyOrder, data);
    stats := Stats(|groups|, |groups| * 2);
  }

  /** The minimum for each group: 10 for O+, 8 for O-, 5 for every other group. */
  lemma MinimumsPerGroup(groups: seq<string>, j: nat)
    requires j < 8
    ensures Summaries(groups)[j].minRequired == (if KeyOrder[j] == "O+" then 10 else if KeyOrder[j] == "O-" then 8 else 5)
  {
    var k := KeyOrder[j];
    assert Summaries(groups)[j].minRequired == InitialData[k].minRequired;
    if j == 0 { assert k == "A+"; } else if j == 1 { assert k == "A-"; }
    else if j == 2 { assert k == "B+"; } else if j == 3 { assert k == "B-"; }
    else if j == 4 { assert k == "O+"; } else if j == 5 { assert k == "O-"; }
    else if j == 6 { assert k == "AB+"; } else { assert k == "AB-"; }
  }

  /** The sum of the row counts. */
  function TotalCount(rows: seq<GroupSummary>): nat {
    if rows == [] then 0 else rows[0].count + TotalCount(rows[1..])
  }

  function SumCounts(groups: seq<string>, keys: seq<string>): nat {
    if keys == [] then 0 else CountOf(groups, keys[0]) + SumCounts(groups, keys[1..])
  }

  lemma {:induction false} TotalCountOfRows(groups: seq<string>, keys: seq<string>)
    requires forall k :: k in keys ==> k in InitialData
    ensures TotalCount(Rows(keys, Tally(groups))) == SumCounts(groups, keys)
  {
    if keys != [] {
      TotalCountOfRows(groups, keys[1..]);
      assert Rows(keys, Tally(groups))[1..] == Rows(keys[1..], Tally(groups));
    }
  }

  /** Appending one donor adds one to the sum over distinct keys when its value is among them. */
  lemma {:induction false} SumCountsAppend(groups: seq<string>, keys: seq<string>, g: string)
    requires forall i, j :: 0 <= i < j < |keys| ==> keys[i] != keys[j]
    ensures SumCounts(groups + [g], keys) == SumCounts(groups, keys) + (if g in keys then 1 else 0)
  {
    if keys != [] {
      assert (groups + [g])[..|groups + [g]| - 1] == groups;
      SumCountsAppend(groups, keys[1..], g);
      assert g in keys <==> g == keys[0] || g in keys[1..];
      assert g == keys[0] ==> g !in keys[1..];
    }
  }

  /**
   * Every donor is counted in exactly one row unless its value is not a key:
   * the row counts and the unrecognised donors add up to the donor count.
   */
  lemma {:induction false} CountsAddUp(groups: seq<string>)
    ensures TotalCount(Summaries(groups)) + Unrecognised(groups) == |groups|
  {
    TotalCountOfRows(groups, KeyOrder);
    CountsAddUpOverKeys(groups);
  }

  lemma NoDonorsNoCounts(keys: seq<string>)
    ensures SumCounts([], keys) == 0
  {
  }

  /** KeyOrder lists exactly the dictionary's keys. */
  lemma KeysListed(g: string)
    ensures g in KeyOrder <==> g in InitialData
  {
  }

  /** No key is listed twice. */
  lemma KeyOrderDistinct()
    ensures forall i, j :: 0 <= i < j < |KeyOrder| ==> KeyOrder[i] != KeyOrder[j]
  {
  }

  lemma {:induction false} CountsAddUpOverKeys(groups: seq<string>)
    ensures SumCounts(groups, KeyOrder) + Unrecognised(groups) == |groups|
  {
    if groups != [] {
      var init := groups[..|groups| - 1];
      var g := groups[|groups| - 1];
      CountsAddUpOverKeys(init);
      assert init + [g] == groups;
      KeyOrderDistinct();
      SumCountsAppend(init, KeyOrder, g);
      KeysListed(g);
      assert Unrecognised(groups) == Unrecognised(init) + (if g in InitialData then 0 else 1);
      assert SumCounts(groups, KeyOrder) == SumCounts(init, KeyOrder) + (if g in KeyOrder then 1 else 0);
    } else {
      NoDonorsNoCounts(KeyOrder);
    }
  }

  /** Hence the row counts never exceed the number of donors. */
  lemma CountsAtMostDonors(groups: seq<string>)
    ensures TotalCount(Summaries(groups)) <= |groups|
  {
    CountsAddUp(groups);
  }

  /** Every stored donor's group is a key, so the row counts add up to the donor count. */
  lemma {:induction false} StoredDonorsAllCounted(donors: seq<DonorRecord>)
    ensures TotalCount(Summaries(seq(|donors|, i requires 0 <= i < |donors| => GroupName(donors[i].bloodGroup)))) == |donors|
  {
    var groups := seq(|donors|, i requires 0 <= i < |donors| => GroupName(donors[i].bloodGroup));
    CountsAddUp(groups);
    forall i | 0 <= i < |groups| ensures ParseBloodGroup(groups[i]).Some? {
      GroupNameRoundTrip(donors[i].bloodGroup);
    }
    AllRecognised(groups);
  }

  lemma {:induction false} AllRecognised(groups: seq<string>)
    requires forall i :: 0 <= i < |groups| ==> ParseBloodGroup(groups[i]).Some?
    ensures Unrecognised(groups) == 0
  {
    if groups != [] {
      AllRecognised(groups[..|groups| - 1]);
      var g := groups[|groups| - 1];
      assert ParseBloodGroup(g).Some?;
    }
  }

  /** A list of donors all in one group counts each of them there. */
  lemma {:induction false} CountOfUniform(groups: seq<string>, key: string)
    requires forall i :: 0 <= i < |groups| ==> groups[i] == key
    ensures CountOf(groups, key) == |groups|
  {
    if groups != [] {
      CountOfUniform(groups[..|groups| - 1], key);
    }
  }

  /** Eight O- donors: the O- row has count 8, minimum 8, and is normal. */
  lemma EightONegativeIsNormal(groups: seq<string>)
    requires |groups| == 8 && forall i :: 0 <= i < 8 ==> groups[i] == "O-"
    ensures Summaries(groups)[5].count == 8 && Summaries(groups)[5].status == "normal"
  {
    CountOfUniform(groups, "O-");
    assert KeyOrder[5] == "O-" && InitialData["O-"].minRequired == 8;
    assert Classify(8, 8) == Normal;
  }

  /** getStatusColor: a class per status, the gray default for anything else. */
  function StatusColor(status: string): string {
    if status == "critical" then "bg-red-50 border-red-200"
    else if status == "low" then "bg-orange-50 border-orange-200"
    else if status == "normal" then "bg-green-50 border-green-200"
    else if status == "excess" then "bg-blue-50 border-blue-200"
    else "bg-gray-50 border-gray-200"
  }

  /** The four statuses get four distinct classes, none of them the default. */
  lemma StatusColorsDistinct(s: Status, t: Status)
    ensures s != t ==> StatusColor(StatusName(s)) != StatusColor(StatusName(t))
    ensures StatusColor(StatusName(s)) != "bg-gray-50 border-gray-200"
  {
  }

  /** Any string that is not a status name gets the default class. */
  lemma OtherStatusIsGray(status: string)
    requires forall s :: StatusName(s) != status
    ensures StatusColor(status) == "bg-gray-50 border-gray-200"
  {
    assert StatusName(Critical) != status && StatusName(Low) != status;
    assert StatusName(Normal) != status && StatusName(Excess) != status;
  }

  /**
   * The dashboard's state: the rows and totals start empty and zero, and are
   * recomputed each time a non-empty donor list arrives.
   */
  class DashboardState {
    var bloodGroups: seq<GroupSummary>
    var stats: Stats

    constructor ()
      ensures bloodGroups == [] && stats == Stats(0, 0)
    {
      bloodGroups, stats := [], Stats(0, 0);
    }

    method DonorsChanged(groups: seq<string>)
      modifies this
      ensures |groups| > 0 ==> bloodGroups == Summaries(groups) && stats == Stats(|groups|, 2 * |groups|)
      ensures |groups| == 0 ==> bloodGroups == old(bloodGroups) && stats == old(stats)
    {
      if |groups| > 0 {
        bloodGroups, stats := CalculateBloodGroups(groups);
      }
    }
  }
}
