/**
 * The dashboard's bar chart of mentees per subcounty: a tally of the loaded mentees
 * into a dictionary keyed by subcounty name, laid out over the six subcounties in
 * their fixed order.
 */
module SubcountyDistributionChart {
  import opened Wrappers
  import opened Schema
  import opened Sequences
  import opened Text
  import opened Api

  /** One bar: the capitalised subcounty name and its number of mentees. */
  datatype SubcountyData = SubcountyData(subcounty: string, count: nat)

  /** `subcounty.charAt(0).toUpperCase() + subcounty.slice(1)` */
  function Label(s: Subcounty): string {
    Capitalize(SubcountyName(s))
  }

  /** Each label is the subcounty's name with its first letter upper-cased. */
  lemma Labels()
    ensures Label(Likoni) == "Likoni" && Label(Mvita) == "Mvita" && Label(Kisauni) == "Kisauni"
    ensures Label(Nyali) == "Nyali" && Label(Changamwe) == "Changamwe" && Label(Jomvu) == "Jomvu"
  {
    assert Capitalize("likoni") == [UpperChar('l')] + "ikoni";
    assert Capitalize("mvita") == [UpperChar('m')] + "vita";
    assert Capitalize("kisauni") == [UpperChar('k')] + "isauni";
    assert Capitalize("nyali") == [UpperChar('n')] + "yali";
    assert Capitalize("changamwe") == [UpperChar('c')] + "hangamwe";
    assert Capitalize("jomvu") == [UpperChar('j')] + "omvu";
  }

  /** A mentee is tallied under the key that is its subcounty's name. */
  function InSubcounty(name: string): MenteeWithMentor -> bool {
    (m: MenteeWithMentor) => SubcountyName(m.mentee.subcounty) == name
  }

  /** The reference count: how many of the mentees are in subcounty `s`. */
  function RegionCount(mentees: seq<MenteeWithMentor>, s: Subcounty): nat {
    Count(mentees, InSubcounty(SubcountyName(s)))
  }

  /** The chart the mentees should give: every subcounty, in order, with its count. */
  function Distribution(mentees: seq<MenteeWithMentor>): seq<SubcountyData> {
    seq(|AllSubcounties|, i requires 0 <= i < |AllSubcounties| =>
      SubcountyData(Label(AllSubcounties[i]), RegionCount(mentees, AllSubcounties[i])))
  }

  /** The `reduce` over the mentees, incrementing `acc[mentee.subcounty]` in place. */
  method Tally(mentees: seq<MenteeWithMentor>) returns (counts: map<string, nat>)
    ensures forall k :: k in counts <==> Count(mentees, InSubcounty(k)) > 0
    ensures forall k :: k in counts ==> counts[k] == Count(mentees, InSubcounty(k))
  {
    counts := map[];
    var i := 0;
    while i < |mentees|
      invariant 0 <= i <= |mentees|
      invariant forall k :: k in counts <==> Count(mentees[..i], InSubcounty(k)) > 0
      invariant forall k :: k in counts ==> counts[k] == Count(mentees[..i], InSubcounty(k))
    {
      var key := SubcountyName(mentees[i].mentee.subcounty);
      assert mentees[..i + 1] == mentees[..i] + [mentees[i]];
      forall k
        ensures Count(mentees[..i + 1], InSubcounty(k)) == Count(mentees[..i], InSubcounty(k)) + (if k == key then 1 else 0)
      {
        CountSnoc(mentees[..i], mentees[i], InSubcounty(k));
      }
      counts := counts[key := (if key in counts then counts[key] else 0) + 1];
      i := i + 1;
    }
    assert mentees[..i] == mentees;
  }

  /** `counts[subcounty] || 0`: a missing key reads as 0. */
  function CountOrZero(counts: map<string, nat>, key: string): nat {
    if key in counts then counts[key] else 0
  }

  /** `formattedData`: the six subcounties in order, each with its tallied count. */
  function Formatted(counts: map<string, nat>): seq<SubcountyData> {
    seq(|AllSubcounties|, i requires 0 <= i < |AllSubcounties| =>
      SubcountyData(Label(AllSubcounties[i]), CountOrZero(counts, SubcountyName(AllSubcounties[i]))))
  }

  /** Laying out a dictionary with the tally's contents gives the reference chart. */
  lemma FormattedTallyIsDistribution(counts: map<string, nat>, mentees: seq<MenteeWithMentor>)
    requires forall k :: k in counts <==> Count(mentees, InSubcounty(k)) > 0
    requires forall k :: k in counts ==> counts[k] == Count(mentees, InSubcounty(k))
    ensures Formatted(counts) == Distribution(mentees)
  {
  }

  /** Every subcounty is on the chart, one bar each, in the fixed order. */
  lemma DistributionShape(mentees: seq<MenteeWithMentor>)
    ensures |Distribution(mentees)| == 6
    ensures forall i :: 0 <= i < 6 ==> Distribution(mentees)[i].subcounty == Label(AllSubcounties[i])
    ensures forall i, j :: 0 <= i < j < 6 ==> Distribution(mentees)[i].subcounty != Distribution(mentees)[j].subcounty
  {
    Labels();
  }

  /** A subcounty without mentees is on the chart with count 0, not left out. */
  lemma EmptyRegionShowsZero(mentees: seq<MenteeWithMentor>, i: nat)
    requires i < 6 && forall m :: m in mentees ==> m.mentee.subcounty != AllSubcounties[i]
    ensures Distribution(mentees)[i] == SubcountyData(Label(AllSubcounties[i]), 0)
  {
    var keep := InSubcounty(SubcountyName(AllSubcounties[i]));
    forall m | m in mentees ensures !keep(m) {
      SubcountyNameInjective(m.mentee.subcounty, AllSubcounties[i]);
    }
    FilterKeepsNone(mentees, keep);
    FilterLengthIsCount(mentees, keep);
  }

  /** The sum of the bars. */
  function Total(bars: seq<SubcountyData>): nat {
    if bars == [] then 0 else bars[0].count + Total(bars[1..])
  }

  /** Every mentee is in exactly one subcounty, so the six counts add up to all of them. */
  lemma {:induction false} RegionCountsAddUp(mentees: seq<MenteeWithMentor>)
    ensures RegionCount(mentees, Likoni) + RegionCount(mentees, Mvita) + RegionCount(mentees, Kisauni)
          + RegionCount(mentees, Nyali) + RegionCount(mentees, Changamwe) + RegionCount(mentees, Jomvu)
          == |mentees|
  {
    if mentees != [] {
      RegionCountsAddUp(mentees[1..]);
      match mentees[0].mentee.subcounty
      case Likoni =>
      case Mvita =>
      case Kisauni =>
      case Nyali =>
      case Changamwe =>
      case Jomvu =>
    }
  }

  /** The bars add up to the number of mentees loaded. */
  lemma DistributionAddsUp(mentees: seq<MenteeWithMentor>)
    ensures Total(Distribution(mentees)) == |mentees|
  {
    var d := Distribution(mentees);
    assert Total(d[5..]) == d[5].count by { assert d[5..][1..] == []; }
    assert Total(d[4..]) == d[4].count + Total(d[5..]) by { assert d[4..][1..] == d[5..]; }
    assert Total(d[3..]) == d[3].count + Total(d[4..]) by { assert d[3..][1..] == d[4..]; }
    assert Total(d[2..]) == d[2].count + Total(d[3..]) by { assert d[2..][1..] == d[3..]; }
    assert Total(d[1..]) == d[1].count + Total(d[2..]) by { assert d[1..][1..] == d[2..]; }
    RegionCountsAddUp(mentees);
  }

  /** Before anything is loaded, every subcounty shows 0. */
  function InitialData(): (r: seq<SubcountyData>)
    ensures r == Distribution([])
  {
    seq(|AllSubcounties|, i requires 0 <= i < |AllSubcounties| => SubcountyData(Label(AllSubcounties[i]), 0))
  }

  class SubcountyDistribution {
    var data: seq<SubcountyData>

    constructor ()
      ensures data == InitialData()
    {
      data := InitialData();
    }

    /** `loadData`: on success the chart shows the loaded mentees' tally; on failure it is kept. */
    method LoadData(store: Store, fault: bool)
      modifies this
      ensures store.GetMentees(fault).Success? ==> data == Distribution(store.GetMentees(fault).value)
      ensures store.GetMentees(fault).Failure? ==> data == old(data)
    {
      var fetched := store.GetMentees(fault);
      if fetched.Success? {
        var counts := Tally(fetched.value);
        FormattedTallyIsDistribution(counts, fetched.value);
        data := Formatted(counts);
      }
    }
  }
}
