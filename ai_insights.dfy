/**
 * `AIInsights` (src/components/analytics/AIInsights.tsx): a list of insights
 * that starts with two of the four canned ones and grows by the canned ones
 * not yet shown, never twice the same.
 */
module AIInsights {
  import opened Base
  import opened Seqs

  datatype Kind = Trend | Opportunity | Risk | Anomaly

  datatype Insight = Insight(
    id: string, kind: Kind, title: string, description: string, value: Option<string>, change: Option<int>)

  const MockInsights: seq<Insight> := [
    Insight("insight-1", Trend, "Revenue Growth Acceleration",
            "Revenue growth is accelerating by 12% month-over-month, outpacing previous quarter.", None, Some(12)),
    Insight("insight-2", Opportunity, "Customer Retention Opportunity",
            "Implementing a 5% discount for recurring orders could increase retention by 15%.", Some("+15% retention"), None),
    Insight("insight-3", Risk, "Inventory Stockout Risk",
            "Premium Pine Pallets inventory will deplete within 2 weeks at current sales rate.", Some("14 days remaining"), None),
    Insight("insight-4", Anomaly, "Unusual Expense Pattern",
            "Transportation costs are 23% higher than seasonal average for this quarter.", None, Some(-23))
  ]

  /** `insights.some(i => i.id === id)` */
  predicate HasId(list: seq<Insight>, id: string) {
    exists i :: 0 <= i < |list| && list[i].id == id
  }

  /** No two entries share an id. */
  predicate DistinctIds(list: seq<Insight>) {
    forall i, j :: 0 <= i < j < |list| ==> list[i].id != list[j].id
  }

  /** Every entry is one of the canned insights. */
  predicate FromMock(list: seq<Insight>) {
    forall i :: 0 <= i < |list| ==> list[i] in MockInsights
  }

  /** `newInsights`: the canned insights whose id is not shown yet, in canned order. */
  function NewInsights(list: seq<Insight>): (r: seq<Insight>)
    ensures IsSubseq(r, MockInsights)
    ensures forall i :: 0 <= i < |r| ==> !HasId(list, r[i].id)
  {
    FilterIsSubseq(MockInsights, (x: Insight) => !HasId(list, x.id));
    Filter(MockInsights, (x: Insight) => !HasId(list, x.id))
  }

  /** A canned insight is new exactly when its id is not shown. */
  lemma NewInsightsMembers(list: seq<Insight>, x: Insight)
    ensures x in NewInsights(list) <==> x in MockInsights && !HasId(list, x.id)
  {
    FilterMembers(MockInsights, (x: Insight) => !HasId(list, x.id), x);
  }

  /** `generateMoreInsights`: the new ones appended after the current list, or nothing when there are none. */
  function Generate(list: seq<Insight>): (r: seq<Insight>)
    ensures |r| >= |list| && r[..|list|] == list
    ensures NewInsights(list) == [] ==> r == list
    ensures NewInsights(list) != [] ==> r[|list|..] == NewInsights(list)
  {
    var added := NewInsights(list);
    if |added| > 0 then
      assert (list + added)[..|list|] == list;
      list + added
    else list
  }

  /** The ids of a list, as a set. */
  function Ids(list: seq<Insight>): set<string> {
    if list == [] then {} else Ids(list[..|list| - 1]) + {list[|list| - 1].id}
  }

  lemma {:induction false} IdsMembers(list: seq<Insight>, id: string)
    ensures id in Ids(list) <==> HasId(list, id)
  {
    if list != [] {
      var init := list[..|list| - 1];
      IdsMembers(init, id);
      if HasId(init, id) {
        var i :| 0 <= i < |init| && init[i].id == id;
        assert list[i].id == id;
      }
      if HasId(list, id) && id != list[|list| - 1].id {
        var i :| 0 <= i < |list| && list[i].id == id;
        assert init[i].id == id;
      }
    }
  }

  /** With distinct ids, the list is as long as its id set. */
  lemma {:induction false} DistinctIdsCount(list: seq<Insight>)
    requires DistinctIds(list)
    ensures |Ids(list)| == |list|
  {
    if list != [] {
      var init := list[..|list| - 1];
      assert DistinctIds(init);
      DistinctIdsCount(init);
      IdsMembers(init, list[|list| - 1].id);
    }
  }

  /** The canned ids are distinct: they differ in their last character. */
  lemma MockIdsDistinct()
    ensures DistinctIds(MockInsights)
    ensures |Ids(MockInsights)| == |MockInsights|
  {
    var m := MockInsights;
    assert m[0].id[8] == '1' && m[1].id[8] == '2' && m[2].id[8] == '3' && m[3].id[8] == '4';
    DistinctIdsCount(m);
  }

  /** A list of canned insights with distinct ids has at most as many entries as there are canned ones. */
  lemma {:induction false} BoundedByMock(list: seq<Insight>)
    requires DistinctIds(list) && FromMock(list)
    ensures |list| <= |MockInsights|
  {
    MockIdsDistinct();
    DistinctIdsCount(list);
    forall id | id in Ids(list) ensures id in Ids(MockInsights) {
      IdsMembers(list, id);
      var i :| 0 <= i < |list| && list[i].id == id;
      var k :| 0 <= k < |MockInsights| && MockInsights[k] == list[i];
      IdsMembers(MockInsights, id);
    }
    SubsetCard(Ids(list), Ids(MockInsights));
  }

  /** The new insights have distinct ids (they are distinct canned ones). */
  lemma NewInsightsDistinct(list: seq<Insight>)
    ensures DistinctIds(NewInsights(list))
  {
    MockIdsDistinct();
    SubseqKeepsDistinct(NewInsights(list), MockInsights);
  }

  lemma {:induction false} SubseqKeepsDistinct(a: seq<Insight>, b: seq<Insight>)
    requires IsSubseq(a, b) && DistinctIds(b)
    ensures DistinctIds(a)
    decreases |b|
  {
    if a != [] {
      assert b != [];
      assert DistinctIds(b[1..]);
      if a[0] == b[0] && IsSubseq(a[1..], b[1..]) {
        SubseqKeepsDistinct(a[1..], b[1..]);
        SubseqElements(a[1..], b[1..]);
        forall j | 0 < j < |a| ensures a[0].id != a[j].id {
          var k :| 0 <= k < |b[1..]| && b[1..][k] == a[1..][j - 1];
          assert b[k + 1] == a[j];
        }
      } else {
        SubseqKeepsDistinct(a, b[1..]);
      }
    }
  }

  /** Every element of a subsequence occurs in the sequence. */
  lemma {:induction false} SubseqElements(a: seq<Insight>, b: seq<Insight>)
    requires IsSubseq(a, b)
    ensures forall j :: 0 <= j < |a| ==> exists k :: 0 <= k < |b| && b[k] == a[j]
    decreases |b|
  {
    if a != [] {
      if a[0] == b[0] && IsSubseq(a[1..], b[1..]) {
        SubseqElements(a[1..], b[1..]);
        forall j | 0 < j < |a| ensures exists k :: 0 <= k < |b| && b[k] == a[j] {
          var k :| 0 <= k < |b[1..]| && b[1..][k] == a[1..][j - 1];
          assert b[k + 1] == a[j];
        }
        assert b[0] == a[0];
      } else {
        SubseqElements(a, b[1..]);
        forall j | 0 <= j < |a| ensures exists k :: 0 <= k < |b| && b[k] == a[j] {
          var k :| 0 <= k < |b[1..]| && b[1..][k] == a[j];
          assert b[k + 1] == a[j];
        }
      }
    }
  }

  /** Generating keeps the ids distinct and the entries canned, hence never more than four. */
  lemma {:induction false} GenerateKeepsInvariant(list: seq<Insight>)
    requires DistinctIds(list) && FromMock(list)
    ensures DistinctIds(Generate(list)) && FromMock(Generate(list))
    ensures |Generate(list)| <= |MockInsights|
  {
    var added := NewInsights(list);
    var r := Generate(list);
    NewInsightsDistinct(list);
    SubseqElements(added, MockInsights);
    if added != [] {
      forall i, j | 0 <= i < j < |r| ensures r[i].id != r[j].id {
        if j >= |list| && i < |list| {
          assert r[j] == added[j - |list|];
          assert !HasId(list, added[j - |list|].id);
          assert r[i] == list[i];
        } else if i >= |list| {
          assert r[i] == added[i - |list|] && r[j] == added[j - |list|];
        }
      }
      forall i | 0 <= i < |r| ensures r[i] in MockInsights {
        if i >= |list| {
          assert r[i] == added[i - |list|];
        }
      }
    }
    BoundedByMock(r);
  }

  /** While fewer than four are shown, one more click brings something new. */
  lemma {:induction false} ShortListHasNew(list: seq<Insight>)
    requires DistinctIds(list) && |list| < |MockInsights|
    ensures NewInsights(list) != []
  {
    MockIdsDistinct();
    DistinctIdsCount(list);
    var a, b := Ids(MockInsights), Ids(list);
    assert a == (a - b) + (a * b);
    SubsetCard(a * b, b);
    assert |a - b| > 0;
    var id :| id in a - b;
    IdsMembers(MockInsights, id);
    IdsMembers(list, id);
    var k :| 0 <= k < |MockInsights| && MockInsights[k].id == id;
    NewInsightsMembers(list, MockInsights[k]);
  }

  /** A subset is no larger than its superset. */
  lemma {:induction false} SubsetCard<T>(a: set<T>, b: set<T>)
    requires a <= b
    ensures |a| <= |b|
    decreases a
  {
    if a != {} {
      var x :| x in a;
      SubsetCard(a - {x}, b - {x});
    }
  }

  /** "Generate Insights" is disabled while generating or once as many as the canned ones are shown. */
  predicate GenerateDisabled(isGenerating: bool, list: seq<Insight>) {
    isGenerating || |list| >= |MockInsights|
  }

  /** The card's state. */
  class Panel {
    var insights: seq<Insight>
    var isGenerating: bool

    predicate Valid()
      reads this
    {
      DistinctIds(insights) && FromMock(insights)
    }

    /** The first two canned insights, not generating. */
    constructor ()
      ensures Valid() && insights == MockInsights[..2] && !isGenerating
    {
      insights := MockInsights[..2];
      isGenerating := false;
      new;
      MockIdsDistinct();
    }

    /** A click on an enabled button: the list grows by at least one and generation ends. */
    method GenerateMoreInsights()
      requires Valid() && !GenerateDisabled(isGenerating, insights)
      modifies this
      ensures Valid() && insights == Generate(old(insights)) && !isGenerating
      ensures |old(insights)| < |insights| <= |MockInsights|
    {
      isGenerating := true;
      ShortListHasNew(insights);
      GenerateKeepsInvariant(insights);
      insights := Generate(insights);
      isGenerating := false;
    }
  }
}
