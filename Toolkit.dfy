/** The plan's recommendations view: the traveller's toolkit, one card per
    recommended item with its category's label, and the reading list. */
module Toolkit {
  import opened Types
  import Lists

  /** One product card: the item and the label of the category it came from. */
  datatype Card = Card(category: string, item: RecommendationItem)

  /** The cards of one category, in item order. */
  function CategoryCards(rec: Recommendation): (r: seq<Card>)
    ensures |r| == |rec.items|
    ensures forall j :: 0 <= j < |r| ==> r[j] == Card(rec.category, rec.items[j])
  {
    seq(|rec.items|, j requires 0 <= j < |rec.items| => Card(rec.category, rec.items[j]))
  }

  function CardGroups(recs: seq<Recommendation>): (r: seq<seq<Card>>)
    ensures |r| == |recs|
    ensures forall i :: 0 <= i < |recs| ==> r[i] == CategoryCards(recs[i])
  {
    seq(|recs|, i requires 0 <= i < |recs| => CategoryCards(recs[i]))
  }

  /** `flatMap`: every category's cards, category after category. */
  function Cards(recs: seq<Recommendation>): (r: seq<Card>)
    ensures |r| == ItemCount(recs)
  {
    Lists.FlattenLength(CardGroups(recs));
    GroupsLength(recs);
    Lists.Flatten(CardGroups(recs))
  }

  /** The number of items over all categories. */
  function ItemCount(recs: seq<Recommendation>): nat {
    if recs == [] then 0 else |recs[0].items| + ItemCount(recs[1..])
  }

  lemma {:induction false} GroupsLength(recs: seq<Recommendation>)
    ensures Lists.TotalLength(CardGroups(recs)) == ItemCount(recs)
  {
    if recs != [] {
      GroupsLength(recs[1..]);
      assert CardGroups(recs)[1..] == CardGroups(recs[1..]);
    }
  }

  /** Item `j` of category `i` is the card after all the items of the categories
      before it, and it carries its own category's label. */
  lemma CardAt(recs: seq<Recommendation>, i: nat, j: nat)
    requires i < |recs| && j < |recs[i].items|
    ensures ItemCount(recs[..i]) + j < |Cards(recs)|
    ensures Cards(recs)[ItemCount(recs[..i]) + j] == Card(recs[i].category, recs[i].items[j])
  {
    var groups := CardGroups(recs);
    Lists.FlattenAt(groups, i, j);
    assert groups[..i] == CardGroups(recs[..i]);
    GroupsLength(recs[..i]);
  }

  /** Conversely every card is an item of some category, labelled with that category. */
  lemma {:induction false} CardsComeFromCategories(recs: seq<Recommendation>, k: nat)
    requires k < |Cards(recs)|
    ensures exists i, j :: 0 <= i < |recs| && 0 <= j < |recs[i].items|
              && Cards(recs)[k] == Card(recs[i].category, recs[i].items[j])
  {
    var groups := CardGroups(recs);
    assert groups != [];
    if k < |groups[0]| {
      assert Cards(recs)[k] == groups[0][k];
      assert Cards(recs)[k] == Card(recs[0].category, recs[0].items[k]);
    } else {
      assert groups[1..] == CardGroups(recs[1..]);
      assert Cards(recs)[k] == Cards(recs[1..])[k - |groups[0]|];
      CardsComeFromCategories(recs[1..], k - |groups[0]|);
      var i, j :| 0 <= i < |recs[1..]| && 0 <= j < |recs[1..][i].items|
                  && Cards(recs[1..])[k - |groups[0]|] == Card(recs[1..][i].category, recs[1..][i].items[j]);
      assert recs[1..][i] == recs[i + 1];
    }
  }

  /** The "View on Amazon" button: only for an item whose placeholder flag is set. */
  function AffiliateButtonShown(item: RecommendationItem): (shown: bool)
    ensures shown <==> item.affiliatePlaceholder == Some(true)
  {
    match item.affiliatePlaceholder
    case Some(flag) => flag
    case None => false
  }

  /** The plan's recommendations as the result page passes them: none when absent. */
  function RecommendationsOf(plan: JetLagPlan): (recs: seq<Recommendation>)
    ensures plan.recommendations.Some? ==> recs == plan.recommendations.value
    ensures plan.recommendations.None? ==> recs == []
  {
    match plan.recommendations
    case Some(r) => r
    case None => []
  }

  /** The toolkit is drawn when there is at least one category. */
  predicate ToolkitShown(recs: seq<Recommendation>) {
    |recs| > 0
  }

  /** Categories, not items, decide: a toolkit with only empty categories is drawn
      with no cards, and a plan without recommendations draws none. */
  lemma ToolkitShownWithoutCards(category: string, plan: JetLagPlan)
    requires plan.recommendations.None?
    ensures ToolkitShown([Recommendation(category, [])]) && Cards([Recommendation(category, [])]) == []
    ensures !ToolkitShown(RecommendationsOf(plan))
  {
    assert ItemCount([Recommendation(category, [])]) == 0;
  }

  /** The reading list is drawn when links are present and there is at least one. */
  function ScienceLinksShown(links: Option<seq<ScienceLink>>): (shown: bool)
    ensures shown <==> links.Some? && links.value != []
  {
    match links
    case Some(l) => |l| > 0
    case None => false
  }
}
