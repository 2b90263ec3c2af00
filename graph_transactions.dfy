/**
 * The transaction-relationship view: the graph of one transaction, its two
 * users and the transactions that share an attribute with it, and the summary
 * panel beside the graph.
 */
module GraphTransactions {
  import opened Wrappers
  import opened DriverValues
  import opened Seqs
  import opened GraphElements
  import Text
  import FrontValues
  import GraphExplorer

  type UserNode = GraphExplorer.UserNode
  type TransactionNode = GraphExplorer.TransactionNode

  /** An entry of `relatedTransactions`: the related transaction and its two users, the
      relationship's type, and its `value` and `attribute` properties. */
  datatype RelatedEntry = RelatedEntry(transaction: TransactionNode, fromUser: UserNode, toUser: UserNode,
                                       rel: string, value: Option<Value>, attribute: Option<Value>)

  /** The `getTransactionRelationships` result, with the main transaction's `description`,
      `status` and `currency` as far as the summary shows them. */
  datatype TransactionData = TransactionData(transaction: TransactionNode, description: Option<Value>, status: Option<Value>,
                                             currency: Option<Value>, fromUser: UserNode, toUser: UserNode,
                                             related: Option<seq<RelatedEntry>>)

  // ---------------------------------------------------------------------------
  // Elements

  function AmountCaption(t: TransactionNode): string {
    "$" + FrontValues.Render(t.amount)
  }

  /** The flow edges `flow-<from>-<t>` and `flow-<t>-<to>` of a transaction. */
  function Flow(from: UserNode, t: TransactionNode, to: UserNode): (r: seq<Element>)
    ensures |r| == 2 && r[0].Link? && r[1].Link?
    ensures r[0].source == from.id && r[0].target == t.id && r[1].source == t.id && r[1].target == to.id
    ensures r[0].caption == r[1].caption == AmountCaption(t) && r[0].kind == r[1].kind == "transaction"
  {
    [Link("flow-" + from.id + "-" + t.id, from.id, t.id, AmountCaption(t), "transaction"),
     Link("flow-" + t.id + "-" + to.id, t.id, to.id, AmountCaption(t), "transaction")]
  }

  /** The main transaction, its two users and its two flow edges. */
  function BaseElements(d: TransactionData): (r: seq<Element>)
    ensures |r| == 5
    ensures r[0] == Node(d.transaction.id, AmountCaption(d.transaction), "main-transaction")
    ensures r[1] == GraphExplorer.UserElement(d.fromUser) && r[2] == GraphExplorer.UserElement(d.toUser)
    ensures r[3].Link? && r[3].source == d.fromUser.id && r[3].target == d.transaction.id
    ensures r[4].Link? && r[4].source == d.transaction.id && r[4].target == d.toUser.id
  {
    [Node(d.transaction.id, AmountCaption(d.transaction), "main-transaction"),
     GraphExplorer.UserElement(d.fromUser), GraphExplorer.UserElement(d.toUser)] +
    Flow(d.fromUser, d.transaction, d.toUser)
  }

  /** `${type}: ${value || attribute}`. */
  function SharedCaption(e: RelatedEntry): string {
    e.rel + ": " + FrontValues.RenderOption(FrontValues.Or(e.value, e.attribute))
  }

  /** The six elements of one related entry: the related transaction, its two users, the
      shared edge from the main transaction, and the related transaction's flow edges. */
  function RelatedElements(t: TransactionNode, e: RelatedEntry): (r: seq<Element>)
    ensures |r| == 6
    ensures r[0] == Node(e.transaction.id, AmountCaption(e.transaction), "transaction")
    ensures r[1] == GraphExplorer.UserElement(e.fromUser) && r[2] == GraphExplorer.UserElement(e.toUser)
    ensures r[3] == Link("shared-" + t.id + "-" + e.transaction.id + "-" + e.rel, t.id, e.transaction.id, SharedCaption(e), "shared")
    ensures r[4].Link? && r[4].source == e.fromUser.id && r[4].target == e.transaction.id
    ensures r[5].Link? && r[5].source == e.transaction.id && r[5].target == e.toUser.id
  {
    [Node(e.transaction.id, AmountCaption(e.transaction), "transaction"),
     GraphExplorer.UserElement(e.fromUser), GraphExplorer.UserElement(e.toUser),
     Link("shared-" + t.id + "-" + e.transaction.id + "-" + e.rel, t.id, e.transaction.id, SharedCaption(e), "shared")] +
    Flow(e.fromUser, e.transaction, e.toUser)
  }

  function AllRelated(t: TransactionNode, es: seq<RelatedEntry>): (r: seq<Element>)
    ensures |r| == 6 * |es|
  {
    if es == [] then [] else AllRelated(t, es[..|es| - 1]) + RelatedElements(t, es[|es| - 1])
  }

  lemma AllRelatedPrefix(t: TransactionNode, es: seq<RelatedEntry>, i: nat)
    requires i < |es|
    ensures AllRelated(t, es[..i + 1]) == AllRelated(t, es[..i]) + RelatedElements(t, es[i])
  {
    assert es[..i + 1][..i] == es[..i];
  }

  function RelatedPart(d: TransactionData): seq<Element> {
    if d.related.Some? then AllRelated(d.transaction, d.related.value) else []
  }

  /** Everything `visualizeTransactionRelationships` offers to the collection, in order. */
  function TransactionElements(d: TransactionData): seq<Element> {
    BaseElements(d) + RelatedPart(d)
  }

  /** The `i`-th related entry occupies the six places after the first `6 * i`. */
  lemma {:induction false} AllRelatedBlock(t: TransactionNode, es: seq<RelatedEntry>, i: nat)
    requires i < |es|
    ensures AllRelated(t, es)[6 * i..6 * i + 6] == RelatedElements(t, es[i])
  {
    var init := es[..|es| - 1];
    var a, b := AllRelated(t, init), RelatedElements(t, es[|es| - 1]);
    assert AllRelated(t, es) == a + b;
    if i < |init| {
      AllRelatedBlock(t, init, i);
      SliceOfLeft(a, b, 6 * i, 6 * i + 6);
      assert init[i] == es[i];
    } else {
      assert 6 * i == |a| && es[i] == es[|es| - 1];
      SliceOfRight(a, b, 0, |b|);
      assert b[0..|b|] == b;
    }
  }

  lemma SliceOfLeft(a: seq<Element>, b: seq<Element>, lo: nat, hi: nat)
    requires lo <= hi <= |a|
    ensures (a + b)[lo..hi] == a[lo..hi]
  {
    forall k | 0 <= k < hi - lo ensures (a + b)[lo..hi][k] == a[lo..hi][k] {
      assert (a + b)[lo + k] == a[lo + k];
    }
  }

  lemma SliceOfRight(a: seq<Element>, b: seq<Element>, lo: nat, hi: nat)
    requires lo <= hi <= |b|
    ensures (a + b)[|a| + lo..|a| + hi] == b[lo..hi]
  {
    forall k | 0 <= k < hi - lo ensures (a + b)[|a| + lo..|a| + hi][k] == b[lo..hi][k] {
      assert (a + b)[|a| + lo + k] == b[lo + k];
    }
  }

  /** Five base elements and six per related entry, the shared edge of entry `i` at place
      `5 + 6 * i + 3`. */
  lemma TransactionElementsLayout(d: TransactionData)
    ensures var n := if d.related.Some? then |d.related.value| else 0;
            |TransactionElements(d)| == 5 + 6 * n
    ensures TransactionElements(d)[..5] == BaseElements(d)
    ensures d.related.Some? ==>
              forall i :: 0 <= i < |d.related.value| ==>
                TransactionElements(d)[5 + 6 * i..5 + 6 * i + 6] == RelatedElements(d.transaction, d.related.value[i])
  {
    var base, rest := BaseElements(d), RelatedPart(d);
    assert TransactionElements(d)[..5] == base by {
      SliceOfLeft(base, rest, 0, 5);
      assert base[0..5] == base;
    }
    if d.related.Some? {
      forall i | 0 <= i < |d.related.value|
        ensures TransactionElements(d)[5 + 6 * i..5 + 6 * i + 6] == RelatedElements(d.transaction, d.related.value[i])
      {
        RelatedBlockAt(d, i);
      }
    }
  }

  lemma RelatedBlockAt(d: TransactionData, i: nat)
    requires d.related.Some? && i < |d.related.value|
    ensures TransactionElements(d)[5 + 6 * i..5 + 6 * i + 6] == RelatedElements(d.transaction, d.related.value[i])
  {
    var base, rest := BaseElements(d), RelatedPart(d);
    assert |base| == 5 && rest == AllRelated(d.transaction, d.related.value);
    calc {
      TransactionElements(d)[5 + 6 * i..5 + 6 * i + 6];
      (base + rest)[|base| + 6 * i..|base| + 6 * i + 6];
      { SliceOfRight(base, rest, 6 * i, 6 * i + 6); }
      rest[6 * i..6 * i + 6];
      { AllRelatedBlock(d.transaction, d.related.value, i); }
      RelatedElements(d.transaction, d.related.value[i]);
    }
  }

  /** Offering the base and then the related part is offering the whole list. */
  lemma TransactionElementsInParts(d: TransactionData)
    ensures WithElements([], TransactionElements(d)) == WithElements(WithElements([], BaseElements(d)), RelatedPart(d))
  {
    WithElementsAppend([], BaseElements(d), RelatedPart(d));
  }

  /** The main transaction heads the collection. */
  lemma MainTransactionFirst(d: TransactionData)
    ensures |WithElements([], TransactionElements(d))| > 0 &&
            WithElements([], TransactionElements(d))[0] == Node(d.transaction.id, AmountCaption(d.transaction), "main-transaction")
  {
    var base := BaseElements(d);
    var others := base[1..] + RelatedPart(d);
    assert TransactionElements(d) == [base[0]] + others;
    FirstNodeTaken(base[0], others);
  }

  // ---------------------------------------------------------------------------
  // Summary

  /** The badge of a relationship type: the CSS class `shared-...` from the lowercased type,
      and the type without its `SHARED_` prefix. */
  datatype Badge = Badge(cssClass: string, text: string)

  function BadgeOf(rel: string): Badge {
    Badge(Text.ReplaceFirst(Text.Lower(rel), "shared_", "shared-"), Text.ReplaceFirst(rel, "SHARED_", ""))
  }

  /** A `SHARED_` type is shown without the prefix, with the class `shared-` and the rest in
      lower case. */
  lemma SharedBadge(rest: string)
    ensures BadgeOf("SHARED_" + rest) == Badge("shared-" + Text.Lower(rest), rest)
  {
    LowerSharedPrefix(rest);
    Text.ReplaceFirstAtStart("shared_", Text.Lower(rest), "shared-");
    Text.ReplaceFirstAtStart("SHARED_", rest, "");
    assert "" + rest == rest;
  }

  lemma LowerSharedPrefix(rest: string)
    ensures Text.Lower("SHARED_" + rest) == "shared_" + Text.Lower(rest)
  {
    Text.LowerAppend("SHARED_", rest);
    assert Text.Lower("SHARED_") == "shared_";
  }

  /** The facts about the main transaction the summary shows. */
  datatype MainInfo = MainInfo(id: string, amount: string, description: string, status: string, from: string, to: string)

  /** `Related(count, types)`: the number of related entries and the distinct relationship
      types, each shown as `BadgeOf(type)`. */
  datatype SharedInfo = NoRelated | Related(count: nat, types: seq<string>)

  datatype SummaryView = Placeholder | Shown(main: MainInfo, shared: SharedInfo)

  function MainInfoOf(d: TransactionData): MainInfo {
    MainInfo(d.transaction.id,
             AmountCaption(d.transaction) + " " + FrontValues.RenderOption(d.currency),
             FrontValues.RenderOption(d.description), FrontValues.RenderOption(d.status),
             d.fromUser.name, d.toUser.name)
  }

  function Types(es: seq<RelatedEntry>): (r: seq<string>)
    ensures |r| == |es|
    ensures forall i :: 0 <= i < |es| ==> r[i] == es[i].rel
  {
    seq(|es|, i requires 0 <= i < |es| => es[i].rel)
  }

  /** One more entry adds its type to the distinct types unless it is there already. */
  lemma TypesStep(es: seq<RelatedEntry>, i: nat)
    requires i < |es|
    ensures Dedup(Types(es[..i + 1])) ==
            if es[i].rel in Dedup(Types(es[..i])) then Dedup(Types(es[..i])) else Dedup(Types(es[..i])) + [es[i].rel]
  {
    var prev, next := Types(es[..i]), Types(es[..i + 1]);
    assert next == prev + [es[i].rel] by {
      forall k | 0 <= k < |next| ensures next[k] == (prev + [es[i].rel])[k] {
        assert es[..i + 1][k] == es[k];
      }
    }
    DedupSnoc(prev, es[i].rel);
  }

  /** The loop of `updateRelationshipSummary` that collects each type the first time it is seen. */
  method CollectTypes(related: seq<RelatedEntry>) returns (sharedAttributes: seq<string>)
    ensures sharedAttributes == Dedup(Types(related))
  {
    sharedAttributes := [];
    var i := 0;
    while i < |related|
      invariant 0 <= i <= |related|
      invariant sharedAttributes == Dedup(Types(related[..i]))
    {
      TypesStep(related, i);
      if related[i].rel !in sharedAttributes {
        sharedAttributes := sharedAttributes + [related[i].rel];
      }
      i := i + 1;
    }
    assert related[..i] == related;
  }

  /** The shared-attributes part of the summary: nothing when there are no related entries,
      otherwise their number and every type once, in order of first appearance. */
  function SharedInfoOf(related: Option<seq<RelatedEntry>>): (r: SharedInfo)
    ensures r.NoRelated? <==> related.None? || |related.value| == 0
    ensures r.Related? ==>
              var es := related.value;
              r.count == |es| && Distinct(r.types) && |r.types| <= |es| &&
              (forall j :: 0 <= j < |r.types| ==> exists k :: 0 <= k < |es| && es[k].rel == r.types[j]) &&
              (forall k :: 0 <= k < |es| ==> es[k].rel in r.types)
  {
    if related.None? || |related.value| == 0 then NoRelated
    else
      var es := related.value;
      Related(|es|, Dedup(Types(es)))
  }

  function SummaryOf(d: TransactionData): SummaryView {
    Shown(MainInfoOf(d), SharedInfoOf(d.related))
  }

  /** Entries that all carry one type give that type once. */
  lemma OneTypeOnce(es: seq<RelatedEntry>, rel: string)
    requires |es| > 0
    requires forall k :: 0 <= k < |es| ==> es[k].rel == rel
    ensures SharedInfoOf(Some(es)) == Related(|es|, [rel])
  {
    DedupConstant(Types(es), rel);
  }

  // ---------------------------------------------------------------------------
  // The view

  class TransactionPanel {
    var elements: seq<Element>
    var summary: SummaryView
    var current: Option<TransactionData>

    predicate Valid()
      reads this
    {
      GraphElements.Valid(elements)
    }

    constructor ()
      ensures elements == [] && summary == Placeholder && current == None
    {
      elements := [];
      summary := Placeholder;
      current := None;
    }

    /** The six elements of each related entry, one entry at a time. */
    method AddRelatedEntries(t: TransactionNode, related: seq<RelatedEntry>)
      requires Valid()
      modifies this`elements
      ensures Valid()
      ensures elements == WithElements(old(elements), AllRelated(t, related))
    {
      var i := 0;
      while i < |related|
        invariant 0 <= i <= |related|
        invariant elements == WithElements(old(elements), AllRelated(t, related[..i]))
        invariant Valid()
      {
        var entry := related[i];
        ghost var prefix := AllRelated(t, related[..i]);
        assert WithElements(old(elements), AllRelated(t, related[..i + 1])) ==
               WithElements(WithElements(old(elements), prefix), RelatedElements(t, entry)) by {
          AllRelatedPrefix(t, related, i);
          WithElementsAppend(old(elements), prefix, RelatedElements(t, entry));
        }
        WithElementsValid(elements, RelatedElements(t, entry));
        elements := WithElements(elements, RelatedElements(t, entry));
        i := i + 1;
      }
      assert related[..i] == related;
    }

    /** `visualizeTransactionRelationships`: clear, add the five base elements, then the six
        elements of each related entry. */
    method VisualizeTransactionRelationships(d: TransactionData)
      modifies this`elements
      ensures Valid()
      ensures elements == WithElements([], TransactionElements(d))
      ensures |elements| > 0 && elements[0] == Node(d.transaction.id, AmountCaption(d.transaction), "main-transaction")
    {
      elements := WithElements([], BaseElements(d));
      WithElementsValid([], BaseElements(d));
      if d.related.Some? {
        AddRelatedEntries(d.transaction, d.related.value);
      }
      TransactionElementsInParts(d);
      MainTransactionFirst(d);
    }

    /** `updateRelationshipSummary`: the main transaction and its users, then either the
        related count and the set of types, filled entry by entry, or the empty note. */
    method UpdateRelationshipSummary(d: TransactionData)
      modifies this`summary
      ensures summary == SummaryOf(d)
    {
      var shared: SharedInfo;
      if d.related.Some? && |d.related.value| > 0 {
        var sharedAttributes := CollectTypes(d.related.value);
        shared := Related(|d.related.value|, sharedAttributes);
      } else {
        shared := NoRelated;
      }
      summary := Shown(MainInfoOf(d), shared);
    }

    /** `clearTransactionRelationships`: no elements, the placeholder text, no current data. */
    method ClearTransactionRelationships()
      modifies this
      ensures elements == [] && summary == Placeholder && current == None
      ensures Valid()
    {
      elements := [];
      summary := Placeholder;
      current := None;
    }
  }
}
