/** Node preparation: four kinds of node merged under one key order. */
module NodePrep {
  import opened Nodes
  import Text
  import Permutations
  import Sorting

  const U64_MAX: nat := 0xFFFF_FFFF_FFFF_FFFF

  datatype Keyed = Keyed(seqNo: nat, rank: nat, secondary: string, node: PreparedNode)

  predicate KeyLeq(a: Keyed, b: Keyed) {
    if a.seqNo != b.seqNo then a.seqNo < b.seqNo
    else if a.rank != b.rank then a.rank < b.rank
    else Text.LexLeq(a.secondary, b.secondary)
  }

  function KeyConversation(c: Conversation): Keyed {
    Keyed(c.turnStart, 0, c.sessionId, ConversationNode(c))
  }

  function KeyDecision(d: Decision): Keyed {
    Keyed(d.turnSeq, 1, d.nodeId, DecisionNode(d.record))
  }

  function KeyEpisode(e: Episode): Keyed {
    Keyed(e.seqNo, 2, e.nodeId, EpisodeNode(e.episode))
  }

  function KeyBinding(b: Edge): Keyed {
    Keyed(U64_MAX, 3, b.from + "->" + b.to, BindingNode(b))
  }

  function Keys<T>(items: seq<T>, key: T -> Keyed): seq<Keyed> {
    seq(|items|, i requires 0 <= i < |items| => key(items[i]))
  }

  /** Every input under its key, in the order the four loops push them. */
  function AllKeyed(seg: Segmentation, bindings: seq<Edge>): seq<Keyed> {
    Keys(seg.conversations, KeyConversation) + Keys(seg.decisions, KeyDecision)
      + Keys(seg.episodes, KeyEpisode) + Keys(bindings, KeyBinding)
  }

  function Payloads(keyed: seq<Keyed>): seq<PreparedNode> {
    seq(|keyed|, i requires 0 <= i < |keyed| => keyed[i].node)
  }

  function Merged(seg: Segmentation, bindings: seq<Edge>): seq<Keyed> {
    Sorting.SortBy(AllKeyed(seg, bindings), KeyLeq)
  }

  method PushAll<T>(keyed: seq<Keyed>, items: seq<T>, key: T -> Keyed) returns (r: seq<Keyed>)
    ensures r == keyed + Keys(items, key)
  {
    r := keyed;
    for k := 0 to |items|
      invariant r == keyed + Keys(items[..k], key)
    {
      r := r + [key(items[k])];
      assert Keys(items[..k + 1], key) == Keys(items[..k], key) + [key(items[k])];
    }
    assert items[..|items|] == items;
  }

  method Prepare(seg: Segmentation, bindings: seq<Edge>) returns (nodes: seq<PreparedNode>)
    ensures nodes == Payloads(Merged(seg, bindings))
  {
    var keyed := PushAll([], seg.conversations, KeyConversation);
    keyed := PushAll(keyed, seg.decisions, KeyDecision);
    keyed := PushAll(keyed, seg.episodes, KeyEpisode);
    keyed := PushAll(keyed, bindings, KeyBinding);
    assert keyed == AllKeyed(seg, bindings);
    keyed := Sorting.SortBy(keyed, KeyLeq);
    nodes := [];
    for k := 0 to |keyed|
      invariant nodes == Payloads(keyed[..k])
    {
      nodes := nodes + [keyed[k].node];
    }
    assert keyed[..|keyed|] == keyed;
  }

  // ---- Laws ------------------------------------------------------------

  lemma KeyOrder()
    ensures Sorting.TotalPreorder(KeyLeq)
  {
    forall a: Keyed, b: Keyed ensures KeyLeq(a, b) || KeyLeq(b, a) {
      Text.LexTotal(a.secondary, b.secondary);
    }
    forall a: Keyed, b: Keyed, c: Keyed | KeyLeq(a, b) && KeyLeq(b, c) ensures KeyLeq(a, c) {
      if a.seqNo == b.seqNo == c.seqNo && a.rank == b.rank == c.rank {
        Text.LexTransitive(a.secondary, b.secondary, c.secondary);
      }
    }
  }

  /** One key stands for one node. */
  ghost predicate DistinctKeys(keyed: seq<Keyed>) {
    forall a, b | a in keyed && b in keyed
      && a.seqNo == b.seqNo && a.rank == b.rank && a.secondary == b.secondary :: a == b
  }

  ghost predicate FitsU64(seg: Segmentation) {
    && (forall c | c in seg.conversations :: c.turnStart <= U64_MAX)
    && (forall d | d in seg.decisions :: d.turnSeq <= U64_MAX)
    && (forall e | e in seg.episodes :: e.seqNo <= U64_MAX)
  }

  /** The merge loses and invents nothing, and orders by (seq, rank, secondary). */
  lemma {:induction false} MergeCanonical(seg: Segmentation, bindings: seq<Edge>)
    ensures multiset(Merged(seg, bindings)) == multiset(AllKeyed(seg, bindings))
    ensures Sorting.Sorted(Merged(seg, bindings), KeyLeq)
    ensures |Merged(seg, bindings)|
      == |seg.conversations| + |seg.decisions| + |seg.episodes| + |bindings|
  {
    KeyOrder();
    Sorting.SortPermutes(AllKeyed(seg, bindings), KeyLeq);
    Sorting.SortSorts(AllKeyed(seg, bindings), KeyLeq);
  }

  /** A node whose key is strictly smaller comes first. */
  lemma SmallerFirst(m: seq<Keyed>, p: nat, q: nat)
    requires Sorting.Sorted(m, KeyLeq) && p < |m| && q < |m|
    requires !KeyLeq(m[q], m[p])
    ensures p < q
  {
    Text.LexTotal(m[p].secondary, m[p].secondary);
  }

  lemma KeyedShape(seg: Segmentation, bindings: seq<Edge>, k: Keyed)
    requires k in AllKeyed(seg, bindings) && FitsU64(seg)
    ensures k.node.BindingNode? <==> k.rank == 3
    ensures k.node.BindingNode? ==> k.seqNo == U64_MAX
    ensures k.seqNo <= U64_MAX && k.rank <= 3
  {
    if k in Keys(seg.conversations, KeyConversation) {
      var c := KeysMember(seg.conversations, KeyConversation, k);
    } else if k in Keys(seg.decisions, KeyDecision) {
      var d := KeysMember(seg.decisions, KeyDecision, k);
    } else if k in Keys(seg.episodes, KeyEpisode) {
      var e := KeysMember(seg.episodes, KeyEpisode, k);
    } else {
      assert k in Keys(bindings, KeyBinding);
      var b := KeysMember(bindings, KeyBinding, k);
    }
  }

  lemma KeysMember<T>(items: seq<T>, key: T -> Keyed, k: Keyed) returns (x: T)
    requires k in Keys(items, key)
    ensures x in items && k == key(x)
  {
    var i :| 0 <= i < |items| && k == key(items[i]);
    x := items[i];
  }

  /**
   Every binding comes after every conversation, decision and episode, even one
   at the largest sequence number.
   */
  lemma {:induction false} BindingsLast(seg: Segmentation, bindings: seq<Edge>, i: nat, j: nat)
    requires FitsU64(seg)
    requires i < |Merged(seg, bindings)| && j < |Merged(seg, bindings)|
    requires Merged(seg, bindings)[i].node.BindingNode?
    requires !Merged(seg, bindings)[j].node.BindingNode?
    ensures j < i
  {
    var m := Merged(seg, bindings);
    MergeCanonical(seg, bindings);
    MergedShape(seg, bindings, i);
    MergedShape(seg, bindings, j);
    SortedPair(m, i, j);
  }

  lemma MergedShape(seg: Segmentation, bindings: seq<Edge>, i: nat)
    requires FitsU64(seg) && i < |Merged(seg, bindings)|
    ensures var k := Merged(seg, bindings)[i];
      (k.node.BindingNode? <==> k.rank == 3) && (k.node.BindingNode? ==> k.seqNo == U64_MAX)
      && k.seqNo <= U64_MAX && k.rank <= 3
  {
    var m := Merged(seg, bindings);
    MergeCanonical(seg, bindings);
    assert m[i] in multiset(m);
    KeyedShape(seg, bindings, m[i]);
  }

  lemma SortedPair(m: seq<Keyed>, i: nat, j: nat)
    requires Sorting.Sorted(m, KeyLeq) && i < |m| && j < |m|
    ensures i < j ==> KeyLeq(m[i], m[j])
  {
  }

  lemma {:induction false} KeysPermute<T>(a: seq<T>, b: seq<T>, key: T -> Keyed)
    requires multiset(a) == multiset(b)
    ensures multiset(Keys(a, key)) == multiset(Keys(b, key))
  {
    if a == [] {
      assert |b| == |multiset(b)| == 0;
    } else {
      var k := Permutations.MatchHead(a, b);
      KeysPermute(a[1..], Permutations.Without(b, k), key);
      assert Keys(a, key) == [key(a[0])] + Keys(a[1..], key);
      assert Keys(b, key) == Keys(b[..k], key) + [key(b[k])] + Keys(b[k + 1..], key);
      assert Keys(Permutations.Without(b, k), key) == Keys(b[..k], key) + Keys(b[k + 1..], key);
    }
  }

  /** The order in which each kind arrives does not show when keys are distinct. */
  lemma {:induction false} PrepareOrderFree(
      seg: Segmentation, seg': Segmentation, bindings: seq<Edge>, bindings': seq<Edge>)
    requires multiset(seg.conversations) == multiset(seg'.conversations)
    requires multiset(seg.decisions) == multiset(seg'.decisions)
    requires multiset(seg.episodes) == multiset(seg'.episodes)
    requires multiset(bindings) == multiset(bindings')
    requires DistinctKeys(AllKeyed(seg, bindings))
    ensures Merged(seg, bindings) == Merged(seg', bindings')
  {
    KeysPermute(seg.conversations, seg'.conversations, KeyConversation);
    KeysPermute(seg.decisions, seg'.decisions, KeyDecision);
    KeysPermute(seg.episodes, seg'.episodes, KeyEpisode);
    KeysPermute(bindings, bindings', KeyBinding);
    var a, b := AllKeyed(seg, bindings), AllKeyed(seg', bindings');
    KeyOrder();
    forall x, y | x in a && y in a && KeyLeq(x, y) && KeyLeq(y, x) ensures x == y {
      Text.LexAntisymmetric(x.secondary, y.secondary);
    }
    Sorting.SortCanonical(a, b, KeyLeq);
  }
}
