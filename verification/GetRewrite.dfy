/** `_GET_( v[ i1 ]..[ in ], "v[..]", .. )` becomes `__GETA( {|| v }, "v", .., { i1, .., in }, .. )`. */
module GetRewrite {
  import opened ListSurgery

  /** Node id is v[ i1 ]..[ in ]: element accesses above v with these indexes. */
  predicate Spine(ns: Pool, id: nat, v: nat, indexes: seq<nat>)
    decreases |indexes|
  {
    id < |ns| &&
    if indexes == [] then id == v && ns[id].kind != ArrayAtKind
    else
      var m := |indexes| - 1;
      ns[id].kind == ArrayAtKind && ns[id].index == To(indexes[m]) && indexes[m] < |ns| && ns[id].first.To?
      && Spine(ns, ns[id].first.id, v, indexes[..m])
  }

  /** The tree determines the indexes and their order. */
  lemma {:induction false} SpineUnique(ns: Pool, id: nat, v: nat, a: seq<nat>, w: nat, b: seq<nat>)
    requires Spine(ns, id, v, a) && Spine(ns, id, w, b)
    ensures v == w && a == b
    decreases |a|
  {
    if a != [] && b != [] {
      SpineUnique(ns, ns[id].first.id, v, a[..|a| - 1], w, b[..|b| - 1]);
      assert a == a[..|a| - 1] + [a[|a| - 1]] && b == b[..|b| - 1] + [b[|b| - 1]];
    }
  }

  /** Only links have changed, and only those of the given nodes; nodes may have been added. */
  ghost predicate OnlyLinks(ns: Pool, ms: Pool, ids: seq<nat>) {
    |ns| <= |ms| && forall k :: 0 <= k < |ns| ==> ms[k].(next := ns[k].next) == ns[k] && (k !in ids ==> ms[k] == ns[k])
  }

  lemma {:induction false} SpineFrame(ns: Pool, ms: Pool, ids: seq<nat>, id: nat, v: nat, indexes: seq<nat>)
    requires OnlyLinks(ns, ms, ids) && Spine(ns, id, v, indexes)
    ensures Spine(ms, id, v, indexes)
    decreases |indexes|
  {
    if indexes != [] {
      SpineFrame(ns, ms, ids, ns[id].first.id, v, indexes[..|indexes| - 1]);
    }
  }

  predicate Distinct(ids: seq<nat>) {
    forall i, j :: 0 <= i < j < |ids| ==> ids[i] != ids[j]
  }

  /** The text up to the first '[' that is not its first character. */
  predicate Cut(s: string, t: string) {
    t <= s && (forall k :: 1 <= k < |t| ==> s[k] != '[') && (|t| < |s| ==> |t| >= 1 && s[|t|] == '[')
  }

  lemma CutUnique(s: string, t: string, u: string)
    requires Cut(s, t) && Cut(s, u)
    ensures t == u
  {
    assert |t| == |u|;
    assert t == s[..|t|] && u == s[..|u|];
  }

  class Rewriter {
    var nodes: Pool
    var functionName: string

    method NewNode(kind: Kind, first: Ptr) returns (r: nat)
      modifies this`nodes
      ensures r == |old(nodes)| && nodes == old(nodes) + [Node(kind, first, Null, "", Null)]
    {
      r := |nodes|;
      nodes := nodes + [Node(kind, first, Null, "", Null)];
    }

    /** Walks back to the leftmost expression and links the indexes on the way. */
    method CollectIndexes(arg: nat, ghost v: nat, ghost indexes: seq<nat>) returns (base: nat, index: nat)
      requires indexes != [] && Distinct(indexes) && Spine(nodes, arg, v, indexes)
      modifies this`nodes
      ensures base == v && v < |nodes| && nodes[v].kind != ArrayAtKind
      ensures OnlyLinks(old(nodes), nodes, indexes) && Linked(nodes, To(index), indexes, Null)
    {
      hide Walked, OnlyLinks, Spine, Linked;
      ghost var n: nat := |indexes| - 1;
      SpineParts(nodes, arg, v, indexes);
      base, index := nodes[arg].first.id, nodes[arg].index.id;
      nodes := nodes[index := nodes[index].(next := Null)];
      WalkedStart(old(nodes), nodes, arg, v, indexes);
      while nodes[base].kind == ArrayAtKind
        invariant base < |nodes| && Walked(old(nodes), nodes, base, index, v, indexes, n)
        decreases n
      {
        ghost var before := nodes;
        WalkedParts(old(nodes), nodes, base, index, v, indexes, n);
        n := n - 1;
        var i := nodes[base].index.id;
        nodes := nodes[i := nodes[i].(next := To(index))];
        WalkedStep(old(nodes), before, base, index, v, indexes, n, nodes);
        index := i;
        base := nodes[base].first.id;
      }
      WalkedEnd(old(nodes), nodes, base, index, v, indexes, n);
    }

    /** Makes sure that there are five arguments. */
    method PadArguments(first: nat, ghost arguments: seq<nat>) returns (fifth: nat, ghost items: seq<nat>)
      requires arguments != [] && Distinct(arguments) && Linked(nodes, To(first), arguments, Null)
      modifies this`nodes
      ensures Padded(old(nodes), nodes, arguments, items) && |items| >= 5 && (|items| > 5 ==> items == arguments)
      ensures Linked(nodes, To(first), items, Null) && fifth == items[4]
    {
      items := arguments;
      var count := 1;
      fifth := first;
      while count < 5
        invariant 1 <= count <= 5 && count <= |items| && fifth == items[count - 1]
        invariant Padded(old(nodes), nodes, arguments, items) && (|items| > count ==> items == arguments)
        invariant Linked(nodes, To(first), items, Null)
      {
        hide Padded, Linked;
        LinkedParts(nodes, To(first), items, count - 1);
        if nodes[fifth].next == Null {
          ghost var before := nodes;
          var pad := NewNode(NilKind, Null);
          nodes := nodes[fifth := nodes[fifth].(next := To(pad))];
          PadOne(old(nodes), before, first, arguments, items, nodes);
          items := items + [pad];
        }
        fifth := nodes[fifth].next.id;
        LinkedParts(nodes, To(first), items, count - 1);
        count := count + 1;
      }
    }

    /** Cuts the name at the first '[', counting from the second character. */
    method CutName(id: nat)
      requires id < |nodes|
      modifies this`nodes
      ensures |nodes| == |old(nodes)| && Cut(old(nodes[id].text), nodes[id].text)
      ensures nodes == old(nodes)[id := old(nodes[id]).(text := nodes[id].text)]
    {
      var text := nodes[id].text;
      var i := 1;
      while i < |text|
        invariant 1 <= i && nodes == old(nodes)
        invariant forall k :: 1 <= k < i && k < |text| ==> text[k] != '['
      {
        if text[i] == '[' {
          nodes := nodes[id := nodes[id].(text := text[..i])];
          break;
        }
        i := i + 1;
      }
    }

    /** Puts a codeblock of the variable in the place of the first argument and makes the array of
        its indexes. */
    method ReplaceFirst(parms: nat, ghost v: nat, ghost indexes: seq<nat>, ghost arguments: seq<nat>)
      returns (first: nat, array_: nat, ghost head: Ptr)
      requires Call(nodes, parms, v, indexes, arguments)
      modifies this`nodes
      ensures arguments != [] && Stage(old(nodes), nodes, parms, v, indexes, arguments, first, head, array_, [first] + arguments[1..])
    {
      hide Call, Linked, OnlyLinks, Stage, Contents;
      ghost var was := nodes;
      CallParts(nodes, parms, v, indexes, arguments);
      var arg := nodes[parms].first.id;
      var base, index := CollectIndexes(arg, v, indexes);
      ghost var collected := nodes;
      CollectedParts(was, collected, parms, v, indexes, arguments);
      if nodes[base].kind == MacroKind {
        first := NewNode(NilKind, Null);
      } else {
        first := NewNode(CodeblockKind, To(base));
      }
      nodes := nodes[parms := nodes[parms].(first := To(first))];
      nodes := nodes[first := nodes[first].(next := nodes[arg].next)];
      array_ := NewNode(ArrayKind, To(index));
      head := To(index);
      FirstReplaced(was, collected, parms, v, indexes, arguments, index, nodes);
    }

    /** Puts the array behind the fifth argument, in the place of a sixth one. */
    method ReplaceSixth(fifth: nat, array_: nat, ghost first: nat, ghost items: seq<nat>)
      requires |items| >= 5 && items[4] == fifth && Linked(nodes, To(first), items, Null)
      requires fifth < |nodes| && array_ < |nodes| && array_ !in items && nodes[array_].next == Null
      modifies this`nodes
      ensures SixthLinked(old(nodes), nodes, fifth, array_, PtrAt(items, 6, Null))
    {
      hide Linked;
      LinkedParts(nodes, To(first), items, 4);
      if nodes[fifth].next != Null {
        LinkedParts(nodes, To(first), items, 5);
        nodes := nodes[array_ := nodes[array_].(next := nodes[nodes[fifth].next.id].next)];
      }
      nodes := nodes[fifth := nodes[fifth].(next := To(array_))];
    }

    /** The branch of hb_compExprNewFunCall for _GET_ with a variable that is an array element. */
    method GetA(parms: nat, ghost v: nat, ghost indexes: seq<nat>, ghost arguments: seq<nat>) returns (ghost items: seq<nat>)
      requires Call(nodes, parms, v, indexes, arguments)
      modifies this
      ensures functionName == "__GETA"
      ensures parms < |old(nodes)| && v < |old(nodes)| && Rewritten(old(nodes), nodes, parms, v, indexes, arguments, items, true)
    {
      hide Call, Linked, OnlyLinks, Padded, Stage, Rewritten, Contents, SixthLinked, SetBlock, Cut;
      functionName := "__GETA";
      ghost var was := nodes;
      var first, array_, head := ReplaceFirst(parms, v, indexes, arguments);
      ghost var given, replaced := [first] + arguments[1..], nodes;
      StageParts(was, nodes, parms, v, indexes, arguments, first, head, array_, given);
      var fifth;
      fifth, items := PadArguments(first, given);
      ghost var padded := nodes;
      StagePadded(was, replaced, parms, v, indexes, arguments, first, head, array_, given, items, nodes);
      StageParts(was, nodes, parms, v, indexes, arguments, first, head, array_, items);
      ReplaceSixth(fifth, array_, first, items);
      SixthReplaced(was, padded, parms, v, indexes, arguments, first, head, array_, items, nodes);
      items := items[..5] + [array_] + if |items| > 6 then items[6..] else [];
      SecondArgument(was, nodes, parms, v, indexes, arguments, items);
      var name := nodes[nodes[parms].first.id].next.id;
      if nodes[name].kind == StringKind {
        ghost var before := nodes;
        CutName(name);
        NameCut(was, before, parms, v, indexes, arguments, items, nodes);
      }
    }
  }

  // ---------------------------------------------------------------- the call before and after

  /** The argument list of a call whose first argument is v[ i1 ]..[ in ]. */
  ghost predicate Call(ns: Pool, parms: nat, v: nat, indexes: seq<nat>, arguments: seq<nat>) {
    && parms < |ns| && arguments != [] && indexes != []
    && Linked(ns, ns[parms].first, arguments, Null) && Spine(ns, arguments[0], v, indexes)
    && Distinct([parms] + arguments + indexes)
  }

  /** The argument list of the new call; cut tells whether the name has lost its indexes. */
  ghost predicate Rewritten(was: Pool, ns: Pool, parms: nat, v: nat, indexes: seq<nat>, arguments: seq<nat>, items: seq<nat>, cut: bool)
    requires parms < |was| && v < |was|
  {
    && Contents(was, ns, parms, indexes, arguments, cut)
    && |items| == (if |arguments| < 6 then 6 else |arguments|)
    && Linked(ns, ns[parms].first, items, Null)
    && SetBlock(was, ns, v, items[0])
    && (forall k :: 1 <= k < |items| && k != 5 ==> Argument(was, ns, arguments, items, k))
    && items[5] < |ns| && ns[items[5]].kind == ArrayKind && Linked(ns, ns[items[5]].first, indexes, Null)
  }

  /** The first argument: a codeblock of the variable, or NIL for a macro. */
  predicate SetBlock(was: Pool, ns: Pool, v: nat, first: nat)
    requires v < |was|
  {
    first < |ns| && if was[v].kind == MacroKind then ns[first].kind == NilKind else ns[first].kind == CodeblockKind && ns[first].first == To(v)
  }

  /** An argument that is not replaced is the given one, or NIL if none was given. */
  predicate Argument(was: Pool, ns: Pool, arguments: seq<nat>, items: seq<nat>, k: nat)
    requires k < |items|
  {
    if k < |arguments| then items[k] == arguments[k] else |was| <= items[k] < |ns| && ns[items[k]].kind == NilKind
  }

  /** What the old nodes hold: only the list node starts elsewhere, only the given nodes have other
      links, and only the second argument, when it is a string, may have been cut. */
  ghost predicate Contents(was: Pool, ns: Pool, parms: nat, indexes: seq<nat>, arguments: seq<nat>, cut: bool) {
    |was| <= |ns| && forall k :: 0 <= k < |was| ==>
      if k == parms then ns[k] == was[k].(first := ns[k].first)
      else if cut && |arguments| > 1 && k == arguments[1] && was[k].kind == StringKind then
        ns[k] == was[k].(next := ns[k].next, text := ns[k].text) && Cut(was[k].text, ns[k].text)
      else ns[k] == was[k].(next := ns[k].next) && (k !in indexes && k !in arguments ==> ns[k] == was[k])
  }

  lemma CallParts(ns: Pool, parms: nat, v: nat, indexes: seq<nat>, arguments: seq<nat>)
    requires Call(ns, parms, v, indexes, arguments)
    ensures parms < |ns| && arguments != [] && indexes != [] && v < |ns|
    ensures ns[parms].first == To(arguments[0]) && forall k :: 0 <= k < |arguments| ==> arguments[k] < |ns|
    ensures Spine(ns, arguments[0], v, indexes) && Distinct(indexes) && Distinct(arguments)
    ensures parms !in indexes && parms !in arguments
    ensures forall k :: k in indexes ==> k < |ns| && k !in arguments
  {
    SpineBase(ns, arguments[0], v, indexes);
    var all := [parms] + arguments + indexes;
    assert forall i :: 0 <= i < |indexes| ==> indexes[i] == all[1 + |arguments| + i];
    assert forall i :: 0 <= i < |arguments| ==> arguments[i] == all[1 + i];
    assert all[0] == parms;
  }

  lemma {:induction false} SpineBase(ns: Pool, id: nat, v: nat, indexes: seq<nat>)
    requires Spine(ns, id, v, indexes)
    ensures v < |ns| && forall k :: 0 <= k < |indexes| ==> indexes[k] < |ns|
    decreases |indexes|
  {
    if indexes != [] {
      var rest := indexes[..|indexes| - 1];
      SpineBase(ns, ns[id].first.id, v, rest);
      assert forall k :: 0 <= k < |rest| ==> indexes[k] == rest[k];
    }
  }

  lemma CollectedParts(was: Pool, ns: Pool, parms: nat, v: nat, indexes: seq<nat>, arguments: seq<nat>)
    requires Call(was, parms, v, indexes, arguments) && OnlyLinks(was, ns, indexes)
    ensures parms < |was| <= |ns| && v < |was| && arguments != [] && arguments[0] < |was|
    ensures ns[parms] == was[parms] && ns[v].kind == was[v].kind && ns[arguments[0]] == was[arguments[0]]
  {
    CallParts(was, parms, v, indexes, arguments);
  }

  /** Between the replacement of the first argument and that of the sixth. */
  ghost predicate Stage(was: Pool, ns: Pool, parms: nat, v: nat, indexes: seq<nat>, arguments: seq<nat>, first: nat, head: Ptr, array_: nat,
      items: seq<nat>) {
    && Call(was, parms, v, indexes, arguments) && parms < |was| && v < |was|
    && Contents(was, ns, parms, indexes, arguments, false) && ns[parms].first == To(first)
    && |arguments| <= |items| && items[0] == first && |was| <= first && Distinct(items) && Linked(ns, To(first), items, Null)
    && SetBlock(was, ns, v, first)
    && (forall k :: 1 <= k < |items| ==> Argument(was, ns, arguments, items, k))
    && |was| <= array_ < |ns| && array_ !in items && ns[array_].kind == ArrayKind && ns[array_].first == head && ns[array_].next == Null
    && Linked(ns, head, indexes, Null)
  }

  lemma StageParts(was: Pool, ns: Pool, parms: nat, v: nat, indexes: seq<nat>, arguments: seq<nat>, first: nat, head: Ptr, array_: nat,
      items: seq<nat>)
    requires Stage(was, ns, parms, v, indexes, arguments, first, head, array_, items)
    ensures items != [] && items[0] == first && Distinct(items) && Linked(ns, To(first), items, Null)
    ensures array_ < |ns| && array_ !in items && ns[array_].next == Null && forall k :: 0 <= k < |items| ==> items[k] < |ns|
  {
  }

  /** The first argument has been replaced, and the array of the indexes has been made. */
  ghost predicate Exchanged(ns: Pool, ms: Pool, parms: nat, arg: nat, head: nat) {
    |ms| == |ns| + 2 && parms < |ns| && arg < |ns|
    && ms[|ns|].next == ns[arg].next && ms[parms] == ns[parms].(first := To(|ns|))
    && ms[|ns| + 1] == Node(ArrayKind, To(head), Null, "", Null)
    && forall k :: 0 <= k < |ns| && k != parms ==> ms[k] == ns[k]
  }

  lemma FirstReplaced(was: Pool, ns: Pool, parms: nat, v: nat, indexes: seq<nat>, arguments: seq<nat>, head: nat, ms: Pool)
    requires Call(was, parms, v, indexes, arguments) && OnlyLinks(was, ns, indexes) && Linked(ns, To(head), indexes, Null)
    requires arguments != [] && Exchanged(ns, ms, parms, arguments[0], head) && v < |was| && SetBlock(was, ms, v, |ns|)
    ensures Stage(was, ms, parms, v, indexes, arguments, |ns|, To(head), |ns| + 1, [|ns|] + arguments[1..])
  {
    hide Linked, OnlyLinks, SetBlock, Contents, Distinct, Call;
    CallParts(was, parms, v, indexes, arguments);
    var items := [|ns|] + arguments[1..];
    OnlyGrows(was, ns, indexes);
    assert Distinct(items) by { DistinctFirst(|ns|, arguments, |was|); }
    assert Contents(was, ms, parms, indexes, arguments, false) by { ExchangedContents(was, ns, parms, indexes, arguments, head, ms); }
    assert Linked(ms, To(|ns|), items, Null) by { ExchangedArguments(was, ns, parms, v, indexes, arguments, head, ms); }
    assert Linked(ms, To(head), indexes, Null) by {
      LinkedInside(ns, To(head), indexes);
      LinkedFrame(ns, ms, To(head), indexes);
    }
  }

  lemma OnlyGrows(ns: Pool, ms: Pool, ids: seq<nat>)
    requires OnlyLinks(ns, ms, ids)
    ensures |ns| <= |ms|
  {
  }

  lemma DistinctFirst(first: nat, ids: seq<nat>, size: nat)
    requires ids != [] && Distinct(ids) && size <= first && forall k :: 0 <= k < |ids| ==> ids[k] < size
    ensures Distinct([first] + ids[1..])
  {
  }

  lemma ExchangedContents(was: Pool, ns: Pool, parms: nat, indexes: seq<nat>, arguments: seq<nat>, head: nat, ms: Pool)
    requires OnlyLinks(was, ns, indexes) && arguments != [] && Exchanged(ns, ms, parms, arguments[0], head) && parms !in indexes
    ensures Contents(was, ms, parms, indexes, arguments, false)
  {
  }

  lemma ExchangedArguments(was: Pool, ns: Pool, parms: nat, v: nat, indexes: seq<nat>, arguments: seq<nat>, head: nat, ms: Pool)
    requires Call(was, parms, v, indexes, arguments) && OnlyLinks(was, ns, indexes)
    requires arguments != [] && Exchanged(ns, ms, parms, arguments[0], head)
    ensures Linked(ms, To(|ns|), [|ns|] + arguments[1..], Null)
  {
    CallParts(was, parms, v, indexes, arguments);
    var items := [|ns|] + arguments[1..];
    forall k | 0 <= k < |items| ensures items[k] < |ms| && ms[items[k]].next == PtrAt(items, k + 1, Null) {
      assert was[arguments[k]].next == PtrAt(arguments, k + 1, Null);
      assert ns[arguments[k]] == was[arguments[k]];
    }
  }

  lemma LinkedInside(ns: Pool, head: Ptr, ids: seq<nat>)
    requires Linked(ns, head, ids, Null)
    ensures forall k :: k in ids ==> k < |ns|
  {
  }

  lemma LinkedFrame(ns: Pool, ms: Pool, head: Ptr, ids: seq<nat>)
    requires |ns| <= |ms| && Linked(ns, head, ids, Null)
    requires forall k :: k in ids && k < |ns| ==> ms[k].next == ns[k].next
    ensures Linked(ms, head, ids, Null)
  {
  }

  /** Changing links of arguments only changes what may change. */
  lemma ContentsLinks(was: Pool, ns: Pool, ms: Pool, parms: nat, indexes: seq<nat>, arguments: seq<nat>)
    requires Contents(was, ns, parms, indexes, arguments, false) && |ns| <= |ms|
    requires forall k :: 0 <= k < |was| ==> ms[k] == ns[k].(next := ms[k].next) && (k !in arguments ==> ms[k] == ns[k])
    requires parms !in arguments
    ensures Contents(was, ms, parms, indexes, arguments, false)
  {
  }

  lemma StagePadded(was: Pool, ns: Pool, parms: nat, v: nat, indexes: seq<nat>, arguments: seq<nat>, first: nat, head: Ptr, array_: nat,
      given: seq<nat>, items: seq<nat>, ms: Pool)
    requires Stage(was, ns, parms, v, indexes, arguments, first, head, array_, given)
    requires Padded(ns, ms, given, items) && Linked(ms, To(first), items, Null) && |given| == |arguments|
    ensures Stage(was, ms, parms, v, indexes, arguments, first, head, array_, items)
  {
    hide Linked, Contents, Call, Distinct;
    CallParts(was, parms, v, indexes, arguments);
    assert |was| <= |ns| by { ContentsGrows(was, ns, parms, indexes, arguments); }
    forall k | k in given ensures k in arguments || k == first {
      var i :| 0 <= i < |given| && given[i] == k;
      if i > 0 { assert Argument(was, ns, arguments, given, i); }
    }
    assert Contents(was, ms, parms, indexes, arguments, false) by { ContentsLinks(was, ns, ms, parms, indexes, arguments); }
    assert Linked(ms, head, indexes, Null) by { LinkedFrame(ns, ms, head, indexes); }
    forall k | 1 <= k < |items| ensures Argument(was, ms, arguments, items, k) {
      if k < |given| { assert Argument(was, ns, arguments, given, k); }
    }
  }

  lemma ContentsGrows(was: Pool, ns: Pool, parms: nat, indexes: seq<nat>, arguments: seq<nat>)
    requires Contents(was, ns, parms, indexes, arguments, false)
    ensures |was| <= |ns|
  {
  }

  lemma SixthReplaced(was: Pool, ns: Pool, parms: nat, v: nat, indexes: seq<nat>, arguments: seq<nat>, first: nat, head: Ptr, array_: nat,
      items: seq<nat>, ms: Pool)
    requires Stage(was, ns, parms, v, indexes, arguments, first, head, array_, items) && |items| >= 5 && (|items| > 5 ==> |items| == |arguments|)
    requires array_ < |ns| && items[4] < |ns| && items[4] != array_
    requires SixthLinked(ns, ms, items[4], array_, PtrAt(items, 6, Null))
    ensures parms < |was| && v < |was|
    ensures Rewritten(was, ms, parms, v, indexes, arguments, items[..5] + [array_] + (if |items| > 6 then items[6..] else []), false)
  {
    hide Linked, Contents, Call, Distinct;
    CallParts(was, parms, v, indexes, arguments);
    assert items[4] in arguments || |was| <= items[4] by {
      assert Argument(was, ns, arguments, items, 4);
    }
    assert Contents(was, ms, parms, indexes, arguments, false) by {
      ContentsGrows(was, ns, parms, indexes, arguments);
      ContentsLinks(was, ns, ms, parms, indexes, arguments);
    }
    assert ms[parms].first == To(first) && SetBlock(was, ms, v, first);
    assert Linked(ms, head, indexes, Null) by { LinkedFrame(ns, ms, head, indexes); }
    var all := items[..5] + [array_] + (if |items| > 6 then items[6..] else []);
    LinkedSixth(ns, ms, first, array_, items, all);
    forall k | 1 <= k < |all| && k != 5 ensures Argument(was, ms, arguments, all, k) {
      assert all[k] == items[k] && Argument(was, ns, arguments, items, k);
    }
  }

  /** The array has been linked in behind the fifth argument. */
  ghost predicate SixthLinked(ns: Pool, ms: Pool, fifth: nat, array_: nat, next: Ptr)
    requires fifth < |ns| && array_ < |ns|
  {
    |ms| == |ns| && ms[fifth] == ns[fifth].(next := To(array_)) && ms[array_] == ns[array_].(next := next)
    && forall k :: 0 <= k < |ns| && k != fifth && k != array_ ==> ms[k] == ns[k]
  }

  lemma LinkedSixth(ns: Pool, ms: Pool, first: nat, array_: nat, items: seq<nat>, all: seq<nat>)
    requires Linked(ns, To(first), items, Null) && Distinct(items) && |items| >= 5 && array_ < |ns| == |ms| && array_ !in items
    requires all == items[..5] + [array_] + (if |items| > 6 then items[6..] else [])
    requires items[4] < |ns| && SixthLinked(ns, ms, items[4], array_, PtrAt(items, 6, Null))
    ensures Linked(ms, To(first), all, Null)
  {
    assert all[0] == items[0] == first;
    forall k | 0 <= k < |all| ensures all[k] < |ms| && ms[all[k]].next == PtrAt(all, k + 1, Null) {
      if k == 4 {
        assert PtrAt(all, 5, Null) == To(array_);
      } else if k == 5 {
        assert PtrAt(all, 6, Null) == PtrAt(items, 6, Null);
      } else {
        assert all[k] == items[k] && PtrAt(all, k + 1, Null) == PtrAt(items, k + 1, Null);
        assert ns[items[k]].next == PtrAt(items, k + 1, Null);
      }
    }
  }

  lemma SecondArgument(was: Pool, ns: Pool, parms: nat, v: nat, indexes: seq<nat>, arguments: seq<nat>, items: seq<nat>)
    requires parms < |was| && v < |was| && Rewritten(was, ns, parms, v, indexes, arguments, items, false)
    ensures |items| > 1 && parms < |ns| && ns[parms].first == To(items[0]) && items[0] < |ns| && ns[items[0]].next == To(items[1]) && items[1] < |ns|
    ensures ns[items[1]].kind == StringKind ==> |arguments| > 1 && items[1] == arguments[1]
    ensures ns[items[1]].kind != StringKind ==> Rewritten(was, ns, parms, v, indexes, arguments, items, true)
  {
    LinkedParts(ns, ns[parms].first, items, 0);
    LinkedParts(ns, ns[parms].first, items, 1);
    assert Argument(was, ns, arguments, items, 1);
  }

  lemma NameCut(was: Pool, ns: Pool, parms: nat, v: nat, indexes: seq<nat>, arguments: seq<nat>, items: seq<nat>, ms: Pool)
    requires Call(was, parms, v, indexes, arguments)
    requires parms < |was| && v < |was| && Rewritten(was, ns, parms, v, indexes, arguments, items, false)
    requires |arguments| > 1 && |items| > 1 && items[1] == arguments[1] && items[1] < |ns| == |ms| && ns[items[1]].kind == StringKind
    requires ms == ns[items[1] := ns[items[1]].(text := ms[items[1]].text)] && Cut(ns[items[1]].text, ms[items[1]].text)
    ensures Rewritten(was, ms, parms, v, indexes, arguments, items, true)
  {
    hide Linked, Contents, Call, Distinct, Cut;
    ContentsGrows(was, ns, parms, indexes, arguments);
    CallParts(was, parms, v, indexes, arguments);
    assert ms[parms] == ns[parms] && forall k :: 0 <= k < |ns| ==> ms[k].kind == ns[k].kind && ms[k].next == ns[k].next && ms[k].first == ns[k].first;
    assert Linked(ms, ms[parms].first, items, Null) by { LinkedFrame(ns, ms, ns[parms].first, items); }
    assert Linked(ms, ms[items[5]].first, indexes, Null) by { LinkedFrame(ns, ms, ns[items[5]].first, indexes); }
    assert Contents(was, ms, parms, indexes, arguments, true) by { ContentsCut(was, ns, parms, indexes, arguments, ms); }
    forall k | 1 <= k < |items| && k != 5 ensures Argument(was, ms, arguments, items, k) {
      assert Argument(was, ns, arguments, items, k);
    }
  }

  lemma ContentsCut(was: Pool, ns: Pool, parms: nat, indexes: seq<nat>, arguments: seq<nat>, ms: Pool)
    requires Contents(was, ns, parms, indexes, arguments, false) && |arguments| > 1 && parms !in arguments
    requires arguments[1] < |was| && arguments[1] < |ns| == |ms| && ns[arguments[1]].kind == StringKind
    requires ms == ns[arguments[1] := ns[arguments[1]].(text := ms[arguments[1]].text)] && Cut(ns[arguments[1]].text, ms[arguments[1]].text)
    ensures Contents(was, ms, parms, indexes, arguments, true)
  {
    assert parms != arguments[1];
  }

  // ---------------------------------------------------------------- the walk

  /** The state of the walk when n indexes are left. */
  ghost predicate Walked(was: Pool, ns: Pool, base: nat, index: nat, v: nat, indexes: seq<nat>, n: nat) {
    n < |indexes| && base < |ns| && Distinct(indexes)
    && Spine(ns, base, v, indexes[..n]) && OnlyLinks(was, ns, indexes) && Linked(ns, To(index), indexes[n..], Null)
  }

  lemma SpineParts(ns: Pool, id: nat, v: nat, indexes: seq<nat>)
    requires Spine(ns, id, v, indexes) && indexes != []
    ensures id < |ns| && ns[id].first.To? && ns[id].index == To(indexes[|indexes| - 1]) && indexes[|indexes| - 1] < |ns|
    ensures ns[id].first.id < |ns|
  {
  }

  lemma WalkedStart(was: Pool, ns: Pool, arg: nat, v: nat, indexes: seq<nat>)
    requires indexes != [] && Distinct(indexes) && Spine(was, arg, v, indexes)
    requires var last := indexes[|indexes| - 1];
      last < |was| && ns == was[last := was[last].(next := Null)]
    ensures arg < |was| && was[arg].first.To?
    ensures Walked(was, ns, was[arg].first.id, indexes[|indexes| - 1], v, indexes, |indexes| - 1)
  {
    var n := |indexes| - 1;
    assert indexes[n..] == [indexes[n]];
    SpineFrame(was, ns, indexes, was[arg].first.id, v, indexes[..n]);
  }

  lemma WalkedEnd(was: Pool, ns: Pool, base: nat, index: nat, v: nat, indexes: seq<nat>, n: nat)
    requires Walked(was, ns, base, index, v, indexes, n) && base < |ns| && ns[base].kind != ArrayAtKind
    ensures base == v && v < |ns| && OnlyLinks(was, ns, indexes) && Linked(ns, To(index), indexes, Null)
  {
    assert indexes[0..] == indexes;
  }

  lemma WalkedParts(was: Pool, ns: Pool, base: nat, index: nat, v: nat, indexes: seq<nat>, n: nat)
    requires Walked(was, ns, base, index, v, indexes, n)
    ensures n < |indexes| && base < |ns|
    ensures ns[base].kind == ArrayAtKind <==> n > 0
    ensures n > 0 ==> ns[base].index == To(indexes[n - 1]) && indexes[n - 1] < |ns| && ns[base].first.To?
  {
  }

  lemma WalkedStep(was: Pool, ns: Pool, base: nat, index: nat, v: nat, indexes: seq<nat>, n: nat, ms: Pool)
    requires Walked(was, ns, base, index, v, indexes, n + 1) && indexes[n] < |ns|
    requires ms == ns[indexes[n] := ns[indexes[n]].(next := To(index))]
    ensures base < |ms| && ms[base].first == ns[base].first && ms[base].first.To?
    ensures Walked(was, ms, ms[base].first.id, indexes[n], v, indexes, n)
  {
    var rest := indexes[n + 1..];
    assert indexes[n..] == [indexes[n]] + rest;
    assert indexes[..n + 1][..n] == indexes[..n];
    assert OnlyLinks(was, ms, indexes);
    SpineStep(ns, base, v, indexes[..n + 1]);
    SpineFrame(ns, ms, indexes, ns[base].first.id, v, indexes[..n]);
    LinkedFirst(ns, ms, indexes[n], rest);
  }

  lemma SpineStep(ns: Pool, id: nat, v: nat, indexes: seq<nat>)
    requires Spine(ns, id, v, indexes) && indexes != []
    ensures id < |ns| && ns[id].first.To? && Spine(ns, ns[id].first.id, v, indexes[..|indexes| - 1])
  {
  }

  lemma LinkedFirst(ns: Pool, ms: Pool, id: nat, ids: seq<nat>)
    requires ids != [] && id !in ids && id < |ns| && Linked(ns, To(ids[0]), ids, Null)
    requires ms == ns[id := ns[id].(next := To(ids[0]))]
    ensures Linked(ms, To(id), [id] + ids, Null)
  {
    var all := [id] + ids;
    forall k | 0 <= k < |all| ensures all[k] < |ms| && ms[all[k]].next == PtrAt(all, k + 1, Null) {
      if k > 0 { assert ms[ids[k - 1]].next == PtrAt(ids, k, Null); }
    }
  }

  lemma LinkedParts(ns: Pool, head: Ptr, ids: seq<nat>, k: nat)
    requires Linked(ns, head, ids, Null) && k < |ids|
    ensures head == To(ids[0]) && ids[k] < |ns|
    ensures ns[ids[k]].next == PtrAt(ids, k + 1, Null)
  {
  }

  // ---------------------------------------------------------------- padding

  /** NIL nodes have been added behind the arguments. */
  ghost predicate Padded(was: Pool, ns: Pool, arguments: seq<nat>, items: seq<nat>) {
    |was| <= |ns| && arguments <= items && Distinct(items) && OnlyLinks(was, ns, arguments)
    && (forall k :: 0 <= k < |items| ==> items[k] < |ns|)
    && forall k :: |arguments| <= k < |items| ==> |was| <= items[k] && ns[items[k]].kind == NilKind
  }

  lemma PadOne(was: Pool, ns: Pool, first: nat, arguments: seq<nat>, items: seq<nat>, ms: Pool)
    requires arguments != [] && Padded(was, ns, arguments, items) && Linked(ns, To(first), items, Null)
    requires var last := items[|items| - 1];
      last < |ns| && ms == (ns + [Node(NilKind, Null, Null, "", Null)])[last := ns[last].(next := To(|ns|))]
    ensures Padded(was, ms, arguments, items + [|ns|]) && Linked(ms, To(first), items + [|ns|], Null)
  {
    var n, last := |ns|, items[|items| - 1];
    assert ms[n] == Node(NilKind, Null, Null, "", Null) && ms[last] == ns[last].(next := To(n));
    assert last in arguments || |was| <= last;
    PadLinked(ns, first, items, ms);
    PadKinds(was, ns, arguments, items, ms);
  }

  lemma PadLinked(ns: Pool, first: nat, items: seq<nat>, ms: Pool)
    requires items != [] && Distinct(items) && Linked(ns, To(first), items, Null)
    requires var last := items[|items| - 1];
      && |ms| == |ns| + 1 && last < |ns| && ms[|ns|].next == Null && ms[last].next == To(|ns|)
      && forall k :: 0 <= k < |ns| && k != last ==> ms[k] == ns[k]
    ensures Linked(ms, To(first), items + [|ns|], Null)
  {
    var all := items + [|ns|];
    forall k | 0 <= k < |all| ensures all[k] < |ms| && ms[all[k]].next == PtrAt(all, k + 1, Null) {
      if k < |items| { assert ns[items[k]].next == PtrAt(items, k + 1, Null); }
    }
  }

  lemma PadKinds(was: Pool, ns: Pool, arguments: seq<nat>, items: seq<nat>, ms: Pool)
    requires items != [] && Padded(was, ns, arguments, items)
    requires var last := items[|items| - 1];
      && |ms| == |ns| + 1 && last < |ns| && ms[|ns|].kind == NilKind && ms[last] == ns[last].(next := To(|ns|))
      && (last in arguments || |was| <= last)
      && forall k :: 0 <= k < |ns| && k != last ==> ms[k] == ns[k]
    ensures Padded(was, ms, arguments, items + [|ns|])
  {
    hide Linked;
    assert OnlyLinks(was, ms, arguments);
    assert Distinct(items + [|ns|]);
  }
}
