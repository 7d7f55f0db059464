/** The scraped-offers screen's grouping: a reduce over the (already filtered)
    offers into one group per `catalog_id`, followed by `Object.values` on the
    accumulator object. */
module Grouping {
  import opened Wrappers
  import opened Entities

  /** One catalog product with every offer for it, as the reducer builds it. */
  datatype Group = Group(
    catalog_id: string,
    catalog_name: Option<string>,
    catalog_sku: Option<string>,
    category_name: Option<string>,
    brand_name: Option<string>,
    stores: seq<ScrapedOffer>)

  /** The group's header fields are those of offer `o`. */
  predicate HeadedBy(g: Group, o: ScrapedOffer) {
    && g.catalog_id == o.catalog_id
    && g.catalog_name == o.catalog_name
    && g.catalog_sku == o.catalog_sku
    && g.category_name == o.category_name
    && g.brand_name == o.brand_name
  }

  /** The catalog ids of the groups, in accumulator order. */
  function Keys(gs: seq<Group>): (ks: seq<string>)
    ensures |ks| == |gs|
    ensures forall i :: 0 <= i < |gs| ==> ks[i] == gs[i].catalog_id
  {
    seq(|gs|, i requires 0 <= i < |gs| => gs[i].catalog_id)
  }

  /** `acc[key]` on the accumulator: the position of the group for `key`, or `|gs|` when there is none yet. */
  function FindGroup(gs: seq<Group>, key: string): (i: nat)
    ensures i <= |gs|
    ensures i < |gs| ==> gs[i].catalog_id == key
    ensures forall j :: 0 <= j < i ==> gs[j].catalog_id != key
    ensures i == |gs| <==> key !in Keys(gs)
  {
    if gs == [] then 0
    else if gs[0].catalog_id == key then 0
    else
      var i := 1 + FindGroup(gs[1..], key);
      assert Keys(gs) == [gs[0].catalog_id] + Keys(gs[1..]);
      i
  }

  /** `acc[key].stores.push(o)` on the group at position `i`. */
  function Pushed(gs: seq<Group>, i: nat, o: ScrapedOffer): (r: seq<Group>)
    requires i < |gs|
    ensures |r| == |gs| && Keys(r) == Keys(gs)
  {
    var r := gs[i := gs[i].(stores := gs[i].stores + [o])];
    assert Keys(r) == Keys(gs);
    r
  }

  /** The group created on first sight of `o`'s catalog id, headed by `o`. */
  function NewGroup(o: ScrapedOffer): (g: Group)
    ensures HeadedBy(g, o) && g.stores == [o]
  {
    Group(o.catalog_id, o.catalog_name, o.catalog_sku, o.category_name, o.brand_name, [o])
  }

  /** One step of the reducer: a new group headed by `o` is created on first sight of its
      `catalog_id`, and `o` is pushed onto that group's offers. */
  function AddRow(gs: seq<Group>, o: ScrapedOffer): (r: seq<Group>)
    ensures Keys(r) == if o.catalog_id in Keys(gs) then Keys(gs) else Keys(gs) + [o.catalog_id]
  {
    var i := FindGroup(gs, o.catalog_id);
    if i < |gs| then
      Pushed(gs, i, o)
    else
      var r := gs + [NewGroup(o)];
      assert Keys(r) == Keys(gs) + [o.catalog_id];
      r
  }

  /** `offers.reduce(step, {})`, the accumulator's groups in creation order. */
  function GroupRows(rows: seq<ScrapedOffer>): seq<Group>
    decreases |rows|
  {
    if rows == [] then [] else AddRow(GroupRows(rows[..|rows| - 1]), rows[|rows| - 1])
  }

  // ---- the independent description of a grouping ----

  /** The offers for `key`, in their original order. */
  function RowsWithKey(rows: seq<ScrapedOffer>, key: string): seq<ScrapedOffer> {
    if rows == [] then []
    else (if rows[0].catalog_id == key then [rows[0]] else []) + RowsWithKey(rows[1..], key)
  }

  /** The position of the first offer for `key`, or `|rows|` when there is none. */
  function FirstIndex(rows: seq<ScrapedOffer>, key: string): nat {
    if rows == [] then 0
    else if rows[0].catalog_id == key then 0
    else 1 + FirstIndex(rows[1..], key)
  }

  predicate DistinctKeys(gs: seq<Group>) {
    forall i, j :: 0 <= i < j < |gs| ==> gs[i].catalog_id != gs[j].catalog_id
  }

  /** Every offer's catalog id has a group. */
  predicate Covers(gs: seq<Group>, rows: seq<ScrapedOffer>) {
    forall k :: 0 <= k < |rows| ==> rows[k].catalog_id in Keys(gs)
  }

  /** Each group holds exactly the offers with its id, in their original order, and is headed by the first of them. */
  predicate ExactGroups(gs: seq<Group>, rows: seq<ScrapedOffer>) {
    forall i :: 0 <= i < |gs| ==>
      && gs[i].stores == RowsWithKey(rows, gs[i].catalog_id)
      && gs[i].stores != []
      && HeadedBy(gs[i], gs[i].stores[0])
      && FirstIndex(rows, gs[i].catalog_id) < |rows|
  }

  /** Groups are ordered by the first appearance of their ids. */
  predicate FirstSeenOrder(gs: seq<Group>, rows: seq<ScrapedOffer>) {
    forall i, j :: 0 <= i < j < |gs| ==> FirstIndex(rows, gs[i].catalog_id) < FirstIndex(rows, gs[j].catalog_id)
  }

  /** `gs` groups `rows` by catalog id: one group per distinct id, in first-seen order,
      each holding exactly the offers with its id in their original order and headed
      by the first of them. */
  predicate IsGroupingOf(gs: seq<Group>, rows: seq<ScrapedOffer>) {
    DistinctKeys(gs) && Covers(gs, rows) && ExactGroups(gs, rows) && FirstSeenOrder(gs, rows)
  }

  lemma {:induction false} RowsWithKeySnoc(rows: seq<ScrapedOffer>, o: ScrapedOffer, key: string)
    ensures RowsWithKey(rows + [o], key) == RowsWithKey(rows, key) + (if o.catalog_id == key then [o] else [])
    decreases |rows|
  {
    if rows == [] {
      assert rows + [o] == [o];
    } else {
      var head := if rows[0].catalog_id == key then [rows[0]] else [];
      var last := if o.catalog_id == key then [o] else [];
      assert (rows + [o])[0] == rows[0];
      assert (rows + [o])[1..] == rows[1..] + [o];
      RowsWithKeySnoc(rows[1..], o, key);
      assert RowsWithKey(rows + [o], key) == head + (RowsWithKey(rows[1..], key) + last);
      assert head + (RowsWithKey(rows[1..], key) + last) == (head + RowsWithKey(rows[1..], key)) + last;
    }
  }

  lemma {:induction false} FirstIndexSnoc(rows: seq<ScrapedOffer>, o: ScrapedOffer, key: string)
    ensures FirstIndex(rows + [o], key)
         == if FirstIndex(rows, key) < |rows| then FirstIndex(rows, key)
            else if o.catalog_id == key then |rows| else |rows| + 1
    decreases |rows|
  {
    if rows == [] {
      assert rows + [o] == [o];
    } else {
      assert (rows + [o])[1..] == rows[1..] + [o];
      FirstIndexSnoc(rows[1..], o, key);
    }
  }

  /** A key no offer carries has no offers, and its first index is past the end. */
  lemma {:induction false} AbsentKey(rows: seq<ScrapedOffer>, key: string)
    requires forall k :: 0 <= k < |rows| ==> rows[k].catalog_id != key
    ensures RowsWithKey(rows, key) == []
    ensures FirstIndex(rows, key) == |rows|
    decreases |rows|
  {
    if rows != [] {
      AbsentKey(rows[1..], key);
    }
  }

  /** Appending an offer with another id changes neither the offers of `key` nor, once `key`
      has been seen, its first index. */
  lemma SnocOtherKey(init: seq<ScrapedOffer>, o: ScrapedOffer, key: string)
    requires o.catalog_id != key
    ensures RowsWithKey(init + [o], key) == RowsWithKey(init, key)
    ensures FirstIndex(init, key) < |init| ==> FirstIndex(init + [o], key) == FirstIndex(init, key)
  {
    RowsWithKeySnoc(init, o, key);
    FirstIndexSnoc(init, o, key);
    assert RowsWithKey(init, key) + [] == RowsWithKey(init, key);
  }

  /** Pushing `o` keeps the ids apart. */
  lemma PushedDistinct(gs: seq<Group>, i: nat, o: ScrapedOffer)
    requires i < |gs| && DistinctKeys(gs)
    ensures DistinctKeys(Pushed(gs, i, o))
  {
    var r := Pushed(gs, i, o);
    assert forall j :: 0 <= j < |r| ==> r[j].catalog_id == Keys(r)[j] == Keys(gs)[j] == gs[j].catalog_id;
  }

  /** Pushing `o` onto its own group keeps every offer covered, `o` included. */
  lemma PushedCovers(gs: seq<Group>, init: seq<ScrapedOffer>, i: nat, o: ScrapedOffer)
    requires i < |gs| && gs[i].catalog_id == o.catalog_id && Covers(gs, init)
    ensures Covers(Pushed(gs, i, o), init + [o])
  {
    var r := Pushed(gs, i, o);
    var rows := init + [o];
    forall k | 0 <= k < |rows| ensures rows[k].catalog_id in Keys(r) {
      if k < |init| {
        assert rows[k] == init[k];
      } else {
        assert Keys(gs)[i] == o.catalog_id;
      }
    }
  }

  /** Pushing `o` onto its own group: that group gains `o` at its end and every other group
      keeps its offers; no first index moves. */
  lemma PushedExact(gs: seq<Group>, init: seq<ScrapedOffer>, i: nat, o: ScrapedOffer)
    requires i < |gs| && gs[i].catalog_id == o.catalog_id
    requires DistinctKeys(gs) && ExactGroups(gs, init)
    ensures ExactGroups(Pushed(gs, i, o), init + [o])
    ensures forall j :: 0 <= j < |gs| ==> FirstIndex(init + [o], gs[j].catalog_id) == FirstIndex(init, gs[j].catalog_id)
  {
    var r := Pushed(gs, i, o);
    var rows := init + [o];
    forall j | 0 <= j < |gs|
      ensures r[j].catalog_id == gs[j].catalog_id
      ensures r[j].stores == RowsWithKey(rows, r[j].catalog_id)
      ensures r[j].stores != [] && HeadedBy(r[j], r[j].stores[0])
      ensures FirstIndex(rows, gs[j].catalog_id) == FirstIndex(init, gs[j].catalog_id) < |rows|
    {
      RowsWithKeySnoc(init, o, gs[j].catalog_id);
      FirstIndexSnoc(init, o, gs[j].catalog_id);
      if j == i {
        assert r[j].stores[0] == gs[j].stores[0];
      }
    }
  }

  lemma PushedOrder(gs: seq<Group>, init: seq<ScrapedOffer>, i: nat, o: ScrapedOffer)
    requires i < |gs| && FirstSeenOrder(gs, init)
    requires forall j :: 0 <= j < |gs| ==> FirstIndex(init + [o], gs[j].catalog_id) == FirstIndex(init, gs[j].catalog_id)
    ensures FirstSeenOrder(Pushed(gs, i, o), init + [o])
  {
    var r := Pushed(gs, i, o);
    assert forall j :: 0 <= j < |r| ==> r[j].catalog_id == Keys(r)[j] == Keys(gs)[j] == gs[j].catalog_id;
  }

  /** The step for an offer whose id already has a group: only that group changes. */
  lemma StepExisting(gs: seq<Group>, init: seq<ScrapedOffer>, o: ScrapedOffer)
    requires IsGroupingOf(gs, init)
    requires FindGroup(gs, o.catalog_id) < |gs|
    ensures IsGroupingOf(AddRow(gs, o), init + [o])
  {
    var i := FindGroup(gs, o.catalog_id);
    assert AddRow(gs, o) == Pushed(gs, i, o);
    PushedDistinct(gs, i, o);
    PushedCovers(gs, init, i, o);
    PushedExact(gs, init, i, o);
    PushedOrder(gs, init, i, o);
  }

  /** No offer of a covered list carries an id without a group. */
  lemma UncoveredAbsent(gs: seq<Group>, init: seq<ScrapedOffer>, key: string)
    requires Covers(gs, init) && key !in Keys(gs)
    ensures RowsWithKey(init, key) == [] && FirstIndex(init, key) == |init|
  {
    forall k | 0 <= k < |init| ensures init[k].catalog_id != key {
      assert init[k].catalog_id in Keys(gs);
    }
    AbsentKey(init, key);
  }

  /** An offer whose id has no group is the first and only offer for that id. */
  lemma NewKey(gs: seq<Group>, init: seq<ScrapedOffer>, o: ScrapedOffer)
    requires Covers(gs, init) && FindGroup(gs, o.catalog_id) == |gs|
    ensures forall j :: 0 <= j < |gs| ==> gs[j].catalog_id != o.catalog_id
    ensures RowsWithKey(init + [o], o.catalog_id) == [o]
    ensures FirstIndex(init + [o], o.catalog_id) == |init|
  {
    assert o.catalog_id !in Keys(gs);
    UncoveredAbsent(gs, init, o.catalog_id);
    RowsWithKeySnoc(init, o, o.catalog_id);
    FirstIndexSnoc(init, o, o.catalog_id);
    forall j | 0 <= j < |gs| ensures gs[j].catalog_id != o.catalog_id {
      assert Keys(gs)[j] == gs[j].catalog_id;
    }
  }

  /** The step for an offer with a new id: a group headed by it is appended. */
  lemma StepNew(gs: seq<Group>, init: seq<ScrapedOffer>, o: ScrapedOffer)
    requires IsGroupingOf(gs, init)
    requires FindGroup(gs, o.catalog_id) == |gs|
    ensures IsGroupingOf(AddRow(gs, o), init + [o])
  {
    assert AddRow(gs, o) == gs + [NewGroup(o)];
    NewKey(gs, init, o);
    NewDistinct(gs, o);
    NewCovers(gs, init, o);
    NewExact(gs, init, o);
    NewOrder(gs, init, o);
  }

  lemma NewDistinct(gs: seq<Group>, o: ScrapedOffer)
    requires DistinctKeys(gs)
    requires forall j :: 0 <= j < |gs| ==> gs[j].catalog_id != o.catalog_id
    ensures DistinctKeys(gs + [NewGroup(o)])
  {
  }

  lemma NewCovers(gs: seq<Group>, init: seq<ScrapedOffer>, o: ScrapedOffer)
    requires Covers(gs, init)
    ensures Covers(gs + [NewGroup(o)], init + [o])
  {
    var r := gs + [NewGroup(o)];
    var rows := init + [o];
    forall k | 0 <= k < |rows| ensures rows[k].catalog_id in Keys(r) {
      if k == |init| {
        assert Keys(r)[|gs|] == o.catalog_id;
      } else {
        assert rows[k] == init[k];
        assert Keys(r)[..|gs|] == Keys(gs);
      }
    }
  }

  /** Appending the new group leaves the old groups exact and makes the new one exact. */
  lemma NewExact(gs: seq<Group>, init: seq<ScrapedOffer>, o: ScrapedOffer)
    requires ExactGroups(gs, init)
    requires forall j :: 0 <= j < |gs| ==> gs[j].catalog_id != o.catalog_id
    requires RowsWithKey(init + [o], o.catalog_id) == [o] && FirstIndex(init + [o], o.catalog_id) == |init|
    ensures ExactGroups(gs + [NewGroup(o)], init + [o])
  {
    var r := gs + [NewGroup(o)];
    var rows := init + [o];
    forall j | 0 <= j < |gs|
      ensures r[j].stores == RowsWithKey(rows, r[j].catalog_id)
      ensures FirstIndex(rows, r[j].catalog_id) < |rows|
    {
      SnocOtherKey(init, o, gs[j].catalog_id);
    }
  }

  /** The new group's id is seen last, after every old group's. */
  lemma NewOrder(gs: seq<Group>, init: seq<ScrapedOffer>, o: ScrapedOffer)
    requires ExactGroups(gs, init) && FirstSeenOrder(gs, init)
    requires forall j :: 0 <= j < |gs| ==> gs[j].catalog_id != o.catalog_id
    requires FirstIndex(init + [o], o.catalog_id) == |init|
    ensures FirstSeenOrder(gs + [NewGroup(o)], init + [o])
  {
    var r := gs + [NewGroup(o)];
    var rows := init + [o];
    forall j | 0 <= j < |gs|
      ensures FirstIndex(rows, r[j].catalog_id) == FirstIndex(init, gs[j].catalog_id) < |init|
    {
      SnocOtherKey(init, o, gs[j].catalog_id);
    }
  }

  /** The reducer produces a grouping of its input. */
  lemma {:induction false} GroupRowsIsGrouping(rows: seq<ScrapedOffer>)
    ensures IsGroupingOf(GroupRows(rows), rows)
    decreases |rows|
  {
    if rows != [] {
      var init := rows[..|rows| - 1];
      var o := rows[|rows| - 1];
      assert rows == init + [o];
      GroupRowsIsGrouping(init);
      var gs := GroupRows(init);
      if FindGroup(gs, o.catalog_id) < |gs| {
        StepExisting(gs, init, o);
      } else {
        StepNew(gs, init, o);
      }
    }
  }

  /** Every group is non-empty, every offer in it has the group's catalog id, and its header
      is that of the first offer seen for the id. */
  lemma GroupsAreHomogeneous(rows: seq<ScrapedOffer>)
    ensures forall g :: g in GroupRows(rows) ==>
      && g.stores != []
      && (forall s :: s in g.stores ==> s.catalog_id == g.catalog_id)
      && FirstIndex(rows, g.catalog_id) < |rows|
      && HeadedBy(g, rows[FirstIndex(rows, g.catalog_id)])
  {
    GroupRowsIsGrouping(rows);
    var gs := GroupRows(rows);
    forall i | 0 <= i < |gs|
      ensures forall s :: s in gs[i].stores ==> s.catalog_id == gs[i].catalog_id
      ensures HeadedBy(gs[i], rows[FirstIndex(rows, gs[i].catalog_id)])
    {
      OnlyKey(rows, gs[i].catalog_id);
      HeadIsFirst(rows, gs[i].catalog_id);
    }
  }

  lemma {:induction false} OnlyKey(rows: seq<ScrapedOffer>, key: string)
    ensures forall s :: s in RowsWithKey(rows, key) ==> s.catalog_id == key
    decreases |rows|
  {
    if rows != [] {
      OnlyKey(rows[1..], key);
    }
  }

  lemma {:induction false} HeadIsFirst(rows: seq<ScrapedOffer>, key: string)
    requires RowsWithKey(rows, key) != []
    ensures FirstIndex(rows, key) < |rows|
    ensures RowsWithKey(rows, key)[0] == rows[FirstIndex(rows, key)]
    decreases |rows|
  {
    if rows[0].catalog_id != key {
      HeadIsFirst(rows[1..], key);
    }
  }

  // ---- counts shown on the screen ----

  /** Every offer of the groups, group by group. */
  function Flatten(gs: seq<Group>): seq<ScrapedOffer> {
    if gs == [] then [] else gs[0].stores + Flatten(gs[1..])
  }

  lemma {:induction false} FlattenAppend(gs: seq<Group>, g: Group)
    ensures Flatten(gs + [g]) == Flatten(gs) + g.stores
    decreases |gs|
  {
    if gs == [] {
      assert gs + [g] == [g];
    } else {
      assert (gs + [g])[1..] == gs[1..] + [g];
      FlattenAppend(gs[1..], g);
    }
  }

  lemma {:induction false} FlattenPush(gs: seq<Group>, i: nat, o: ScrapedOffer)
    requires i < |gs|
    ensures multiset(Flatten(Pushed(gs, i, o))) == multiset(Flatten(gs)) + multiset{o}
    decreases |gs|
  {
    var r := Pushed(gs, i, o);
    if i == 0 {
      assert r[1..] == gs[1..];
    } else {
      assert r[1..] == Pushed(gs[1..], i - 1, o);
      FlattenPush(gs[1..], i - 1, o);
    }
  }

  /** Grouping loses and invents no offer: the groups' offers are a permutation of the input. */
  lemma {:induction false} GroupRowsConserves(rows: seq<ScrapedOffer>)
    ensures multiset(Flatten(GroupRows(rows))) == multiset(rows)
    ensures |Flatten(GroupRows(rows))| == |rows|
    decreases |rows|
  {
    if rows != [] {
      var init := rows[..|rows| - 1];
      var o := rows[|rows| - 1];
      assert rows == init + [o];
      GroupRowsConserves(init);
      var gs := GroupRows(init);
      var i := FindGroup(gs, o.catalog_id);
      if i < |gs| {
        FlattenPush(gs, i, o);
      } else {
        FlattenAppend(gs, NewGroup(o));
      }
    }
    assert |multiset(Flatten(GroupRows(rows)))| == |Flatten(GroupRows(rows))|;
  }

  /** The catalog ids among `rows`. */
  ghost function IdSet(rows: seq<ScrapedOffer>): set<string> {
    set k | 0 <= k < |rows| :: rows[k].catalog_id
  }

  /** The "products in catalog" count equals the number of distinct catalog ids. */
  lemma IdSetSnoc(init: seq<ScrapedOffer>, o: ScrapedOffer)
    ensures IdSet(init + [o]) == IdSet(init) + {o.catalog_id}
  {
    var rows := init + [o];
    forall x | x in IdSet(rows) ensures x in IdSet(init) + {o.catalog_id} {
      var k :| 0 <= k < |rows| && rows[k].catalog_id == x;
      if k < |init| { assert init[k] == rows[k]; }
    }
    forall x | x in IdSet(init) ensures x in IdSet(rows) {
      var k :| 0 <= k < |init| && init[k].catalog_id == x;
      assert rows[k] == init[k];
    }
    assert rows[|init|] == o;
  }

  /** In a grouping, an id has a group exactly when some offer carries it. */
  lemma KeysAreIds(gs: seq<Group>, rows: seq<ScrapedOffer>, key: string)
    requires IsGroupingOf(gs, rows)
    ensures key in Keys(gs) <==> key in IdSet(rows)
  {
    if key in Keys(gs) {
      var j :| 0 <= j < |gs| && Keys(gs)[j] == key;
      assert gs[j].stores == RowsWithKey(rows, key);
      HeadIsFirst(rows, key);
      OnlyKey(rows, key);
      var k := FirstIndex(rows, key);
      assert rows[k] in RowsWithKey(rows, key);
    }
    if key in IdSet(rows) {
      var k :| 0 <= k < |rows| && rows[k].catalog_id == key;
    }
  }

  /** The "products in catalog" count equals the number of distinct catalog ids. */
  lemma {:induction false} GroupCountIsDistinctIds(rows: seq<ScrapedOffer>)
    ensures |GroupRows(rows)| == |IdSet(rows)|
    decreases |rows|
  {
    if rows == [] {
      assert IdSet(rows) == {};
    } else {
      var init := rows[..|rows| - 1];
      var o := rows[|rows| - 1];
      assert rows == init + [o];
      GroupCountIsDistinctIds(init);
      GroupRowsIsGrouping(init);
      IdSetSnoc(init, o);
      KeysAreIds(GroupRows(init), init, o.catalog_id);
      assert |GroupRows(rows)| == |Keys(GroupRows(rows))|;
    }
  }

  // ---- Object.values on the accumulator ----

  predicate IsDigit(c: char) {
    '0' <= c <= '9'
  }

  function DigitValue(c: char): nat
    requires IsDigit(c)
  {
    c as int - '0' as int
  }

  /** The decimal value of `s` when it is a non-empty string of digits, and nothing otherwise. */
  function DecimalValue(s: string): (v: Option<nat>)
    ensures v.Some? ==> s != [] && IsDigit(s[|s| - 1])
  {
    if s == [] || !IsDigit(s[|s| - 1]) then None
    else if |s| == 1 then Some(DigitValue(s[0]))
    else match DecimalValue(s[..|s| - 1]) {
      case None => None
      case Some(n) => Some(10 * n + DigitValue(s[|s| - 1]))
    }
  }

  /** The value is defined exactly on the non-empty digit strings. */
  lemma {:induction false} DecimalValueDefined(s: string)
    ensures DecimalValue(s).Some? <==> s != [] && forall i :: 0 <= i < |s| ==> IsDigit(s[i])
    decreases |s|
  {
    if |s| > 1 {
      DecimalValueDefined(s[..|s| - 1]);
      assert forall i :: 0 <= i < |s| - 1 ==> s[..|s| - 1][i] == s[i];
    }
  }

  /** A property key the ECMAScript object model treats as an array index: the canonical
      decimal form of an integer below 2^32 - 1. Such keys are enumerated first, ascending. */
  predicate IsArrayIndex(key: string) {
    && DecimalValue(key).Some?
    && (key[0] != '0' || |key| == 1)
    && DecimalValue(key).value < 0xFFFF_FFFF
  }

  function IndexOf(g: Group): nat
    requires IsArrayIndex(g.catalog_id)
  {
    DecimalValue(g.catalog_id).value
  }

  predicate IndexKeyed(g: Group) {
    IsArrayIndex(g.catalog_id)
  }

  /** The index-keyed groups are in ascending order of their numeric key. */
  predicate AscendingIndices(gs: seq<Group>) {
    && (forall i :: 0 <= i < |gs| ==> IndexKeyed(gs[i]))
    && (forall i, j :: 0 <= i < j < |gs| ==> IndexOf(gs[i]) <= IndexOf(gs[j]))
  }

  /** A group no greater than the head of an ascending run extends it at the front. */
  lemma ConsAscending(g: Group, sorted: seq<Group>)
    requires IndexKeyed(g) && AscendingIndices(sorted)
    requires sorted == [] || IndexOf(g) <= IndexOf(sorted[0])
    ensures AscendingIndices([g] + sorted)
  {
    var r := [g] + sorted;
    forall i | 0 <= i < |r| ensures IndexKeyed(r[i]) {
      if i > 0 { assert r[i] == sorted[i - 1]; }
    }
    forall i, j | 0 <= i < j < |r| ensures IndexOf(r[i]) <= IndexOf(r[j]) {
      assert r[j] == sorted[j - 1];
      if i > 0 {
        assert r[i] == sorted[i - 1];
      } else if j > 1 {
        assert IndexOf(sorted[0]) <= IndexOf(sorted[j - 1]);
      }
    }
  }

  /** The tail of an ascending run is ascending. */
  lemma TailAscending(sorted: seq<Group>)
    requires sorted != [] && AscendingIndices(sorted)
    ensures AscendingIndices(sorted[1..])
  {
    var t := sorted[1..];
    assert forall i :: 0 <= i < |t| ==> t[i] == sorted[i + 1];
  }

  /** Places an index-keyed group into an ascending run. */
  function Insert(g: Group, sorted: seq<Group>): (r: seq<Group>)
    requires IndexKeyed(g) && AscendingIndices(sorted)
    ensures AscendingIndices(r)
    ensures multiset(r) == multiset(sorted) + multiset{g}
    ensures r != [] && (r[0] == g || (sorted != [] && r[0] == sorted[0]))
  {
    if sorted == [] || IndexOf(g) <= IndexOf(sorted[0]) then
      ConsAscending(g, sorted);
      [g] + sorted
    else
      TailAscending(sorted);
      var rest := Insert(g, sorted[1..]);
      assert sorted == [sorted[0]] + sorted[1..];
      assert IndexKeyed(sorted[0]);
      ConsAscending(sorted[0], rest);
      [sorted[0]] + rest
  }

  /** The index-keyed groups of `gs`, ascending by key. */
  function IndexGroups(gs: seq<Group>): (r: seq<Group>)
    ensures AscendingIndices(r)
    ensures multiset(r) == multiset(IndexKeyedOf(gs))
  {
    if gs == [] then []
    else
      assert gs == [gs[0]] + gs[1..];
      var rest := IndexGroups(gs[1..]);
      if IndexKeyed(gs[0]) then Insert(gs[0], rest) else rest
  }

  function IndexKeyedOf(gs: seq<Group>): seq<Group> {
    if gs == [] then [] else (if IndexKeyed(gs[0]) then [gs[0]] else []) + IndexKeyedOf(gs[1..])
  }

  /** The groups whose keys are not array indices, in creation order. */
  function OtherGroups(gs: seq<Group>): (r: seq<Group>)
    ensures forall i :: 0 <= i < |r| ==> !IndexKeyed(r[i])
  {
    if gs == [] then [] else (if IndexKeyed(gs[0]) then [] else [gs[0]]) + OtherGroups(gs[1..])
  }

  lemma {:induction false} SplitPermutes(gs: seq<Group>)
    ensures multiset(IndexKeyedOf(gs)) + multiset(OtherGroups(gs)) == multiset(gs)
    decreases |gs|
  {
    if gs != [] {
      assert gs == [gs[0]] + gs[1..];
      SplitPermutes(gs[1..]);
    }
  }

  /** `Object.values(acc)`: array-index keys first in ascending numeric order, then the
      remaining keys in creation order. */
  function ObjectValues(gs: seq<Group>): (r: seq<Group>)
    ensures multiset(r) == multiset(gs)
    ensures |r| == |gs|
  {
    SplitPermutes(gs);
    var r := IndexGroups(gs) + OtherGroups(gs);
    assert |multiset(r)| == |r|;
    r
  }

  /** `Object.values` lists the index-keyed groups first, ascending, then the others in
      creation order. */
  lemma ObjectValuesOrder(gs: seq<Group>)
    ensures exists n :: (0 <= n <= |ObjectValues(gs)|
                         && AscendingIndices(ObjectValues(gs)[..n])
                         && ObjectValues(gs)[n..] == OtherGroups(gs))
  {
    var n := |IndexGroups(gs)|;
    assert ObjectValues(gs)[..n] == IndexGroups(gs);
    assert ObjectValues(gs)[n..] == OtherGroups(gs);
  }

  /** With no array-index-like catalog id (for instance, UUIDs) `Object.values` keeps
      the creation order of the groups. */
  lemma {:induction false} ObjectValuesKeepsOrder(gs: seq<Group>)
    requires forall i :: 0 <= i < |gs| ==> !IsArrayIndex(gs[i].catalog_id)
    ensures IndexGroups(gs) == [] && OtherGroups(gs) == gs
    ensures ObjectValues(gs) == gs
    decreases |gs|
  {
    if gs != [] {
      ObjectValuesKeepsOrder(gs[1..]);
      assert !IndexKeyed(gs[0]);
      assert gs == [gs[0]] + gs[1..];
    }
  }

  // ---- the screen's grouped list ----

  /** `groupedList`: the groups of the filtered offers as the table lists them. There is one
      per distinct catalog id; when no catalog id looks like an array index it is exactly the
      grouping of the offers, in first-seen order. */
  function GroupedList(filtered: seq<ScrapedOffer>): (r: seq<Group>)
    ensures |r| == |IdSet(filtered)|
    ensures (forall k :: 0 <= k < |filtered| ==> !IsArrayIndex(filtered[k].catalog_id))
        ==> IsGroupingOf(r, filtered) && |Flatten(r)| == |filtered|
  {
    GroupCountIsDistinctIds(filtered);
    GroupRowsIsGrouping(filtered);
    GroupRowsConserves(filtered);
    NoIndexKeys(filtered);
    ObjectValues(GroupRows(filtered))
  }

  /** A group's id is the id of some offer, so offers without index-like ids give groups without them. */
  lemma NoIndexKeys(rows: seq<ScrapedOffer>)
    ensures (forall k :: 0 <= k < |rows| ==> !IsArrayIndex(rows[k].catalog_id))
        ==> ObjectValues(GroupRows(rows)) == GroupRows(rows)
  {
    if forall k :: 0 <= k < |rows| ==> !IsArrayIndex(rows[k].catalog_id) {
      GroupRowsIsGrouping(rows);
      var gs := GroupRows(rows);
      forall i | 0 <= i < |gs| ensures !IsArrayIndex(gs[i].catalog_id) {
        HeadIsFirst(rows, gs[i].catalog_id);
        assert gs[i].catalog_id == rows[FirstIndex(rows, gs[i].catalog_id)].catalog_id;
      }
      ObjectValuesKeepsOrder(gs);
    }
  }
}
