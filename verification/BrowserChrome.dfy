/**
 The tab strip that shows the tab model: reconciliation from any content, and a
 synchronisation loop that observers may re-enter and tamper with.
 */
module BrowserChrome {
  import opened Common
  import opened Utf16
  import opened TabModel

  const MaxSynchronizationPasses: nat := MaxOpenTabs

  /** A tab of the strip: the id it carries and the title its text is made from. */
  datatype Item = Item(id: Text, title: Text)

  /** What is to be shown. */
  datatype Batch = Batch(items: seq<Item>, active: int, activeId: Text)

  function ItemIds(items: seq<Item>): (ids: seq<Text>)
    ensures |ids| == |items| && forall i :: 0 <= i < |items| ==> ids[i] == items[i].id
  {
    seq(|items|, i requires 0 <= i < |items| => items[i].id)
  }

  /** What a synchronisation accepts. */
  predicate Presentable(b: Batch) {
    && |b.items| <= MaxOpenTabs && ActiveFits(|b.items|, b.active) && Distinct(ItemIds(b.items))
    && b.activeId == if b.items == [] then [] else b.items[b.active].id
  }

  function Items(tabs: seq<Tab>): (items: seq<Item>)
    ensures |items| == |tabs| && forall i :: 0 <= i < |tabs| ==> items[i] == Item(tabs[i].snapshot.id, tabs[i].snapshot.title)
  {
    seq(|tabs|, i requires 0 <= i < |tabs| => Item(tabs[i].snapshot.id, tabs[i].snapshot.title))
  }

  /** Nothing is shown of a model that is not in order. */
  function BatchFromModel(m: Model): (b: Option<Batch>)
    ensures b.Some? ==> Presentable(b.value)
  {
    var batch := Batch(Items(m.tabs), m.active, ActiveId(m));
    if |m.tabs| <= MaxOpenTabs && ActiveFits(|m.tabs|, m.active) && (forall tab <- m.tabs :: ValidTab(tab))
       && Distinct(ItemIds(batch.items))
    then Some(batch) else None
  }

  /** Every valid model can be shown, as it is. */
  lemma ValidModelsAreShown(m: Model)
    requires Valid(m)
    ensures BatchFromModel(m) == Some(Batch(Items(m.tabs), m.active, ActiveId(m)))
  {
    forall i, j | 0 <= i < j < |m.tabs| ensures Items(m.tabs)[i].id != Items(m.tabs)[j].id {
      assert AllIds(m)[i] == Ids(m.tabs)[i] && AllIds(m)[j] == Ids(m.tabs)[j];
    }
  }

  /** A model is shown, and then as it is, exactly if it is in order: bounds, selection, valid tabs and distinct ids. */
  lemma ModelIsShownExactlyWhen(m: Model)
    ensures BatchFromModel(m).Some? <==>
              && |m.tabs| <= 16 && (if m.tabs == [] then m.active == -1 else 0 <= m.active < |m.tabs|)
              && (forall tab <- m.tabs :: ValidTab(tab))
              && forall i, j :: 0 <= i < j < |m.tabs| ==> m.tabs[i].snapshot.id != m.tabs[j].snapshot.id
    ensures BatchFromModel(m).Some? ==>
              var b := BatchFromModel(m).value;
              && |b.items| == |m.tabs| && b.active == m.active && (m.tabs != [] ==> b.activeId == m.tabs[m.active].snapshot.id)
              && forall i :: 0 <= i < |m.tabs| ==> b.items[i] == Item(m.tabs[i].snapshot.id, m.tabs[i].snapshot.title)
  {
    assert forall i :: 0 <= i < |m.tabs| ==> Items(m.tabs)[i].id == m.tabs[i].snapshot.id;
    assert forall i :: 0 <= i < |m.tabs| ==> ItemIds(Items(m.tabs))[i] == m.tabs[i].snapshot.id;
    hide ValidTab;
  }

  /** The strip itself.  Structural changes may select any other tab: callers know only that the selection fits. */
  class TabBar {
    var items: seq<Item>
    var current: int

    constructor ()
      ensures items == [] && current == -1
    {
      items, current := [], -1;
    }

    predicate Sane() reads this { ActiveFits(|items|, current) }

    method RemoveTab(i: int)
      requires InRange(items, i)
      modifies this
      ensures items == Removed(old(items), i) && Sane()
    {
      items := Removed(items, i);
      current := if items == [] then -1 else 0;
    }

    method InsertTab(i: int, item: Item)
      requires 0 <= i <= |items|
      modifies this
      ensures items == Inserted(old(items), i, item) && Sane()
    {
      items := Inserted(items, i, item);
      current := 0;
    }

    method MoveTab(from: int, to: int)
      requires InRange(items, from) && InRange(items, to)
      modifies this
      ensures items == Moved(old(items), from, to) && Sane()
    {
      items := Moved(items, from, to);
      current := 0;
    }

    method SetTab(i: int, item: Item)
      requires InRange(items, i)
      modifies this`items
      ensures items == old(items)[i := item]
    {
      items := items[i := item];
    }

    /** Whatever other code that has got hold of the strip may make of it. */
    method Overwrite(items: seq<Item>)
      modifies this
      ensures this.items == items && Sane()
    {
      this.items := items;
      current := if items == [] then -1 else 0;
    }

    method SetCurrentIndex(i: int)
      modifies this`current
      ensures current == if InRange(items, i) then i else old(current)
    {
      if InRange(items, i) { current := i; }
    }
  }

  /** What reconciliation does to the strip, beside reordering it. */
  datatype Edit = Dropped(id: Text) | Added(id: Text)

  predicate Corrupt(items: seq<Item>) {
    |items| > MaxOpenTabs || !Distinct(ItemIds(items)) || exists item <- items :: item.id == []
  }

  function IndexOfItem(items: seq<Item>, id: Text): (index: int)
    ensures -1 <= index < |items|
    ensures index >= 0 ==> items[index].id == id
    ensures index < 0 ==> forall j :: 0 <= j < |items| ==> items[j].id != id
  {
    if items == [] then -1
    else if items[0].id == id then 0
    else
      var rest := IndexOfItem(items[1..], id);
      assert forall j :: 1 <= j < |items| ==> items[j] == items[1..][j - 1];
      if rest < 0 then -1 else rest + 1
  }

  // ---- Facts about the strip's contents --------------------------------------------------------

  predicate Has(items: seq<Item>, id: Text) {
    exists i :: 0 <= i < |items| && items[i].id == id
  }

  lemma DistinctRemoved(items: seq<Item>, i: int)
    requires InRange(items, i) && Distinct(ItemIds(items))
    ensures var r := Removed(items, i);
      && Distinct(ItemIds(r)) && !Has(r, items[i].id)
      && forall id :: Has(r, id) <==> Has(items, id) && id != items[i].id
  {
    var r := Removed(items, i);
    forall id ensures Has(r, id) <==> Has(items, id) && id != items[i].id {
      if Has(items, id) && id != items[i].id {
        var k :| 0 <= k < |items| && items[k].id == id;
        assert r[if k < i then k else k - 1].id == id;
      }
      if Has(r, id) {
        var k :| 0 <= k < |r| && r[k].id == id;
        assert items[if k < i then k else k + 1].id == id;
      }
    }
  }

  lemma InsertedMembers(items: seq<Item>, i: int, item: Item)
    requires 0 <= i <= |items|
    ensures forall id :: Has(Inserted(items, i, item), id) <==> Has(items, id) || id == item.id
  {
    var r := Inserted(items, i, item);
    forall id ensures Has(r, id) <==> Has(items, id) || id == item.id {
      if Has(items, id) {
        var k :| 0 <= k < |items| && items[k].id == id;
        assert r[if k < i then k else k + 1].id == id;
      }
      if id == item.id { assert r[i].id == id; }
      if Has(r, id) && id != item.id {
        var k :| 0 <= k < |r| && r[k].id == id;
        assert items[if k < i then k else k - 1].id == id;
      }
    }
  }

  lemma DistinctInserted(items: seq<Item>, i: int, item: Item)
    requires 0 <= i <= |items| && Distinct(ItemIds(items)) && !Has(items, item.id)
    ensures var r := Inserted(items, i, item);
      && Distinct(ItemIds(r)) && r[..i] == items[..i] && r[i] == item
      && forall id :: Has(r, id) <==> Has(items, id) || id == item.id
  {
    InsertedMembers(items, i, item);
    var r := Inserted(items, i, item);
    assert forall k :: 0 <= k < i ==> r[k] == items[k];
    assert forall k :: i < k < |r| ==> r[k] == items[k - 1];
    assert forall k :: 0 <= k < |items| ==> ItemIds(items)[k] != item.id;
  }

  /** A tab that is needed earlier is brought forward. */
  lemma DistinctMovedForward(items: seq<Item>, from: int, to: int)
    requires 0 <= to <= from < |items| && Distinct(ItemIds(items))
    ensures var r := Moved(items, from, to);
      && |r| == |items| && Distinct(ItemIds(r)) && r[..to] == items[..to] && r[to] == items[from]
      && forall id :: Has(r, id) <==> Has(items, id)
  {
    DistinctRemoved(items, from);
    DistinctInserted(Removed(items, from), to, items[from]);
    assert Has(items, items[from].id);
    assert Moved(items, from, to)[..to] == Removed(items, from)[..to] == items[..to];
  }

  lemma DistinctSet(items: seq<Item>, i: int, item: Item)
    requires InRange(items, i) && Distinct(ItemIds(items)) && item.id == items[i].id
    ensures Distinct(ItemIds(items[i := item]))
    ensures forall id :: Has(items[i := item], id) <==> Has(items, id)
  {
    assert ItemIds(items[i := item]) == ItemIds(items);
    forall id ensures Has(items[i := item], id) <==> Has(items, id) {
      if Has(items, id) {
        var k :| 0 <= k < |items| && items[k].id == id;
        assert items[i := item][k].id == id;
      }
    }
  }

  /** A strip that begins with the whole batch and has nothing else to show is the batch. */
  lemma NothingLeftOver(items: seq<Item>, wanted: seq<Item>)
    requires |wanted| <= |items| && items[..|wanted|] == wanted && Distinct(ItemIds(items))
    requires forall id :: Has(items, id) ==> Has(wanted, id)
    ensures items == wanted
  {
    if |items| > |wanted| {
      var n := |wanted|;
      forall k | 0 <= k < n ensures wanted[k].id != items[n].id {
        assert wanted[k] == items[..n][k] == items[k];
        assert ItemIds(items)[k] != ItemIds(items)[n];
      }
      assert Has(items, items[n].id);
      assert false;
    }
  }

  lemma InsertFits(items: seq<Item>, wanted: seq<Item>, k: int)
    requires 0 <= k < |wanted| && k <= |items| && items[..k] == wanted[..k] && Distinct(ItemIds(wanted))
    ensures forall j :: 0 <= j < k ==> items[j].id != wanted[k].id
  {
    forall j | 0 <= j < k ensures items[j].id != wanted[k].id {
      assert items[..k][j] == wanted[..k][j];
      assert ItemIds(wanted)[j] != ItemIds(wanted)[k];
    }
  }

  /** A strip that holds too much, or ids that are empty or repeated, is emptied. */
  method ClearIfCorrupt(bar: TabBar) returns (edits: seq<Edit>)
    requires bar.Sane()
    modifies bar
    ensures bar.Sane() && bar.items == if Corrupt(old(bar.items)) then [] else old(bar.items)
    ensures !Corrupt(old(bar.items)) ==> edits == []
  {
    edits := [];
    var corrupt, ids: set<Text>, index := |bar.items| > MaxOpenTabs, {}, 0;
    while !corrupt && index < |bar.items|
      invariant 0 <= index <= |bar.items| && (corrupt ==> Corrupt(bar.items))
      invariant !corrupt ==> |bar.items| <= MaxOpenTabs && ids == set k | 0 <= k < index :: bar.items[k].id
      invariant !corrupt ==> forall k :: 0 <= k < index ==> bar.items[k].id != []
      invariant !corrupt ==> forall j, k :: 0 <= j < k < index ==> bar.items[j].id != bar.items[k].id
      decreases |bar.items| - index + if corrupt then 0 else 1
    {
      var id := bar.items[index].id;
      if id == [] || id in ids {
        if id == [] {
          assert bar.items[index] in bar.items;
        } else {
          var k :| 0 <= k < index && bar.items[k].id == id;
          assert ItemIds(bar.items)[k] == ItemIds(bar.items)[index];
        }
        corrupt := true;
      } else {
        ids := ids + {id};
        index := index + 1;
      }
    }
    assert corrupt <==> Corrupt(bar.items);
    if corrupt {
      while |bar.items| > 0
        invariant bar.Sane()
      {
        edits := edits + [Dropped(bar.items[0].id)];
        bar.RemoveTab(0);
      }
    }
  }

  method DropUnwanted(bar: TabBar, batch: Batch) returns (edits: seq<Edit>)
    requires bar.Sane() && Distinct(ItemIds(bar.items))
    modifies bar
    ensures bar.Sane() && Distinct(ItemIds(bar.items))
    ensures forall id :: Has(bar.items, id) <==> Has(old(bar.items), id) && Has(batch.items, id)
    ensures forall e <- edits :: e.Dropped? && Has(old(bar.items), e.id) && !Has(batch.items, e.id)
  {
    edits := [];
    var index := |bar.items| - 1;
    while index >= 0
      invariant -1 <= index < |bar.items| && bar.Sane() && Distinct(ItemIds(bar.items))
      invariant forall k :: index < k < |bar.items| ==> Has(batch.items, bar.items[k].id)
      invariant forall id :: Has(bar.items, id) ==> Has(old(bar.items), id)
      invariant forall id :: Has(old(bar.items), id) && Has(batch.items, id) ==> Has(bar.items, id)
      invariant forall e <- edits :: e.Dropped? && Has(old(bar.items), e.id) && !Has(batch.items, e.id)
    {
      var id := bar.items[index].id;
      if IndexOfItem(batch.items, id) < 0 {
        assert Has(bar.items, id);
        DistinctRemoved(bar.items, index);
        edits := edits + [Dropped(id)];
        bar.RemoveTab(index);
      }
      index := index - 1;
    }
  }

  /** The tab wanted at `k` is found, or made, and brought there. */
  method PlaceTab(bar: TabBar, wanted: seq<Item>, k: nat) returns (edits: seq<Edit>)
    requires k < |wanted| && Distinct(ItemIds(wanted))
    requires bar.Sane() && k <= |bar.items| && bar.items[..k] == wanted[..k] && Distinct(ItemIds(bar.items))
    modifies bar
    ensures bar.Sane() && k < |bar.items| && bar.items[..k + 1] == wanted[..k + 1] && Distinct(ItemIds(bar.items))
    ensures forall id :: Has(bar.items, id) <==> Has(old(bar.items), id) || id == wanted[k].id
    ensures edits == if Has(old(bar.items), wanted[k].id) then [] else [Added(wanted[k].id)]
  {
    edits := [];
    var current := IndexOfItem(bar.items, wanted[k].id);
    InsertFits(bar.items, wanted, k);
    if current < 0 {
      DistinctInserted(bar.items, k, wanted[k]);
      bar.InsertTab(k, wanted[k]);
      edits := [Added(wanted[k].id)];
    } else if current != k {
      DistinctMovedForward(bar.items, current, k);
      bar.MoveTab(current, k);
    }
    ghost var placed := bar.items;
    DistinctSet(bar.items, k, wanted[k]);
    bar.SetTab(k, wanted[k]);
    assert bar.items[..k + 1] == placed[..k] + [wanted[k]];
  }

  /** The reconciliation, from whatever the strip holds; a tab that is there and wanted is neither dropped nor made anew. */
  method ReconcileTabBar(bar: TabBar, batch: Batch) returns (edits: seq<Edit>)
    requires Presentable(batch) && bar.Sane()
    modifies bar
    ensures bar.items == batch.items && bar.current == batch.active && bar.Sane()
    ensures !Corrupt(old(bar.items)) ==>
              forall e <- edits :: if e.Dropped? then Has(old(bar.items), e.id) && !Has(batch.items, e.id)
                                   else !Has(old(bar.items), e.id) && Has(batch.items, e.id)
  {
    edits := ClearIfCorrupt(bar);
    ghost var start := bar.items;
    var dropped := DropUnwanted(bar, batch);
    edits := edits + dropped;
    var k := 0;
    while k < |batch.items|
      invariant 0 <= k <= |batch.items| && bar.Sane()
      invariant k <= |bar.items| && bar.items[..k] == batch.items[..k]
      invariant Distinct(ItemIds(bar.items))
      invariant forall id :: Has(bar.items, id) ==> Has(batch.items, id)
      invariant forall id :: Has(start, id) && Has(batch.items, id) ==> Has(bar.items, id)
      invariant !Corrupt(old(bar.items)) ==>
                  forall e <- edits :: if e.Dropped? then Has(start, e.id) && !Has(batch.items, e.id)
                                       else !Has(start, e.id) && Has(batch.items, e.id)
    {
      assert Has(batch.items, batch.items[k].id);
      var placed := PlaceTab(bar, batch.items, k);
      edits := edits + placed;
      k := k + 1;
    }
    assert batch.items[..k] == batch.items;
    NothingLeftOver(bar.items, batch.items);
    bar.SetCurrentIndex(batch.active);
  }

  // ---- Synchronisation ----------------------------------------------------------------------------

  /** What observers do while a batch is applied: they leave the strip in some state, and request synchronisations. */
  datatype Interference = Interference(items: seq<Item>, requests: seq<Model>)

  /** A request for synchronisation, when it came, and its answer. */
  datatype Answer = Answer(batch: Option<Batch>, terminal: bool, accepted: bool)

  /** The last batch whose request was accepted. */
  function LastAccepted(answers: seq<Answer>): Option<Batch>
    decreases answers
  {
    if answers == [] then None
    else
      var last := answers[|answers| - 1];
      if last.accepted then last.batch else LastAccepted(answers[..|answers| - 1])
  }

  predicate Honest(answers: seq<Answer>) {
    forall a <- answers :: a.accepted <==> a.batch.Some? && !a.terminal
  }

  lemma {:induction false} LastAcceptedAppend(s: seq<Answer>, t: seq<Answer>)
    requires Honest(t)
    ensures LastAccepted(s + t) == if LastAccepted(t).Some? then LastAccepted(t) else LastAccepted(s)
    decreases t
  {
    if t == [] {
      assert s + t == s;
    } else {
      var last := |t| - 1;
      assert (s + t)[..|s + t| - 1] == s + t[..last];
      LastAcceptedAppend(s, t[..last]);
      assert t[last] in t;
    }
  }

  lemma HonestAppend(s: seq<Answer>, t: seq<Answer>)
    requires Honest(s) && Honest(t)
    ensures Honest(s + t)
  {}

  lemma OneAnswer(answers: seq<Answer>)
    requires |answers| == 1
    ensures LastAccepted(answers) == if answers[0].accepted then answers[0].batch else None
  {
    assert answers[..0] == [];
  }

  lemma HonestOne(a: Answer)
    requires a.accepted <==> a.batch.Some? && !a.terminal
    ensures Honest([a]) && LastAccepted([a]) == if a.accepted then a.batch else None
  {
    assert [a][..0] == [];
  }

  class Chrome {
    const bar: TabBar
    var selectedTabId: Text
    var pending: Option<Batch>
    var synchronizing: bool
    var terminal: bool
    var applied: nat
    var answers: seq<Answer>
    var script: seq<Interference>

    constructor (bar: TabBar, script: seq<Interference>)
      requires bar.Sane()
      ensures this.bar == bar && Quiet() && answers == [] && applied == 0
    {
      this.bar := bar;
      selectedTabId, pending, synchronizing, terminal, applied, answers := [], None, false, false, 0, [];
      this.script := script;
    }

    predicate Quiet() reads this { !synchronizing && !terminal }

    predicate PendingOk() reads this { pending.Some? ==> Presentable(pending.value) }

    /** A batch is applied; observers interfere between the two reconciliations, the second of which has the last word. */
    method ApplyBatch(batch: Batch)
      requires Presentable(batch) && synchronizing && bar.Sane() && PendingOk()
      modifies this, bar
      ensures PendingOk()
      ensures bar.items == batch.items && bar.current == batch.active && bar.Sane()
      ensures selectedTabId == batch.activeId
      ensures applied == old(applied) + 1 && synchronizing && terminal == old(terminal)
      ensures old(answers) <= answers && |script| <= |old(script)|
      ensures Honest(answers[|old(answers)|..])
      ensures forall a <- answers[|old(answers)|..] :: a.terminal == terminal
      ensures pending == (if LastAccepted(answers[|old(answers)|..]).Some? then LastAccepted(answers[|old(answers)|..])
                          else old(pending))
      decreases |script|, 1
    {
      applied := applied + 1;
      var _ := ReconcileTabBar(bar, batch);
      selectedTabId := batch.activeId;
      if script != [] {
        var meanwhile := script[0];
        script := script[1..];
        bar.Overwrite(meanwhile.items);
        var i := 0;
        while i < |meanwhile.requests|
          invariant synchronizing && terminal == old(terminal) && applied == old(applied) + 1 && bar.Sane() && PendingOk()
          invariant old(answers) <= answers && |script| < |old(script)|
          invariant Honest(answers[|old(answers)|..]) && forall a <- answers[|old(answers)|..] :: a.terminal == terminal
          invariant pending == (if LastAccepted(answers[|old(answers)|..]).Some? then LastAccepted(answers[|old(answers)|..])
                                else old(pending))
        {
          ghost var before := answers;
          var accepted := SynchronizeTabs(meanwhile.requests[i]);
          Extended(before, answers, |old(answers)|);
          assert answers[|before|..] == [Answer(BatchFromModel(meanwhile.requests[i]), terminal, accepted)];
          OneAnswer(answers[|before|..]);
          assert answers[|old(answers)|..] == before[|old(answers)|..] + answers[|before|..];
          i := i + 1;
        }
      }
      var _ := ReconcileTabBar(bar, batch);
      selectedTabId := batch.activeId;
    }

    /** The answer to a request is recorded. */
    method Reply(batch: Option<Batch>, accepted: bool)
      requires accepted <==> batch.Some? && !terminal
      modifies this`answers
      ensures answers == old(answers) + [Answer(batch, terminal, accepted)]
      ensures Honest([Answer(batch, terminal, accepted)])
      ensures LastAccepted([Answer(batch, terminal, accepted)]) == if accepted then batch else None
    {
      HonestOne(Answer(batch, terminal, accepted));
      answers := answers + [Answer(batch, terminal, accepted)];
    }

    /**
     Whatever observers do, at most seventeen batches are applied, and then the strip
     shows the last batch whose request was accepted; requests that could not be
     honoured any more are refused.
     */
    method SynchronizeTabs(model: Model) returns (ok: bool)
      requires bar.Sane() && (terminal ==> synchronizing)
      requires PendingOk()
      modifies this, bar
      ensures PendingOk()
      ensures bar.Sane() && synchronizing == old(synchronizing) && terminal == old(terminal)
      ensures old(answers) <= answers && Honest(answers[|old(answers)|..]) && |script| <= |old(script)|
      ensures old(synchronizing) || !ok ==>
                && answers == old(answers) + [Answer(BatchFromModel(model), old(terminal), ok)]
                && bar.items == old(bar.items) && bar.current == old(bar.current) && selectedTabId == old(selectedTabId)
                && applied == old(applied)
      ensures old(synchronizing) ==> pending == if ok then BatchFromModel(model) else old(pending)
      ensures !old(synchronizing) && ok ==>
                && LastAccepted(answers[|old(answers)|..]).Some?
                && var last := LastAccepted(answers[|old(answers)|..]).value;
                   && bar.items == last.items && bar.current == last.active && selectedTabId == last.activeId
                   && applied <= old(applied) + MaxSynchronizationPasses + 1
      decreases |script|, 2
    {
      hide Presentable, LastAccepted, Honest;
      var batch := BatchFromModel(model);
      if terminal {
        Reply(batch, false);
        return false;
      }
      if batch.None? {
        Reply(batch, false);
        return false;
      }
      Reply(batch, true);
      if synchronizing {
        pending := batch;
        return true;
      }
      synchronizing := true;
      var next, pass := batch.value, 0;
      ghost var first := |old(answers)|;
      while pass < MaxSynchronizationPasses
        invariant pass <= MaxSynchronizationPasses && applied == old(applied) + pass && synchronizing && !terminal && bar.Sane()
        invariant old(answers) <= answers && Honest(answers[first..]) && |script| <= |old(script)|
        invariant LastAccepted(answers[first..]) == Some(next) && Presentable(next)
      {
        pending := None;
        ghost var before := answers;
        ApplyBatch(next);
        Extended(before, answers, first);
        if pending.None? {
          synchronizing := false;
          return true;
        }
        next := pending.value;
        pass := pass + 1;
      }
      pending := None;
      terminal := true;
      ghost var before := answers;
      ApplyBatch(next);
      Extended(before, answers, first);
      NothingAccepted(answers[|before|..]);
      terminal := false;
      synchronizing := false;
      return true;
    }

    lemma Extended(before: seq<Answer>, after: seq<Answer>, first: nat)
      requires before <= after && first <= |before| && Honest(before[first..]) && Honest(after[|before|..])
      ensures Honest(after[first..])
      ensures LastAccepted(after[first..]) == if LastAccepted(after[|before|..]).Some? then LastAccepted(after[|before|..])
                                              else LastAccepted(before[first..])
    {
      assert after[first..] == before[first..] + after[|before|..];
      HonestAppend(before[first..], after[|before|..]);
      LastAcceptedAppend(before[first..], after[|before|..]);
    }
  }

  lemma {:induction false} NothingAccepted(answers: seq<Answer>)
    requires Honest(answers) && forall a <- answers :: a.terminal
    ensures LastAccepted(answers).None?
    decreases answers
  {
    if answers != [] {
      var last := |answers| - 1;
      assert answers[last] in answers;
      NothingAccepted(answers[..last]);
    }
  }
}
