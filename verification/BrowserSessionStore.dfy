/**
 The store's code: normalising, writing, reading and resolving a session.  The
 document is built as text and encoded at its end, which is the same as encoding it
 piece by piece (Utf8.EncodeAppend).
 */
module BrowserSessionStore {
  import opened Common
  import opened Utf16
  import opened Utf8
  import T = Titles
  import opened TabModel
  import opened Json
  import opened SessionStore

  // ---- Writing -------------------------------------------------------------------------------------

  lemma {:induction false} WriteItemsSnoc(items: seq<Json>, k: nat)
    requires k < |items|
    ensures WriteItems(items[..k + 1]) == WriteItems(items[..k]) + (if k == 0 then [] else [Comma]) + Write(items[k])
    decreases k
  {
    if k == 0 {
      assert items[..1] == [items[0]];
    } else {
      var rest := items[1..];
      WriteItemsSnoc(rest, k - 1);
      assert items[..k + 1][1..] == rest[..k] && items[..k][1..] == rest[..k - 1];
      if k == 1 { assert items[..1] == [items[0]]; }
    }
  }

  lemma {:induction false} WriteMembersSnoc(members: seq<Member>, k: nat)
    requires k < |members|
    ensures WriteMembers(members[..k + 1])
         == WriteMembers(members[..k]) + (if k == 0 then [] else [Comma]) + WriteMember(members[k])
    decreases k
  {
    if k == 0 {
      assert members[..1] == [members[0]];
    } else {
      var rest := members[1..];
      WriteMembersSnoc(rest, k - 1);
      assert members[..k + 1][1..] == rest[..k] && members[..k][1..] == rest[..k - 1];
      if k == 1 { assert members[..1] == [members[0]]; }
    }
  }

  lemma FourAfter(prefix: Text, done: Text, sep: Text, key: Text, value: Text)
    ensures prefix + done + sep + key + [Colon] + value == prefix + (done + sep + (key + [Colon] + value))
  {
    var member := key + [Colon] + value;
    assert prefix + done + sep + key + [Colon] + value == prefix + done + sep + member;
    assert prefix + done + sep == prefix + (done + sep);
    assert prefix + (done + sep) + member == prefix + (done + sep + member);
  }

  /** The text of the members written so far grows by one member. */
  lemma MemberWritten(prefix: Text, members: seq<Member>, k: nat, before: Text)
    requires k < |members| && before == prefix + WriteMembers(members[..k])
    ensures before + (if k == 0 then [] else [Comma]) + WriteString(members[k].key) + [Colon] + Write(members[k].value)
         == prefix + WriteMembers(members[..k + 1])
  {
    WriteMembersSnoc(members, k);
    hide Write, WriteMembers, WriteString;
    var sep, key, value := if k == 0 then [] else [Comma], WriteString(members[k].key), Write(members[k].value);
    var done := WriteMembers(members[..k]);
    assert WriteMember(members[k]) == key + [Colon] + value;
    FourAfter(prefix, done, sep, key, value);
  }

  /** Backslashes first, then quotes. */
  method AppendJsonString(out: Text, value: Text) returns (r: Text)
    ensures r == out + WriteString(value)
  {
    var escaped := ReplaceAll(value, Backslash, [Backslash, Backslash]);
    escaped := ReplaceAll(escaped, Quote, [Backslash, Quote]);
    TwoReplacementsEscape(value);
    r := out + [Quote] + escaped + [Quote];
    assert r == out + WriteString(value);
  }

  method AppendKey(out: Text, first: bool, key: string) returns (r: Text)
    ensures r == out + (if first then [] else [Comma]) + WriteString(Ascii(key)) + [Colon]
  {
    r := if first then out else out + [Comma];
    assert out + [] == out;
    r := AppendJsonString(r, Ascii(key));
    r := r + [Colon];
  }

  method AppendHistory(out: Text, history: seq<Text>) returns (r: Text)
    ensures r == out + Write(JArray(Strings(history)))
  {
    var items := Strings(history);
    r := out + [OpenBracket];
    var i := 0;
    while i < |history|
      invariant 0 <= i <= |history|
      invariant r == out + [OpenBracket] + WriteItems(items[..i])
    {
      WriteItemsSnoc(items, i);
      ghost var before := r;
      if i != 0 { r := r + [Comma]; }
      r := AppendJsonString(r, history[i]);
      assert r == before + (if i == 0 then [] else [Comma]) + Write(items[i]);
      i := i + 1;
    }
    assert items[..i] == items;
    r := r + [CloseBracket];
    assert r == out + ([OpenBracket] + WriteItems(items) + [CloseBracket]);
  }

  method AppendTab(out: Text, tab: Snapshot) returns (r: Text)
    ensures r == out + Write(TabJson(tab))
  {
    hide Write, WriteString, WriteMembers, Ascii, KindText;
    ghost var ms, start := TabMembers(tab), out + [OpenBrace];
    r := out + [OpenBrace];
    NothingWritten(start, ms);
    MemberWritten(start, ms, 0, r);
    r := AppendKey(r, true, "id");
    r := AppendText(r, tab.id);
    MemberWritten(start, ms, 1, r);
    r := AppendKey(r, false, "kind");
    r := AppendText(r, KindText(tab.kind));
    MemberWritten(start, ms, 2, r);
    r := AppendKey(r, false, "title");
    r := AppendText(r, tab.title);
    MemberWritten(start, ms, 3, r);
    r := AppendKey(r, false, "address");
    r := AppendText(r, tab.address);
    MemberWritten(start, ms, 4, r);
    r := AppendKey(r, false, "history");
    r := AppendHistory(r, tab.history);
    MemberWritten(start, ms, 5, r);
    r := AppendKey(r, false, "historyIndex");
    r := AppendNumber(r, tab.historyIndex);
    r := r + [CloseBrace];
    ObjectWritten(out, ms);
  }

  lemma NothingWritten(start: Text, ms: seq<Member>)
    ensures start == start + WriteMembers(ms[..0])
  {}

  lemma ObjectWritten(out: Text, ms: seq<Member>)
    ensures out + [OpenBrace] + WriteMembers(ms) + [CloseBrace] == out + Write(JObject(ms))
    ensures ms[..|ms|] == ms
  {
    var inner := WriteMembers(ms);
    Bracketed(out, [OpenBrace], inner, [CloseBrace]);
  }

  lemma Bracketed(out: Text, open: Text, inner: Text, close: Text)
    ensures out + open + inner + close == out + (open + inner + close)
  {
    assert out + open + inner == out + (open + inner);
  }

  method AppendText(out: Text, value: Text) returns (r: Text)
    ensures r == out + Write(JString(value))
  {
    r := AppendJsonString(out, value);
  }

  method AppendNumber(out: Text, n: int) returns (r: Text)
    ensures r == out + Write(JNumber(n))
  {
    r := out + WriteInt(n);
  }

  method AppendGeometry(out: Text, w: Window) returns (r: Text)
    ensures r == out + Write(JObject(GeometryMembers(w)))
  {
    hide Write, WriteString, WriteMembers, Ascii;
    ghost var ms, start := GeometryMembers(w), out + [OpenBrace];
    r := out + [OpenBrace];
    NothingWritten(start, ms);
    MemberWritten(start, ms, 0, r);
    r := AppendKey(r, true, "x");
    r := AppendNumber(r, w.x);
    MemberWritten(start, ms, 1, r);
    r := AppendKey(r, false, "y");
    r := AppendNumber(r, w.y);
    MemberWritten(start, ms, 2, r);
    r := AppendKey(r, false, "width");
    r := AppendNumber(r, w.width);
    MemberWritten(start, ms, 3, r);
    r := AppendKey(r, false, "height");
    r := AppendNumber(r, w.height);
    r := r + [CloseBrace];
    ObjectWritten(out, ms);
  }

  method AppendTabs(out: Text, tabs: seq<Snapshot>) returns (r: Text)
    ensures r == out + Write(JArray(TabsJson(tabs)))
  {
    var items := TabsJson(tabs);
    r := out + [OpenBracket];
    var i := 0;
    while i < |tabs|
      invariant 0 <= i <= |tabs|
      invariant r == out + [OpenBracket] + WriteItems(items[..i])
    {
      WriteItemsSnoc(items, i);
      ghost var before := r;
      if i != 0 { r := r + [Comma]; }
      r := AppendTab(r, tabs[i]);
      assert r == before + (if i == 0 then [] else [Comma]) + Write(items[i]);
      i := i + 1;
    }
    assert items[..i] == items;
    r := r + [CloseBracket];
    assert r == out + ([OpenBracket] + WriteItems(items) + [CloseBracket]);
  }

  method SerializedSnapshot(w: Window) returns (bytes: seq<Byte>)
    requires Paired(DocumentText(w))
    ensures bytes == Serialize(w)
  {
    hide Write, WriteString, WriteMembers, Ascii;
    ghost var ms, start := RootMembers(w), [OpenBrace];
    var r := [OpenBrace];
    NothingWritten(start, ms);
    MemberWritten(start, ms, 0, r);
    r := AppendKey(r, true, "version");
    r := AppendNumber(r, 1);
    MemberWritten(start, ms, 1, r);
    r := AppendKey(r, false, "window");
    r := AppendGeometry(r, w);
    MemberWritten(start, ms, 2, r);
    r := AppendKey(r, false, "activeTabId");
    r := AppendText(r, w.activeTabId);
    MemberWritten(start, ms, 3, r);
    r := AppendKey(r, false, "tabs");
    r := AppendTabs(r, w.tabs);
    r := r + [CloseBrace, Newline];
    ObjectWritten([], ms);
    assert r == [] + [OpenBrace] + WriteMembers(ms) + [CloseBrace] + [Newline];
    assert r == DocumentText(w);
    bytes := Encode(r);
  }

  // ---- Normalising -----------------------------------------------------------------------------------

  method CheckHistory(history: seq<Text>, valid: Text -> bool) returns (ok: bool)
    ensures ok <==> forall entry <- history :: valid(entry)
  {
    var i := 0;
    while i < |history|
      invariant 0 <= i <= |history| && forall k :: 0 <= k < i ==> valid(history[k])
    {
      if !valid(history[i]) {
        assert history[i] in history;
        return false;
      }
      i := i + 1;
    }
    return true;
  }

  method NormalizeTab(tab: Snapshot, valid: Text -> bool, canonicalOnly: bool) returns (r: Option<Snapshot>)
    ensures r == if TabFits(tab, valid, canonicalOnly) then Some(Titled(tab)) else None
  {
    if !IsValidId(tab.id) || tab.history == [] || |tab.history| > MaxHistoryEntries || !InRange(tab.history, tab.historyIndex) {
      return None;
    }
    var title := T.Sanitise(tab.title, false);
    if title.None? || (canonicalOnly && title.value != tab.title) { return None; }
    if !valid(tab.address) { return None; }
    var entriesFit := CheckHistory(tab.history, valid);
    if !entriesFit || tab.history[tab.historyIndex] != tab.address { return None; }
    return Some(tab.(title := title.value));
  }

  method NormalizedSnapshot(w: Window, valid: Text -> bool, canonicalOnly: bool) returns (r: Option<Window>)
    ensures r == Normalized(w, valid, canonicalOnly)
  {
    hide TabFits, Titled, GeometryFits, IsValidId, WindowFits;
    if !GeometryFits(w) || w.tabs == [] || |w.tabs| > MaxOpenTabs || !IsValidId(w.activeTabId) {
      MisfitWindow(w, valid, canonicalOnly, 0);
      return None;
    }
    var tabs: seq<Snapshot>, ids: set<Text>, activeFound, i := [], {}, false, 0;
    while i < |w.tabs|
      invariant 0 <= i <= |w.tabs| && |tabs| == i
      invariant ids == set k | 0 <= k < i :: w.tabs[k].id
      invariant forall j, k :: 0 <= j < k < i ==> w.tabs[j].id != w.tabs[k].id
      invariant forall k :: 0 <= k < i ==> TabFits(w.tabs[k], valid, canonicalOnly) && tabs[k] == Titled(w.tabs[k])
      invariant activeFound <==> exists k :: 0 <= k < i && w.tabs[k].id == w.activeTabId
    {
      var tab := w.tabs[i];
      var normalized := NormalizeTab(tab, valid, canonicalOnly);
      if tab.id in ids || normalized.None? {
        if tab.id in ids {
          var k :| 0 <= k < i && w.tabs[k].id == tab.id;
          assert ClosedIds(w.tabs)[k] == ClosedIds(w.tabs)[i];
        }
        MisfitWindow(w, valid, canonicalOnly, i);
        return None;
      }
      ids := ids + {tab.id};
      activeFound := activeFound || tab.id == w.activeTabId;
      tabs := tabs + [normalized.value];
      i := i + 1;
    }
    assert tabs == TitledAll(w.tabs);
    WindowFitsExactlyWhen(w, valid, canonicalOnly);
    return if activeFound then Some(w.(tabs := tabs)) else None;
  }

  /** Any tab that does not fit, or repeats an id, makes the window unfit. */
  lemma MisfitWindow(w: Window, valid: Text -> bool, canonicalOnly: bool, i: nat)
    requires || !GeometryFits(w) || w.tabs == [] || |w.tabs| > MaxOpenTabs || !IsValidId(w.activeTabId)
             || (i < |w.tabs| && !TabFits(w.tabs[i], valid, canonicalOnly))
             || !Distinct(ClosedIds(w.tabs))
    ensures !WindowFits(w, valid, canonicalOnly)
  {
    if i < |w.tabs| { assert w.tabs[i] in w.tabs; }
  }

  lemma WindowFitsExactlyWhen(w: Window, valid: Text -> bool, canonicalOnly: bool)
    requires GeometryFits(w) && w.tabs != [] && |w.tabs| <= MaxOpenTabs && IsValidId(w.activeTabId)
    requires forall k :: 0 <= k < |w.tabs| ==> TabFits(w.tabs[k], valid, canonicalOnly)
    requires forall j, k :: 0 <= j < k < |w.tabs| ==> w.tabs[j].id != w.tabs[k].id
    ensures WindowFits(w, valid, canonicalOnly) <==> exists k :: 0 <= k < |w.tabs| && w.tabs[k].id == w.activeTabId
  {
    hide TabFits, GeometryFits, IsValidId;
    ActiveIsATab(w);
  }

  lemma ActiveIsATab(w: Window)
    ensures (exists k :: 0 <= k < |w.tabs| && w.tabs[k].id == w.activeTabId) <==> exists tab <- w.tabs :: tab.id == w.activeTabId
  {
    if k :| 0 <= k < |w.tabs| && w.tabs[k].id == w.activeTabId { assert w.tabs[k] in w.tabs; }
  }

  // ---- Reading -----------------------------------------------------------------------------------------

  lemma {:induction false} TextsOfSnoc(items: seq<Json>, k: nat)
    requires k < |items|
    ensures TextsOf(items[..k + 1])
         == if TextsOf(items[..k]).None? || !items[k].JString? then None else Some(TextsOf(items[..k]).value + [items[k].text])
    decreases k
  {
    if k > 0 {
      var rest := items[1..];
      TextsOfSnoc(rest, k - 1);
      assert items[..k + 1][1..] == rest[..k] && items[..k][1..] == rest[..k - 1] && rest[k - 1] == items[k];
      if TextsOf(items[..k + 1]).Some? {
        var r := TextsOf(rest[..k - 1]).value;
        assert [items[0].text] + (r + [items[k].text]) == [items[0].text] + r + [items[k].text];
      }
    } else {
      assert items[..0] == [] && items[..1] == [items[0]] && items[..1][1..] == [];
      if items[0].JString? { assert [items[0].text] + [] == [] + [items[0].text]; }
    }
  }

  lemma {:induction false} TextsOfNone(items: seq<Json>, k: nat)
    requires k <= |items| && TextsOf(items[..k]).None?
    ensures TextsOf(items).None?
    decreases |items| - k
  {
    if k < |items| {
      TextsOfSnoc(items, k);
      TextsOfNone(items, k + 1);
    } else {
      assert items[..k] == items;
    }
  }

  method ReadHistory(items: seq<Json>) returns (r: Option<seq<Text>>)
    ensures r == TextsOf(items)
  {
    var texts: seq<Text>, i := [], 0;
    while i < |items|
      invariant 0 <= i <= |items| && TextsOf(items[..i]) == Some(texts)
    {
      TextsOfSnoc(items, i);
      if !items[i].JString? {
        TextsOfNone(items, i + 1);
        return None;
      }
      texts := texts + [items[i].text];
      i := i + 1;
    }
    assert items[..i] == items;
    return Some(texts);
  }

  lemma {:induction false} TabsOfSnoc(items: seq<Json>, k: nat)
    requires k < |items|
    ensures TabsOf(items[..k + 1])
         == if TabsOf(items[..k]).None? || TabOf(items[k]).None? then None
            else Some(TabsOf(items[..k]).value + [TabOf(items[k]).value])
    decreases k
  {
    hide TabOf;
    if k > 0 {
      var rest := items[1..];
      TabsOfSnoc(rest, k - 1);
      assert items[..k + 1][1..] == rest[..k] && items[..k][1..] == rest[..k - 1] && rest[k - 1] == items[k];
      if TabsOf(items[..k + 1]).Some? {
        var r := TabsOf(rest[..k - 1]).value;
        assert [TabOf(items[0]).value] + (r + [TabOf(items[k]).value]) == [TabOf(items[0]).value] + r + [TabOf(items[k]).value];
      }
    } else {
      assert items[..0] == [] && items[..1] == [items[0]] && items[..1][1..] == [];
      if TabOf(items[0]).Some? { assert [TabOf(items[0]).value] + [] == [] + [TabOf(items[0]).value]; }
    }
  }

  lemma {:induction false} TabsOfNone(items: seq<Json>, k: nat)
    requires k <= |items| && TabsOf(items[..k]).None?
    ensures TabsOf(items).None?
    decreases |items| - k
  {
    if k < |items| {
      TabsOfSnoc(items, k);
      TabsOfNone(items, k + 1);
    } else {
      assert items[..k] == items;
    }
  }

  method ReadTab(j: Json) returns (r: Option<Snapshot>)
    ensures r == TabOf(j)
  {
    if !j.JObject? || Keys(j.members) != TabKeys { return None; }
    var id, kind, title := Lookup(j.members, Ascii("id")), Lookup(j.members, Ascii("kind")), Lookup(j.members, Ascii("title"));
    var address, history := Lookup(j.members, Ascii("address")), Lookup(j.members, Ascii("history"));
    if !IsString(id) || !IsString(kind) || !IsString(title) || !IsString(address) || !IsArray(history) { return None; }
    var k := ParseKind(kind.value.text);
    var index := ExactInteger(Lookup(j.members, Ascii("historyIndex")), 0, MaxHistoryEntries - 1);
    if k.None? || index.None? || history.value.items == [] || |history.value.items| > MaxHistoryEntries { return None; }
    var entries := ReadHistory(history.value.items);
    if entries.None? { return None; }
    return Some(Snapshot(id.value.text, k.value, title.value.text, address.value.text, entries.value, index.value));
  }

  method ReadTabs(items: seq<Json>) returns (r: Option<seq<Snapshot>>)
    ensures r == TabsOf(items)
  {
    var tabs: seq<Snapshot>, i := [], 0;
    while i < |items|
      invariant 0 <= i <= |items| && TabsOf(items[..i]) == Some(tabs)
    {
      TabsOfSnoc(items, i);
      var tab := ReadTab(items[i]);
      if tab.None? {
        TabsOfNone(items, i + 1);
        return None;
      }
      tabs := tabs + [tab.value];
      i := i + 1;
    }
    assert items[..i] == items;
    return Some(tabs);
  }

  method ReadWindow(j: Json) returns (r: Option<Window>)
    ensures r == WindowOf(j)
  {
    hide TabsOf, Ascii, Lookup, Keys;
    if !j.JObject? || Keys(j.members) != RootKeys { return None; }
    var ms := j.members;
    var window, active, tabs := Lookup(ms, Ascii("window")), Lookup(ms, Ascii("activeTabId")), Lookup(ms, Ascii("tabs"));
    if ExactInteger(Lookup(ms, Ascii("version")), 1, 1).None? || !IsObject(window) || !IsString(active) || !IsArray(tabs) {
      return None;
    }
    var gs := window.value.members;
    if Keys(gs) != GeometryKeys { return None; }
    var x := ExactInteger(Lookup(gs, Ascii("x")), -1_000_000, 1_000_000);
    var y := ExactInteger(Lookup(gs, Ascii("y")), -1_000_000, 1_000_000);
    var width := ExactInteger(Lookup(gs, Ascii("width")), 320, 32_768);
    var height := ExactInteger(Lookup(gs, Ascii("height")), 320, 32_768);
    if x.None? || y.None? || width.None? || height.None? { return None; }
    if tabs.value.items == [] || |tabs.value.items| > MaxOpenTabs { return None; }
    var restored := ReadTabs(tabs.value.items);
    if restored.None? { return None; }
    return Some(Window(x.value, y.value, width.value, height.value, active.value.text, restored.value));
  }

  method ParseSnapshot(bytes: seq<Byte>, valid: Text -> bool) returns (r: Option<Window>)
    requires Proper(valid)
    ensures r == Parse(bytes, valid)
  {
    hide WindowFits, ReadDocument, WindowOf, Decode, Encode, Proper, DocumentText;
    var text := Decode(bytes);
    if text.None? { return None; }
    var document := ReadDocument(text.value);
    if document.None? { return None; }
    var window := ReadWindow(document.value);
    if window.None? { return None; }
    var normalized := NormalizedSnapshot(window.value, valid, true);
    if normalized.None? { return None; }
    NormalizedIsValid(window.value, valid, true);
    WindowIsSound(normalized.value, valid);
    var canonical := SerializedSnapshot(normalized.value);
    return if canonical == bytes then normalized else None;
  }

  // ---- Resolving ---------------------------------------------------------------------------------------

  /** The kinds are decided anew from the addresses: what no longer resolves becomes a trusted error; nothing else changes. */
  method ValidateAndResolve(raw: Window, valid: Text -> bool, resolver: Text -> Option<Kind>) returns (r: Option<Window>)
    ensures r.Some? <==> ValidWindow(raw, valid)
    ensures r.Some? ==>
              && ValidWindow(r.value, valid) && r.value == raw.(tabs := r.value.tabs) && |r.value.tabs| == |raw.tabs|
              && forall i :: 0 <= i < |raw.tabs| ==>
                   && r.value.tabs[i] == raw.tabs[i].(kind := r.value.tabs[i].kind)
                   && r.value.tabs[i].kind == (var k := resolver(raw.tabs[i].address); if k.Some? then k.value else TrustedError)
  {
    var resolved := NormalizedSnapshot(raw, valid, true);
    NormalizedIsValid(raw, valid, true);
    if resolved.None? { return None; }
    var tabs := resolved.value.tabs;
    var i := 0;
    while i < |tabs|
      invariant 0 <= i <= |tabs| && |tabs| == |raw.tabs|
      invariant forall k :: 0 <= k < i ==>
                  && tabs[k] == raw.tabs[k].(kind := tabs[k].kind)
                  && tabs[k].kind == (var kind := resolver(raw.tabs[k].address); if kind.Some? then kind.value else TrustedError)
      invariant forall k :: i <= k < |tabs| ==> tabs[k] == raw.tabs[k]
    {
      var kind := resolver(tabs[i].address);
      tabs := tabs[i := tabs[i].(kind := if kind.Some? then kind.value else TrustedError)];
      i := i + 1;
    }
    KindsDoNotMatter(raw, tabs, valid);
    return Some(raw.(tabs := tabs));
  }

  lemma KindsDoNotMatter(w: Window, tabs: seq<Snapshot>, valid: Text -> bool)
    requires ValidWindow(w, valid) && |tabs| == |w.tabs|
    requires forall i :: 0 <= i < |tabs| ==> tabs[i] == w.tabs[i].(kind := tabs[i].kind)
    ensures ValidWindow(w.(tabs := tabs), valid)
  {
    assert ClosedIds(tabs) == ClosedIds(w.tabs);
    forall tab <- tabs ensures TabFits(tab, valid, true) {
      var i :| 0 <= i < |tabs| && tabs[i] == tab;
      assert w.tabs[i] in w.tabs;
    }
    var active :| active in w.tabs && active.id == w.activeTabId;
    var i :| 0 <= i < |w.tabs| && w.tabs[i] == active;
    assert tabs[i] in tabs;
  }
}
