/**
 The saved session: which windows can be saved, the bytes they are saved as, and what
 is loaded from bytes.  `valid` stands for the canonical logical addresses.
 */
module SessionStore {
  import opened Common
  import opened Utf16
  import opened Utf8
  import opened Titles
  import opened TabModel
  import opened Json

  datatype Window = Window(x: int, y: int, width: int, height: int, activeTabId: Text, tabs: seq<Snapshot>)

  /** Canonical addresses are not empty, well paired and free of control characters. */
  ghost predicate Proper(valid: Text -> bool) {
    forall a :: valid(a) ==> a != [] && Paired(a) && NoControls(a)
  }

  // ---- Normalisation -----------------------------------------------------------------------------

  predicate GeometryFits(w: Window) {
    && -1_000_000 <= w.x <= 1_000_000 && -1_000_000 <= w.y <= 1_000_000
    && 320 <= w.width <= 32_768 && 320 <= w.height <= 32_768
  }

  predicate TabFits(tab: Snapshot, valid: Text -> bool, canonicalOnly: bool) {
    && IsValidId(tab.id) && 1 <= |tab.history| <= MaxHistoryEntries && InRange(tab.history, tab.historyIndex)
    && CanonicalTitle(tab.title).Some? && (canonicalOnly ==> CanonicalTitle(tab.title).value == tab.title)
    && valid(tab.address) && (forall entry <- tab.history :: valid(entry))
    && tab.history[tab.historyIndex] == tab.address
  }

  predicate WindowFits(w: Window, valid: Text -> bool, canonicalOnly: bool) {
    && GeometryFits(w) && 1 <= |w.tabs| <= MaxOpenTabs && IsValidId(w.activeTabId)
    && (forall tab <- w.tabs :: TabFits(tab, valid, canonicalOnly))
    && Distinct(ClosedIds(w.tabs))
    && (exists tab <- w.tabs :: tab.id == w.activeTabId)
  }

  function Titled(tab: Snapshot): Snapshot {
    var title := CanonicalTitle(tab.title);
    if title.Some? then tab.(title := title.value) else tab
  }

  function TitledAll(tabs: seq<Snapshot>): (r: seq<Snapshot>)
    ensures |r| == |tabs| && forall i :: 0 <= i < |tabs| ==> r[i] == Titled(tabs[i])
  {
    seq(|tabs|, i requires 0 <= i < |tabs| => Titled(tabs[i]))
  }

  function Normalized(w: Window, valid: Text -> bool, canonicalOnly: bool): Option<Window> {
    if WindowFits(w, valid, canonicalOnly) then Some(w.(tabs := TitledAll(w.tabs))) else None
  }

  /** A window that is what it is normalised to. */
  predicate ValidWindow(w: Window, valid: Text -> bool) {
    WindowFits(w, valid, true)
  }

  /** What can be saved is, once normalised, valid; and the valid windows are exactly those that stay as they are. */
  lemma NormalizedIsValid(w: Window, valid: Text -> bool, canonicalOnly: bool)
    ensures Normalized(w, valid, canonicalOnly).Some? ==> ValidWindow(Normalized(w, valid, canonicalOnly).value, valid)
    ensures ValidWindow(w, valid) <==> Normalized(w, valid, true) == Some(w)
    ensures ValidWindow(w, valid) ==> Normalized(w, valid, false) == Some(w)
    ensures Normalized(w, valid, true).Some? ==> Normalized(w, valid, true) == Some(w)
  {
    if WindowFits(w, valid, canonicalOnly) {
      var n := w.(tabs := TitledAll(w.tabs));
      forall tab <- n.tabs ensures TabFits(tab, valid, true) {
        var i :| 0 <= i < |n.tabs| && n.tabs[i] == tab;
        assert w.tabs[i] in w.tabs;
        TitleIsAFullPrefix(w.tabs[i].title);
      }
      assert ClosedIds(n.tabs) == ClosedIds(w.tabs);
      var active :| active in w.tabs && active.id == w.activeTabId;
      var i :| 0 <= i < |w.tabs| && w.tabs[i] == active;
      assert n.tabs[i] in n.tabs && n.tabs[i].id == w.activeTabId;
    }
    if WindowFits(w, valid, true) {
      assert forall i :: 0 <= i < |w.tabs| ==> w.tabs[i] in w.tabs;
      assert TitledAll(w.tabs) == w.tabs;
    }
  }

  // ---- The document --------------------------------------------------------------------------------

  function Ascii(s: string): (t: Text)
    ensures |t| == |s|
    ensures forall i :: 0 <= i < |s| && 0x20 <= (s[i] as int) < 0x80 ==> t[i] == s[i] as int
    ensures forall u <- t :: 0x20 <= u < 0x80
  {
    seq(|s|, i requires 0 <= i < |s| => if 0x20 <= (s[i] as int) < 0x80 then s[i] as int else 0x3F)
  }

  function KindText(kind: Kind): Text {
    match kind
    case Host => Ascii("host")
    case App => Ascii("app")
    case Web => Ascii("web")
    case TrustedError => Ascii("trusted-error")
  }

  function ParseKind(t: Text): Option<Kind> {
    if t == Ascii("host") then Some(Host)
    else if t == Ascii("app") then Some(App)
    else if t == Ascii("web") then Some(Web)
    else if t == Ascii("trusted-error") then Some(TrustedError)
    else None
  }

  function Strings(texts: seq<Text>): (items: seq<Json>)
    ensures |items| == |texts| && forall i :: 0 <= i < |texts| ==> items[i] == JString(texts[i])
  {
    seq(|texts|, i requires 0 <= i < |texts| => JString(texts[i]))
  }

  function TabMembers(tab: Snapshot): seq<Member> {
    [Member(Ascii("id"), JString(tab.id)), Member(Ascii("kind"), JString(KindText(tab.kind))),
     Member(Ascii("title"), JString(tab.title)), Member(Ascii("address"), JString(tab.address)),
     Member(Ascii("history"), JArray(Strings(tab.history))), Member(Ascii("historyIndex"), JNumber(tab.historyIndex))]
  }

  function TabJson(tab: Snapshot): Json { JObject(TabMembers(tab)) }

  function TabsJson(tabs: seq<Snapshot>): (items: seq<Json>)
    ensures |items| == |tabs| && forall i :: 0 <= i < |tabs| ==> items[i] == TabJson(tabs[i])
  {
    seq(|tabs|, i requires 0 <= i < |tabs| => TabJson(tabs[i]))
  }

  function GeometryMembers(w: Window): seq<Member> {
    [Member(Ascii("x"), JNumber(w.x)), Member(Ascii("y"), JNumber(w.y)),
     Member(Ascii("width"), JNumber(w.width)), Member(Ascii("height"), JNumber(w.height))]
  }

  function RootMembers(w: Window): seq<Member> {
    [Member(Ascii("version"), JNumber(1)), Member(Ascii("window"), JObject(GeometryMembers(w))),
     Member(Ascii("activeTabId"), JString(w.activeTabId)), Member(Ascii("tabs"), JArray(TabsJson(w.tabs)))]
  }

  function WindowJson(w: Window): Json { JObject(RootMembers(w)) }

  /** The text of a saved session: one line. */
  function DocumentText(w: Window): Text {
    Write(WindowJson(w)) + [Newline]
  }

  // ---- Reading the document ---------------------------------------------------------------------------

  /** The value of a key; of several with the same key the last counts. */
  function Lookup(members: seq<Member>, key: Text): Option<Json> {
    if members == [] then None
    else
      var later := Lookup(members[1..], key);
      if later.Some? then later else if members[0].key == key then Some(members[0].value) else None
  }

  function Keys(members: seq<Member>): set<Text> {
    set m <- members :: m.key
  }

  function ExactInteger(v: Option<Json>, minimum: int, maximum: int): Option<int> {
    if v.Some? && v.value.JNumber? && minimum <= v.value.value <= maximum then Some(v.value.value) else None
  }

  function TextsOf(items: seq<Json>): Option<seq<Text>> {
    if items == [] then Some([])
    else
      var rest := TextsOf(items[1..]);
      if !items[0].JString? || rest.None? then None else Some([items[0].text] + rest.value)
  }

  predicate IsString(v: Option<Json>) { v.Some? && v.value.JString? }

  predicate IsArray(v: Option<Json>) { v.Some? && v.value.JArray? }

  predicate IsObject(v: Option<Json>) { v.Some? && v.value.JObject? }

  const TabKeys: set<Text> :=
    {Ascii("id"), Ascii("kind"), Ascii("title"), Ascii("address"), Ascii("history"), Ascii("historyIndex")}

  const GeometryKeys: set<Text> := {Ascii("x"), Ascii("y"), Ascii("width"), Ascii("height")}

  const RootKeys: set<Text> := {Ascii("version"), Ascii("window"), Ascii("activeTabId"), Ascii("tabs")}

  function TabOf(j: Json): Option<Snapshot> {
    if !j.JObject? then None
    else
      var ms := j.members;
      var id, kind, title := Lookup(ms, Ascii("id")), Lookup(ms, Ascii("kind")), Lookup(ms, Ascii("title"));
      var address, history := Lookup(ms, Ascii("address")), Lookup(ms, Ascii("history"));
      if Keys(ms) != TabKeys || !IsString(id) || !IsString(kind) || !IsString(title) || !IsString(address) || !IsArray(history)
      then None
      else
        var k := ParseKind(kind.value.text);
        var index := ExactInteger(Lookup(ms, Ascii("historyIndex")), 0, MaxHistoryEntries - 1);
        var entries := TextsOf(history.value.items);
        if k.None? || index.None? || !(1 <= |history.value.items| <= MaxHistoryEntries) || entries.None? then None
        else Some(Snapshot(id.value.text, k.value, title.value.text, address.value.text, entries.value, index.value))
  }

  function TabsOf(items: seq<Json>): Option<seq<Snapshot>> {
    if items == [] then Some([])
    else
      var first, rest := TabOf(items[0]), TabsOf(items[1..]);
      if first.None? || rest.None? then None else Some([first.value] + rest.value)
  }

  function WindowOf(j: Json): Option<Window> {
    if !j.JObject? then None
    else
      var ms := j.members;
      var window, active, tabs := Lookup(ms, Ascii("window")), Lookup(ms, Ascii("activeTabId")), Lookup(ms, Ascii("tabs"));
      if Keys(ms) != RootKeys || ExactInteger(Lookup(ms, Ascii("version")), 1, 1).None?
         || !IsObject(window) || !IsString(active) || !IsArray(tabs) || Keys(window.value.members) != GeometryKeys
      then None
      else
        var gs := window.value.members;
        var x := ExactInteger(Lookup(gs, Ascii("x")), -1_000_000, 1_000_000);
        var y := ExactInteger(Lookup(gs, Ascii("y")), -1_000_000, 1_000_000);
        var width := ExactInteger(Lookup(gs, Ascii("width")), 320, 32_768);
        var height := ExactInteger(Lookup(gs, Ascii("height")), 320, 32_768);
        var restored := TabsOf(tabs.value.items);
        if x.None? || y.None? || width.None? || height.None? || !(1 <= |tabs.value.items| <= MaxOpenTabs) || restored.None?
        then None
        else Some(Window(x.value, y.value, width.value, height.value, active.value.text, restored.value))
  }

  // ---- The document gives the window back ---------------------------------------------------------------

  predicate DistinctKeys(members: seq<Member>) {
    forall i, j :: 0 <= i < j < |members| ==> members[i].key != members[j].key
  }

  lemma {:induction false} LookupAt(members: seq<Member>, i: nat)
    requires DistinctKeys(members) && i < |members|
    ensures Lookup(members, members[i].key) == Some(members[i].value)
  {
    if i > 0 {
      LookupAt(members[1..], i - 1);
    } else {
      LookupNone(members[1..], members[0].key);
    }
  }

  lemma {:induction false} LookupNone(members: seq<Member>, key: Text)
    requires forall i :: 0 <= i < |members| ==> members[i].key != key
    ensures Lookup(members, key) == None
  {
    if members != [] { LookupNone(members[1..], key); }
  }

  lemma TabKeysDiffer()
    ensures |Ascii("id")| == 2 && |Ascii("kind")| == 4 && |Ascii("title")| == 5 && |Ascii("address")| == 7
    ensures |Ascii("history")| == 7 && |Ascii("historyIndex")| == 12 && Ascii("address")[0] != Ascii("history")[0]
  {
    assert "address"[0] == 'a' && "history"[0] == 'h';
  }

  lemma RootKeysDiffer()
    ensures |Ascii("version")| == 7 && |Ascii("window")| == 6 && |Ascii("activeTabId")| == 11 && |Ascii("tabs")| == 4
    ensures |Ascii("x")| == 1 && |Ascii("y")| == 1 && |Ascii("width")| == 5 && |Ascii("height")| == 6
    ensures Ascii("x")[0] != Ascii("y")[0]
  {
    assert "x"[0] == 'x' && "y"[0] == 'y';
  }

  lemma KindsDiffer()
    ensures |Ascii("host")| == 4 && |Ascii("app")| == 3 && |Ascii("web")| == 3 && |Ascii("trusted-error")| == 13
    ensures Ascii("app")[0] != Ascii("web")[0]
  {
    assert "app"[0] == 'a' && "web"[0] == 'w';
  }

  /** Kinds and their texts correspond one to one. */
  lemma KindRoundTrip(kind: Kind, t: Text)
    ensures ParseKind(KindText(kind)) == Some(kind)
    ensures ParseKind(t).Some? ==> KindText(ParseKind(t).value) == t
  {
    KindsDiffer();
  }

  lemma {:induction false} TextsOfStrings(texts: seq<Text>)
    ensures TextsOf(Strings(texts)) == Some(texts)
  {
    if texts != [] {
      assert Strings(texts)[1..] == Strings(texts[1..]);
      TextsOfStrings(texts[1..]);
      assert texts == [texts[0]] + texts[1..];
    }
  }

  lemma TabMembersDistinct(tab: Snapshot)
    ensures DistinctKeys(TabMembers(tab)) && Keys(TabMembers(tab)) == TabKeys
  {
    TabKeysDiffer();
    var ms := TabMembers(tab);
    assert forall i :: 0 <= i < |ms| ==> ms[i] in ms;
    assert ms[0] in ms && ms[1] in ms && ms[2] in ms && ms[3] in ms && ms[4] in ms && ms[5] in ms;
  }

  lemma TabRoundTrip(tab: Snapshot)
    requires 1 <= |tab.history| <= MaxHistoryEntries && InRange(tab.history, tab.historyIndex)
    ensures TabOf(TabJson(tab)) == Some(tab)
  {
    hide Lookup, KindText, ParseKind, Ascii, Keys;
    var ms := TabMembers(tab);
    TabMembersDistinct(tab);
    LookupAt(ms, 0);
    LookupAt(ms, 1);
    LookupAt(ms, 2);
    LookupAt(ms, 3);
    LookupAt(ms, 4);
    LookupAt(ms, 5);
    KindRoundTrip(tab.kind, []);
    TextsOfStrings(tab.history);
  }

  lemma {:induction false} TabsRoundTrip(tabs: seq<Snapshot>)
    requires forall tab <- tabs :: 1 <= |tab.history| <= MaxHistoryEntries && InRange(tab.history, tab.historyIndex)
    ensures TabsOf(TabsJson(tabs)) == Some(tabs)
  {
    hide TabOf, TabJson, InRange;
    if tabs != [] {
      assert TabsJson(tabs)[1..] == TabsJson(tabs[1..]);
      assert tabs[0] in tabs && forall tab <- tabs[1..] :: tab in tabs;
      TabRoundTrip(tabs[0]);
      TabsRoundTrip(tabs[1..]);
      assert tabs == [tabs[0]] + tabs[1..];
    }
  }

  lemma RootMembersDistinct(w: Window)
    ensures DistinctKeys(RootMembers(w)) && Keys(RootMembers(w)) == RootKeys
    ensures DistinctKeys(GeometryMembers(w)) && Keys(GeometryMembers(w)) == GeometryKeys
  {
    RootKeysDiffer();
    var ms, gs := RootMembers(w), GeometryMembers(w);
    assert ms[0] in ms && ms[1] in ms && ms[2] in ms && ms[3] in ms;
    assert gs[0] in gs && gs[1] in gs && gs[2] in gs && gs[3] in gs;
  }

  lemma GeometryLookups(w: Window)
    ensures var gs := GeometryMembers(w);
      && Lookup(gs, Ascii("x")) == Some(JNumber(w.x)) && Lookup(gs, Ascii("y")) == Some(JNumber(w.y))
      && Lookup(gs, Ascii("width")) == Some(JNumber(w.width)) && Lookup(gs, Ascii("height")) == Some(JNumber(w.height))
  {
    hide Lookup, Ascii;
    var gs := GeometryMembers(w);
    RootMembersDistinct(w);
    LookupAt(gs, 0);
    LookupAt(gs, 1);
    LookupAt(gs, 2);
    LookupAt(gs, 3);
  }

  lemma WindowRoundTrip(w: Window, valid: Text -> bool)
    requires ValidWindow(w, valid)
    ensures WindowOf(WindowJson(w)) == Some(w)
  {
    hide Lookup, Ascii, Keys, TabOf, TabsOf, GeometryMembers;
    var ms := RootMembers(w);
    RootMembersDistinct(w);
    GeometryLookups(w);
    LookupAt(ms, 0);
    LookupAt(ms, 1);
    LookupAt(ms, 2);
    LookupAt(ms, 3);
    TabsRoundTrip(w.tabs);
  }

  // ---- Bytes -----------------------------------------------------------------------------------------

  /** Every string of the value is well paired. */
  predicate PairedJson(v: Json)
    decreases v
  {
    match v
    case JString(t) => Paired(t)
    case JNumber(_) => true
    case JArray(items) => forall i <- items :: PairedJson(i)
    case JObject(members) => forall m <- members :: Paired(m.key) && PairedJson(m.value)
  }

  lemma {:induction false} AsciiIsPaired(t: Text)
    requires forall u <- t :: u < 0x80
    ensures Paired(t)
  {
    if t != [] {
      assert t[0] in t && forall u <- t[1..] :: u in t;
      AsciiIsPaired(t[1..]);
    }
  }

  lemma {:induction false} EscapeIsPaired(t: Text)
    requires Paired(t)
    ensures Paired(Escape(t))
  {
    if t != [] {
      if IsHigh(t[0]) {
        EscapeIsPaired(t[2..]);
        assert t[1..][1..] == t[2..];
        assert Escape(t) == [t[0]] + ([t[1]] + Escape(t[2..]));
        assert Escape(t)[2..] == Escape(t[2..]);
      } else {
        EscapeIsPaired(t[1..]);
        AsciiIsPaired([Backslash]);
        assert Escape(t) == EscapeUnit(t[0]) + Escape(t[1..]);
        SingleIsPaired(t[0]);
        EncodeAppend(EscapeUnit(t[0]), Escape(t[1..]));
      }
    }
  }

  lemma SingleIsPaired(u: CodeUnit)
    requires !IsHigh(u) && !IsLow(u)
    ensures Paired(EscapeUnit(u)) && Paired([u])
  {
    assert [u][1..] == [] && [Backslash, u][1..] == [u];
  }

  lemma {:induction false} DigitsAreAscii(n: nat)
    ensures forall u <- Digits(n) :: u < 0x80
    decreases n
  {
    if n >= 10 { DigitsAreAscii(n / 10); }
  }

  lemma Around(open: CodeUnit, inner: Text, close: CodeUnit)
    requires Paired(inner) && open < 0x80 && close < 0x80
    ensures Paired([open] + inner + [close])
  {
    AsciiIsPaired([open]);
    AsciiIsPaired([close]);
    EncodeAppend([open], inner);
    EncodeAppend([open] + inner, [close]);
  }

  lemma {:induction false} WriteIsPaired(v: Json)
    requires PairedJson(v)
    ensures Paired(Write(v))
    decreases v, 1
  {
    match v
    case JString(t) =>
      EscapeIsPaired(t);
      Around(Quote, Escape(t), Quote);
    case JNumber(n) =>
      var m: nat := if n < 0 then -n else n;
      DigitsAreAscii(m);
      AsciiIsPaired(Digits(m));
      AsciiIsPaired([Minus]);
      EncodeAppend([Minus], Digits(m));
    case JArray(items) =>
      ItemsArePaired(items);
      Around(OpenBracket, WriteItems(items), CloseBracket);
    case JObject(members) =>
      MembersArePaired(members);
      Around(OpenBrace, WriteMembers(members), CloseBrace);
  }

  lemma {:induction false} ItemsArePaired(items: seq<Json>)
    requires forall i <- items :: PairedJson(i)
    ensures Paired(WriteItems(items))
    decreases items, 0
  {
    if items != [] {
      WriteIsPaired(items[0]);
      if |items| > 1 {
        ItemsArePaired(items[1..]);
        AsciiIsPaired([Comma]);
        EncodeAppend(Write(items[0]), [Comma]);
        EncodeAppend(Write(items[0]) + [Comma], WriteItems(items[1..]));
      }
    }
  }

  lemma {:induction false} MembersArePaired(members: seq<Member>)
    requires forall m <- members :: Paired(m.key) && PairedJson(m.value)
    ensures Paired(WriteMembers(members))
    decreases members, 0
  {
    if members != [] {
      var m := members[0];
      assert m in members;
      EscapeIsPaired(m.key);
      Around(Quote, Escape(m.key), Quote);
      WriteIsPaired(m.value);
      AsciiIsPaired([Colon]);
      EncodeAppend(WriteString(m.key), [Colon]);
      EncodeAppend(WriteString(m.key) + [Colon], Write(m.value));
      if |members| > 1 {
        MembersArePaired(members[1..]);
        AsciiIsPaired([Comma]);
        EncodeAppend(WriteMember(m), [Comma]);
        EncodeAppend(WriteMember(m) + [Comma], WriteMembers(members[1..]));
      }
    }
  }

  /** What a valid window puts into the document can be written and read. */
  predicate Sound(v: Json) { PairedJson(v) && Printable(v) }

  lemma ObjectIsSound(members: seq<Member>)
    requires forall i :: 0 <= i < |members| ==> Paired(members[i].key) && NoControls(members[i].key) && Sound(members[i].value)
    ensures Sound(JObject(members))
  {
    forall m <- members ensures PrintableMember(m) && Paired(m.key) && PairedJson(m.value) {
      var i :| 0 <= i < |members| && members[i] == m;
    }
  }

  lemma NumberIsSound(n: int)
    ensures Sound(JNumber(n))
  {}

  lemma ArrayIsSound(items: seq<Json>)
    requires forall i <- items :: Sound(i)
    ensures Sound(JArray(items))
  {}

  lemma TextsAreSound(tab: Snapshot, valid: Text -> bool)
    requires Proper(valid) && TabFits(tab, valid, true)
    ensures Sound(JString(tab.id)) && Sound(JString(KindText(tab.kind))) && Sound(JString(tab.title)) && Sound(JString(tab.address))
    ensures forall i <- Strings(tab.history) :: Sound(i)
  {
    HexIsSound(tab.id);
    AsciiIsPaired(KindText(tab.kind));
    TitleIsAFullPrefix(tab.title);
    assert forall u <- tab.title :: !IsDropped(u);
    forall i <- Strings(tab.history) ensures Sound(i) {
      var k :| 0 <= k < |tab.history| && i == JString(tab.history[k]);
      assert tab.history[k] in tab.history;
    }
  }

  lemma HexIsSound(id: Text)
    requires IsValidId(id)
    ensures Sound(JString(id))
  {
    forall u <- id ensures 0x20 <= u < 0x80 { assert IsHexDigit(u); }
    AsciiIsPaired(id);
  }

  lemma KeyIsSound(key: string)
    ensures Paired(Ascii(key)) && NoControls(Ascii(key))
  {
    AsciiIsPaired(Ascii(key));
  }

  lemma TabIsSound(tab: Snapshot, valid: Text -> bool)
    requires Proper(valid) && TabFits(tab, valid, true)
    ensures Sound(TabJson(tab))
  {
    hide Ascii, NoControls, Paired, TabFits, KindText;
    NumberIsSound(tab.historyIndex);
    TextsAreSound(tab, valid);
    KeyIsSound("id");
    KeyIsSound("kind");
    KeyIsSound("title");
    KeyIsSound("address");
    KeyIsSound("history");
    KeyIsSound("historyIndex");
    ArrayIsSound(Strings(tab.history));
    hide Sound;
    ObjectIsSound(TabMembers(tab));
  }

  lemma WindowIsSound(w: Window, valid: Text -> bool)
    requires Proper(valid) && ValidWindow(w, valid)
    ensures Sound(WindowJson(w)) && Paired(DocumentText(w))
  {
    forall j <- TabsJson(w.tabs) ensures Sound(j) {
      var k :| 0 <= k < |w.tabs| && j == TabJson(w.tabs[k]);
      assert w.tabs[k] in w.tabs;
      TabIsSound(w.tabs[k], valid);
    }
    HexIsSound(w.activeTabId);
    RootIsSound(w);
    WriteIsPaired(WindowJson(w));
    AsciiIsPaired([Newline]);
    EncodeAppend(Write(WindowJson(w)), [Newline]);
  }

  lemma RootIsSound(w: Window)
    requires Sound(JString(w.activeTabId)) && forall j <- TabsJson(w.tabs) :: Sound(j)
    ensures Sound(WindowJson(w))
  {
    hide Ascii, NoControls, Paired;
    NumberIsSound(1);
    KeyIsSound("version");
    KeyIsSound("window");
    KeyIsSound("activeTabId");
    KeyIsSound("tabs");
    KeyIsSound("x");
    KeyIsSound("y");
    KeyIsSound("width");
    KeyIsSound("height");
    ArrayIsSound(TabsJson(w.tabs));
    ObjectIsSound(GeometryMembers(w));
    hide Sound;
    ObjectIsSound(RootMembers(w));
  }

  /** The bytes a valid window is saved as. */
  function Serialize(w: Window): seq<Byte>
    requires Paired(DocumentText(w))
  {
    Encode(DocumentText(w))
  }

  /** What is loaded: only the very bytes that saving would have written. */
  function Parse(bytes: seq<Byte>, valid: Text -> bool): Option<Window>
    requires Proper(valid)
  {
    var text := Decode(bytes);
    var document := if text.None? then None else ReadDocument(text.value);
    var window := if document.None? then None else WindowOf(document.value);
    var normalized := if window.None? then None else Normalized(window.value, valid, true);
    if normalized.None? then None
    else
      NormalizedIsValid(window.value, valid, true);
      WindowIsSound(normalized.value, valid);
      if Serialize(normalized.value) == bytes then normalized else None
  }

  // ---- Theorems -----------------------------------------------------------------------------------------

  /** A saved valid window is loaded as it was. */
  lemma ParseSerialize(w: Window, valid: Text -> bool)
    requires Proper(valid) && ValidWindow(w, valid)
    ensures Paired(DocumentText(w)) && Parse(Serialize(w), valid) == Some(w)
  {
    WindowIsSound(w, valid);
    DecodeEncode(DocumentText(w));
    DocumentRoundTrip(w);
    WindowRoundTrip(w, valid);
    NormalizedIsValid(w, valid, true);
    hide WindowFits, WindowJson, DocumentText, Proper, Decode, Encode, ReadDocument, WindowOf;
  }

  lemma DocumentRoundTrip(w: Window)
    requires Printable(WindowJson(w))
    ensures ReadDocument(DocumentText(w)) == Some(WindowJson(w))
  {
    ReadWritten(WindowJson(w), [Newline]);
    assert [Newline][1..] == [];
    assert SkipSpace([]) == [];
  }

  /** Whatever can be saved at all, its titles sanitised, comes back. */
  lemma LoadUndoesSave(raw: Window, valid: Text -> bool)
    requires Proper(valid) && Normalized(raw, valid, false).Some?
    ensures var w := Normalized(raw, valid, false).value; Paired(DocumentText(w)) && Parse(Serialize(w), valid) == Some(w)
  {
    NormalizedIsValid(raw, valid, false);
    ParseSerialize(Normalized(raw, valid, false).value, valid);
  }

  /** What is loaded is valid and would be saved as the same bytes; and exactly those bytes are loaded. */
  lemma LoadedExactlyWhenSaved(bytes: seq<Byte>, w: Window, valid: Text -> bool)
    requires Proper(valid)
    ensures Parse(bytes, valid) == Some(w) <==> ValidWindow(w, valid) && Paired(DocumentText(w)) && Serialize(w) == bytes
  {
    if Parse(bytes, valid) == Some(w) {
      var window := WindowOf(ReadDocument(Decode(bytes).value).value).value;
      NormalizedIsValid(window, valid, true);
      WindowIsSound(w, valid);
    }
    if ValidWindow(w, valid) && Paired(DocumentText(w)) && Serialize(w) == bytes { ParseSerialize(w, valid); }
  }

  /** Different windows are saved as different bytes. */
  lemma SavingIsInjective(v: Window, w: Window, valid: Text -> bool)
    requires Proper(valid) && ValidWindow(v, valid) && ValidWindow(w, valid)
    requires Paired(DocumentText(v)) && Paired(DocumentText(w)) && Serialize(v) == Serialize(w)
    ensures v == w
  {
    ParseSerialize(v, valid);
    ParseSerialize(w, valid);
  }
}
