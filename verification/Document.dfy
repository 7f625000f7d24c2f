/** The whole text of one scrape, and what a reader makes of it. */
module Document {
  import opened Text
  import opened Exposition
  import opened Family
  import opened Store
  import opened StoreRuns

  // ---- The text ----

  /** One order for each pass over each store's map: there is a pass per header. */
  ghost predicate Ordering(stores: seq<StoreState>, orders: seq<seq<seq<string>>>) {
    |orders| == |stores| && forall j :: 0 <= j < |stores| ==> StoreOrdering(stores[j], orders[j])
  }

  ghost predicate StoreOrdering(s: StoreState, orders: seq<seq<string>>) {
    |orders| == |s.headers| && PartialOrdering(s, orders)
  }

  ghost predicate PartialOrdering(s: StoreState, orders: seq<seq<string>>) {
    |orders| <= |s.headers| && forall i :: 0 <= i < |orders| ==> Enumerates(orders[i], s.rows.Keys)
  }

  /** Row indexing is in bounds: as many rows as headers, for every object. */
  predicate Shaped(s: StoreState) {
    |s.headers| == |s.families| && forall u :: u in s.rows ==> |s.rows[u]| == |s.headers|
  }

  ghost predicate Held(s: StoreState, order: seq<string>) {
    forall k :: 0 <= k < |order| ==> order[k] in s.rows
  }

  function HeaderText(header: string): string {
    if header != "" && header != "\n" then header + "\n" else header
  }

  ghost function RowsTexts(s: StoreState, i: nat, order: seq<string>): seq<string>
    requires Shaped(s) && i < |s.headers| && Held(s, order)
  {
    seq(|order|, k requires 0 <= k < |order| => RenderRow(s.rows[order[k]][i]))
  }

  ghost function FamilyText(s: StoreState, i: nat, order: seq<string>): string
    requires Shaped(s) && i < |s.headers| && Held(s, order)
  {
    HeaderText(s.headers[i]) + Concat(RowsTexts(s, i, order))
  }

  lemma OrderingIsHeld(s: StoreState, order: seq<string>)
    requires Enumerates(order, s.rows.Keys)
    ensures Held(s, order)
  {
  }

  /** The text of the first `|orders|` families. */
  ghost function FamilyTexts(s: StoreState, orders: seq<seq<string>>): (r: seq<string>)
    requires Shaped(s) && PartialOrdering(s, orders)
    ensures |r| == |orders|
  {
    seq(|orders|, i requires 0 <= i < |orders| => OrderingIsHeld(s, orders[i]); FamilyText(s, i, orders[i]))
  }

  ghost function StoreTexts(stores: seq<StoreState>, orders: seq<seq<seq<string>>>): (r: seq<string>)
    requires (forall j :: 0 <= j < |stores| ==> Shaped(stores[j])) && Ordering(stores, orders)
    ensures |r| == |stores|
  {
    seq(|stores|, j requires 0 <= j < |stores| => Concat(FamilyTexts(stores[j], orders[j])))
  }

  ghost function DocumentText(stores: seq<StoreState>, orders: seq<seq<seq<string>>>): string
    requires (forall j :: 0 <= j < |stores| ==> Shaped(stores[j])) && Ordering(stores, orders)
  {
    Concat(StoreTexts(stores, orders))
  }

  // ---- What a reader should find ----

  function Flatten(parts: seq<seq<Item>>): seq<Item> {
    if parts == [] then [] else parts[0] + Flatten(parts[1..])
  }

  function OutItems(out: Option<Sample>): seq<Item> {
    if out.None? then [] else [PointOf(out.value)]
  }

  function RowItems(row: Row): seq<Item> {
    Flatten(seq(|row|, k requires 0 <= k < |row| => OutItems(row[k])))
  }

  ghost function RowsItems(s: StoreState, i: nat, order: seq<string>): (r: seq<seq<Item>>)
    requires Shaped(s) && i < |s.headers| && Held(s, order)
    ensures |r| == |order|
  {
    seq(|order|, k requires 0 <= k < |order| => RowItems(s.rows[order[k]][i]))
  }

  function HeaderItems(f: FamilyState): seq<Item> {
    [Help(PREFIX + f.name, f.help), Type(PREFIX + f.name, GAUGE)]
  }

  /** A family's HELP and TYPE, then the samples it holds for every object. */
  ghost function FamilyItems(s: StoreState, i: nat, order: seq<string>): seq<Item>
    requires Shaped(s) && i < |s.headers| && Held(s, order)
  {
    HeaderItems(s.families[i]) + Flatten(RowsItems(s, i, order))
  }

  ghost function StoreItems(s: StoreState, orders: seq<seq<string>>): (r: seq<seq<Item>>)
    requires Shaped(s) && StoreOrdering(s, orders)
    ensures |r| == |orders|
  {
    seq(|orders|, i requires 0 <= i < |orders| => OrderingIsHeld(s, orders[i]); FamilyItems(s, i, orders[i]))
  }

  ghost function DocumentItems(stores: seq<StoreState>, orders: seq<seq<seq<string>>>): seq<Item>
    requires (forall j :: 0 <= j < |stores| ==> Shaped(stores[j])) && Ordering(stores, orders)
  {
    Flatten(seq(|stores|, j requires 0 <= j < |stores| => Flatten(StoreItems(stores[j], orders[j]))))
  }

  /** What makes a scrape valid: family names the format allows, plain help texts,
      and label keys it allows in every held sample. */
  ghost predicate FamilyValid(s: StoreState, i: nat)
    requires Shaped(s) && i < |s.headers|
  {
    && ValidMetricName(PREFIX + s.families[i].name) && PlainHelp(s.families[i].help)
    && forall u :: u in s.rows ==> RowValid(s.rows[u][i])
  }

  ghost predicate RowValid(row: Row) {
    forall k :: 0 <= k < |row| && row[k].Some? ==> WellNamed(row[k].value)
  }

  ghost predicate StoreValid(s: StoreState)
    requires Shaped(s)
  {
    forall i :: 0 <= i < |s.headers| ==> FamilyValid(s, i)
  }

  ghost predicate DocumentValid(stores: seq<StoreState>)
    requires forall j :: 0 <= j < |stores| ==> Shaped(stores[j])
  {
    forall j :: 0 <= j < |stores| ==> StoreValid(stores[j])
  }

  // ---- Reading piece by piece ----

  /** In front of any document, `text` reads as `items` exactly when `valid`. */
  ghost predicate Reads(text: string, items: seq<Item>, valid: bool) {
    forall rest: string, more: seq<Item> ::
      ParseDocument(text + rest) == Some(items + more) <==> valid && ParseDocument(rest) == Some(more)
  }

  lemma ReadsAppend(t: string, i: seq<Item>, v: bool, t': string, i': seq<Item>, v': bool)
    requires Reads(t, i, v) && Reads(t', i', v')
    ensures Reads(t + t', i + i', v && v')
  {
    hide ParseDocument;
    forall rest: string, more: seq<Item>
      ensures ParseDocument((t + t') + rest) == Some((i + i') + more)
         <==> (v && v') && ParseDocument(rest) == Some(more)
    {
      assert (t + t') + rest == t + (t' + rest);
      assert (i + i') + more == i + (i' + more);
    }
  }

  lemma ReadsNothing()
    ensures Reads("", [], true)
  {
    hide ParseDocument;
    forall rest: string, more: seq<Item>
      ensures ParseDocument("" + rest) == Some([] + more) <==> ParseDocument(rest) == Some(more)
    {
      assert "" + rest == rest && [] + more == more;
    }
  }

  lemma {:induction false} ReadsConcat(texts: seq<string>, items: seq<seq<Item>>, valid: seq<bool>)
    requires |texts| == |items| == |valid|
    requires forall k :: 0 <= k < |texts| ==> Reads(texts[k], items[k], valid[k])
    ensures Reads(Concat(texts), Flatten(items), forall k :: 0 <= k < |valid| ==> valid[k])
  {
    hide Reads;
    if texts == [] {
      ReadsNothing();
    } else {
      ReadsConcat(texts[1..], items[1..], valid[1..]);
      var later := forall k :: 0 <= k < |valid[1..]| ==> valid[1..][k];
      ReadsAppend(texts[0], items[0], valid[0], Concat(texts[1..]), Flatten(items[1..]), later);
      assert later <==> forall k :: 1 <= k < |valid| ==> valid[k] by {
        assert forall k :: 1 <= k < |valid| ==> valid[k] == valid[1..][k - 1];
      }
    }
  }

  lemma ReadsOut(out: Option<Sample>)
    requires out.Some? ==> Printable(out.value)
    ensures Reads(RenderOut(out), OutItems(out), out.Some? ==> WellNamed(out.value))
  {
    hide ParseDocument;
    if out.None? {
      ReadsNothing();
    } else {
      forall rest: string, more: seq<Item>
        ensures ParseDocument(RenderOut(out) + rest) == Some(OutItems(out) + more)
           <==> WellNamed(out.value) && ParseDocument(rest) == Some(more)
      {
        SampleInDocument(out.value, rest, more);
      }
    }
  }

  lemma ReadsRow(row: Row)
    requires forall k :: 0 <= k < |row| && row[k].Some? ==> Printable(row[k].value)
    ensures Reads(RenderRow(row), RowItems(row), RowValid(row))
  {
    hide Reads;
    hide Printable;
    hide WellNamed;
    hide RenderOut;
    hide OutItems;
    var valid := seq(|row|, k requires 0 <= k < |row| => row[k].Some? ==> WellNamed(row[k].value));
    var items := seq(|row|, k requires 0 <= k < |row| => OutItems(row[k]));
    forall k | 0 <= k < |row| ensures Reads(Lines(row)[k], items[k], valid[k]) {
      ReadsOut(row[k]);
    }
    ReadsConcat(Lines(row), items, valid);
    assert forall k :: 0 <= k < |row| ==> valid[k] == (row[k].Some? ==> WellNamed(row[k].value));
    assert RowValid(row) <==> forall k :: 0 <= k < |valid| ==> valid[k];
  }

  lemma ReadsHeader(f: FamilyState)
    ensures Reads(HeaderText(RenderHeader(f.name, f.help)), HeaderItems(f),
                  ValidMetricName(PREFIX + f.name) && PlainHelp(f.help))
  {
    hide ParseDocument;
    hide PlainHelp;
    hide ValidMetricName;
    HeaderIsNotEmpty(f.name, f.help);
    forall rest: string, more: seq<Item>
      ensures ParseDocument(HeaderText(RenderHeader(f.name, f.help)) + rest) == Some(HeaderItems(f) + more)
         <==> ValidMetricName(PREFIX + f.name) && PlainHelp(f.help) && ParseDocument(rest) == Some(more)
    {
      hide RenderHeader;
      HeaderInDocument(f.name, f.help, rest, more);
    }
  }

  lemma HeaderIsNotEmpty(name: string, help: string)
    ensures HeaderText(RenderHeader(name, help)) == RenderHeader(name, help) + "\n"
  {
    assert |RenderHeader(name, help)| > 1;
  }

  lemma PrintedIsShaped(s: StoreState)
    requires Printed(s)
    ensures Shaped(s)
  {
  }

  lemma ReadsFamily(s: StoreState, i: nat, order: seq<string>)
    requires Printed(s) && Shaped(s) && i < |s.headers| && Enumerates(order, s.rows.Keys) && Held(s, order)
    ensures Reads(FamilyText(s, i, order), FamilyItems(s, i, order), FamilyValid(s, i))
  {
    hide Reads;
    hide RowValid;
    hide Printable;
    hide ValidMetricName;
    hide PlainHelp;
    hide RenderHeader;
    hide HeaderText;
    var f := s.families[i];
    var valid := seq(|order|, k requires 0 <= k < |order| => RowValid(s.rows[order[k]][i]));
    forall k | 0 <= k < |order| ensures Reads(RowsTexts(s, i, order)[k], RowsItems(s, i, order)[k], valid[k]) {
      ReadsRow(s.rows[order[k]][i]);
    }
    ReadsConcat(RowsTexts(s, i, order), RowsItems(s, i, order), valid);
    ReadsHeader(f);
    ReadsAppend(HeaderText(s.headers[i]), HeaderItems(f), ValidMetricName(PREFIX + f.name) && PlainHelp(f.help),
                Concat(RowsTexts(s, i, order)), Flatten(RowsItems(s, i, order)),
                forall k :: 0 <= k < |valid| ==> valid[k]);
    assert (forall u :: u in s.rows ==> RowValid(s.rows[u][i])) <==> forall k :: 0 <= k < |valid| ==> valid[k] by {
      forall u | u in s.rows && forall k :: 0 <= k < |valid| ==> valid[k] ensures RowValid(s.rows[u][i]) {
        assert u in order;
        var k :| 0 <= k < |order| && order[k] == u;
        assert valid[k];
      }
    }
  }

  lemma ReadsStore(s: StoreState, orders: seq<seq<string>>)
    requires Printed(s) && Shaped(s) && StoreOrdering(s, orders)
    ensures Reads(Concat(FamilyTexts(s, orders)), Flatten(StoreItems(s, orders)),
                  StoreValid(s))
  {
    hide Reads;
    hide FamilyValid;
    hide FamilyText;
    hide FamilyItems;
    hide Printed;
    var valid := seq(|orders|, i requires 0 <= i < |orders| => FamilyValid(s, i));
    forall i | 0 <= i < |orders| ensures Reads(FamilyTexts(s, orders)[i], StoreItems(s, orders)[i], valid[i]) {
      OrderingIsHeld(s, orders[i]);
      ReadsFamily(s, i, orders[i]);
    }
    ReadsConcat(FamilyTexts(s, orders), StoreItems(s, orders), valid);
    assert forall i :: 0 <= i < |s.headers| ==> valid[i] == FamilyValid(s, i);
    assert (forall i :: 0 <= i < |s.headers| ==> FamilyValid(s, i)) <==> forall k :: 0 <= k < |valid| ==> valid[k];
  }

  /** Reading a scrape gives back every family of every store in order, with its
      help text and type, then the samples held for every object; it does so
      exactly when names, help texts and label keys are ones the format allows. */
  lemma {:induction false} DocumentRoundTrip(stores: seq<StoreState>, orders: seq<seq<seq<string>>>)
    requires forall j :: 0 <= j < |stores| ==> Printed(stores[j]) && Shaped(stores[j])
    requires Ordering(stores, orders)
    ensures ParseDocument(DocumentText(stores, orders)) == Some(DocumentItems(stores, orders)) <==> DocumentValid(stores)
  {
    hide Reads;
    hide StoreValid;
    hide FamilyTexts;
    hide StoreItems;
    hide Printed;
    hide Shaped;
    hide StoreOrdering;
    var texts := StoreTexts(stores, orders);
    var items := seq(|stores|, j requires 0 <= j < |stores| => Flatten(StoreItems(stores[j], orders[j])));
    var valid := seq(|stores|, j requires 0 <= j < |stores| =>
      StoreValid(stores[j]));
    forall j | 0 <= j < |stores| ensures Reads(texts[j], items[j], valid[j]) {
      ReadsStore(stores[j], orders[j]);
    }
    ReadsConcat(texts, items, valid);
    assert forall j :: 0 <= j < |stores| ==> valid[j] == StoreValid(stores[j]);
    assert DocumentValid(stores) <==> forall j :: 0 <= j < |valid| ==> valid[j];
    ReadsAlone(Concat(texts), Flatten(items), DocumentValid(stores));
  }

  lemma ReadsAlone(text: string, items: seq<Item>, valid: bool)
    requires Reads(text, items, valid)
    ensures ParseDocument(text) == Some(items) <==> valid
  {
    assert text + "" == text && items + [] == items;
    assert ParseDocument(text + "") == Some(items + []) <==> valid && ParseDocument("") == Some([]);
  }

  // ---- Texts that are rejected as a whole ----

  /** In front of any document, `text` is accepted exactly when `valid`. */
  ghost predicate Passes(text: string, valid: bool) {
    forall rest: string :: ParseDocument(text + rest).Some? <==> valid && ParseDocument(rest).Some?
  }

  lemma PassesAppend(t: string, v: bool, t': string, v': bool)
    requires Passes(t, v) && Passes(t', v')
    ensures Passes(t + t', v && v')
  {
    hide ParseDocument;
    forall rest: string ensures ParseDocument((t + t') + rest).Some? <==> (v && v') && ParseDocument(rest).Some? {
      assert (t + t') + rest == t + (t' + rest);
    }
  }

  lemma PassesNothing()
    ensures Passes("", true)
  {
    hide ParseDocument;
    forall rest: string ensures ParseDocument("" + rest).Some? <==> ParseDocument(rest).Some? {
      assert "" + rest == rest;
    }
  }

  lemma {:induction false} PassesConcat(texts: seq<string>, valid: seq<bool>)
    requires |texts| == |valid| && forall k :: 0 <= k < |texts| ==> Passes(texts[k], valid[k])
    ensures Passes(Concat(texts), forall k :: 0 <= k < |valid| ==> valid[k])
  {
    hide Passes;
    if texts == [] {
      PassesNothing();
    } else {
      PassesConcat(texts[1..], valid[1..]);
      var later := forall k :: 0 <= k < |valid[1..]| ==> valid[1..][k];
      PassesAppend(texts[0], valid[0], Concat(texts[1..]), later);
      assert later <==> forall k :: 1 <= k < |valid| ==> valid[k] by {
        assert forall k :: 1 <= k < |valid| ==> valid[k] == valid[1..][k - 1];
      }
    }
  }

  lemma PassesOut(out: Option<Sample>)
    requires out.Some? ==> Printable(out.value) && NameChars(out.value.family)
    ensures Passes(RenderOut(out), out.Some? ==> WellNamed(out.value))
  {
    hide ParseDocument;
    hide ParseLine;
    hide SampleLine;
    if out.None? {
      PassesNothing();
    } else {
      var s := out.value;
      SampleHasNoNewline(s);
      SampleRoundTrip(s);
      forall rest: string
        ensures ParseDocument(RenderOut(out) + rest).Some? <==> WellNamed(s) && ParseDocument(rest).Some? {
        assert RenderOut(out) + rest == SampleLine(s) + "\n" + rest;
        DocumentLine(SampleLine(s), rest);
      }
    }
  }

  lemma PassesRow(row: Row)
    requires forall k :: 0 <= k < |row| && row[k].Some? ==> Printable(row[k].value) && NameChars(row[k].value.family)
    ensures Passes(RenderRow(row), RowValid(row))
  {
    hide Passes;
    hide Printable;
    hide WellNamed;
    hide RenderOut;
    var valid := seq(|row|, k requires 0 <= k < |row| => row[k].Some? ==> WellNamed(row[k].value));
    forall k | 0 <= k < |row| ensures Passes(Lines(row)[k], valid[k]) {
      PassesOut(row[k]);
    }
    PassesConcat(Lines(row), valid);
    assert forall k :: 0 <= k < |row| ==> valid[k] == (row[k].Some? ==> WellNamed(row[k].value));
    assert RowValid(row) <==> forall k :: 0 <= k < |valid| ==> valid[k];
  }

  /** A name in name characters and a help text that survives. */
  predicate PlainFamily(f: FamilyState) {
    NameChars(f.name) && PlainHelp(f.help)
  }

  lemma PassesHeader(f: FamilyState)
    requires PlainFamily(f)
    ensures Passes(HeaderText(RenderHeader(f.name, f.help)), true)
  {
    hide ParseDocument;
    hide PlainHelp;
    hide ValidMetricName;
    hide RenderHeader;
    HeaderIsNotEmpty(f.name, f.help);
    PrefixedName(f.name);
    assert NameChars(f.name);
    forall rest: string
      ensures ParseDocument(HeaderText(RenderHeader(f.name, f.help)) + rest).Some? <==> ParseDocument(rest).Some? {
      PlainHeader(f.name, f.help, rest);
    }
  }

  lemma PassesFamily(s: StoreState, i: nat, order: seq<string>)
    requires Printed(s) && Shaped(s) && i < |s.headers| && Enumerates(order, s.rows.Keys) && Held(s, order)
    requires PlainFamily(s.families[i])
    ensures Passes(FamilyText(s, i, order), FamilyValid(s, i))
  {
    hide Passes;
    hide RowValid;
    hide Printable;
    hide ValidMetricName;
    hide NameChars;
    hide PlainHelp;
    hide RenderHeader;
    hide HeaderText;
    var f := s.families[i];
    var valid := seq(|order|, k requires 0 <= k < |order| => RowValid(s.rows[order[k]][i]));
    forall k | 0 <= k < |order| ensures Passes(RowsTexts(s, i, order)[k], valid[k]) {
      PassesRow(s.rows[order[k]][i]);
    }
    PassesConcat(RowsTexts(s, i, order), valid);
    PassesHeader(f);
    PlainNames(f);
    PassesAppend(HeaderText(s.headers[i]), true, Concat(RowsTexts(s, i, order)),
                 forall k :: 0 <= k < |valid| ==> valid[k]);
    assert (forall u :: u in s.rows ==> RowValid(s.rows[u][i])) <==> forall k :: 0 <= k < |valid| ==> valid[k] by {
      forall u | u in s.rows && forall k :: 0 <= k < |valid| ==> valid[k] ensures RowValid(s.rows[u][i]) {
        assert u in order;
        var k :| 0 <= k < |order| && order[k] == u;
        assert valid[k];
      }
    }
  }

  lemma PlainNames(f: FamilyState)
    requires PlainFamily(f)
    ensures ValidMetricName(PREFIX + f.name)
  {
    PrefixedName(f.name);
    assert NameChars(f.name);
  }

  lemma PassesStore(s: StoreState, orders: seq<seq<string>>)
    requires Printed(s) && Shaped(s) && StoreOrdering(s, orders)
    requires forall i :: 0 <= i < |s.families| ==> PlainFamily(s.families[i])
    ensures Passes(Concat(FamilyTexts(s, orders)), StoreValid(s))
  {
    hide Passes;
    hide FamilyValid;
    hide FamilyText;
    hide PlainFamily;
    hide Printed;
    var valid := seq(|orders|, i requires 0 <= i < |orders| => FamilyValid(s, i));
    forall i | 0 <= i < |orders| ensures Passes(FamilyTexts(s, orders)[i], valid[i]) {
      OrderingIsHeld(s, orders[i]);
      PassesFamily(s, i, orders[i]);
    }
    PassesConcat(FamilyTexts(s, orders), valid);
    assert forall i :: 0 <= i < |s.headers| ==> valid[i] == FamilyValid(s, i);
    assert (forall i :: 0 <= i < |s.headers| ==> FamilyValid(s, i)) <==> forall k :: 0 <= k < |valid| ==> valid[k];
  }

  /** With names in name characters and plain help texts, a scrape is read at all
      only if every held sample is well named: one that is not has the whole text
      rejected, wherever it stands. */
  lemma {:induction false} DocumentAccepted(stores: seq<StoreState>, orders: seq<seq<seq<string>>>)
    requires forall j :: 0 <= j < |stores| ==> Printed(stores[j]) && Shaped(stores[j])
    requires forall j, i :: 0 <= j < |stores| && 0 <= i < |stores[j].families| ==> PlainFamily(stores[j].families[i])
    requires Ordering(stores, orders)
    ensures ParseDocument(DocumentText(stores, orders)).Some? <==> DocumentValid(stores)
  {
    hide Passes;
    hide StoreValid;
    hide FamilyTexts;
    hide Printed;
    hide PlainFamily;
    hide Shaped;
    hide StoreOrdering;
    var texts := StoreTexts(stores, orders);
    var valid := seq(|stores|, j requires 0 <= j < |stores| => StoreValid(stores[j]));
    forall j | 0 <= j < |stores| ensures Passes(texts[j], valid[j]) {
      PassesStore(stores[j], orders[j]);
    }
    PassesConcat(texts, valid);
    assert forall j :: 0 <= j < |stores| ==> valid[j] == StoreValid(stores[j]);
    assert DocumentValid(stores) <==> forall j :: 0 <= j < |valid| ==> valid[j];
    PassesAlone(Concat(texts), DocumentValid(stores));
  }

  lemma PassesAlone(text: string, valid: bool)
    requires Passes(text, valid)
    ensures ParseDocument(text).Some? <==> valid
  {
    assert text + "" == text;
    assert ParseDocument(text + "").Some? <==> valid && ParseDocument("").Some?;
  }

  // ---- Every sample, whatever the order ----

  ghost function HeldPoints(s: StoreState, i: nat, uids: set<string>): multiset<Item>
    requires Shaped(s) && i < |s.headers| && uids <= s.rows.Keys
  {
    if uids == {} then multiset{}
    else var u := Pick(uids); multiset(RowItems(s.rows[u][i])) + HeldPoints(s, i, uids - {u})
  }

  lemma {:induction false} HeldPointsAnyOrder(s: StoreState, i: nat, uids: set<string>, u: string)
    requires Shaped(s) && i < |s.headers| && uids <= s.rows.Keys && u in uids
    ensures HeldPoints(s, i, uids) == multiset(RowItems(s.rows[u][i])) + HeldPoints(s, i, uids - {u})
    decreases uids
  {
    hide RowItems;
    var p := Pick(uids);
    if p != u {
      HeldPointsAnyOrder(s, i, uids - {p}, u);
      HeldPointsAnyOrder(s, i, uids - {u}, p);
      assert uids - {p} - {u} == uids - {u} - {p};
    }
  }

  /** The samples under a header are exactly those held for all objects, each as
      often as it is held. */
  lemma {:induction false} EverySampleOnce(s: StoreState, i: nat, order: seq<string>, uids: set<string>)
    requires Shaped(s) && i < |s.headers| && uids <= s.rows.Keys
    requires Enumerates(order, uids) && Held(s, order)
    ensures multiset(Flatten(RowsItems(s, i, order))) == HeldPoints(s, i, uids)
    decreases |order|
  {
    hide RowItems;
    if order == [] {
      assert uids == {};
    } else {
      var u, rest := order[0], order[1..];
      assert forall k :: 0 <= k < |rest| ==> rest[k] == order[k + 1];
      assert Enumerates(rest, uids - {u}) by {
        assert forall v :: v in order <==> v == u || v in rest;
      }
      HeldPointsAnyOrder(s, i, uids, u);
      EverySampleOnce(s, i, rest, uids - {u});
      assert RowsItems(s, i, order)[1..] == RowsItems(s, i, rest);
    }
  }

  // ---- Grouping ----

  /** "Grouping and sorting": each name has one HELP line, its TYPE line follows,
      and every sample follows an item of its own name. */
  ghost predicate Grouped(items: seq<Item>) {
    && (forall p, q :: 0 <= p < q < |items| && items[p].Help? && items[q].Help? ==> items[p].name != items[q].name)
    && (forall p :: 0 <= p < |items| && !items[p].Help? ==>
          p > 0 && items[p - 1].name == items[p].name && (items[p].Type? <==> items[p - 1].Help?))
  }

  ghost predicate Segment(items: seq<Item>, name: string) {
    && |items| >= 2 && items[0].Help? && items[1].Type?
    && (forall p :: 0 <= p < |items| ==> items[p].name == name)
    && forall p :: 2 <= p < |items| ==> items[p].Point?
  }

  ghost predicate Segments(segments: seq<seq<Item>>, names: seq<string>) {
    |segments| == |names| && forall k :: 0 <= k < |names| ==> Segment(segments[k], names[k])
  }

  ghost predicate Unique(names: seq<string>) {
    forall k, m :: 0 <= k < m < |names| ==> names[k] != names[m]
  }

  ghost predicate HelpsNamed(items: seq<Item>, names: seq<string>) {
    && (forall p :: 0 <= p < |items| && items[p].Help? ==> items[p].name in names)
    && (forall k :: 0 <= k < |names| ==> exists p :: 0 <= p < |items| && items[p].Help? && items[p].name == names[k])
  }

  lemma {:induction false} FlattenAppend(parts: seq<seq<Item>>, more: seq<seq<Item>>)
    ensures Flatten(parts + more) == Flatten(parts) + Flatten(more)
  {
    if parts == [] {
      assert parts + more == more;
    } else {
      FlattenAppend(parts[1..], more);
      assert (parts + more)[0] == parts[0] && (parts + more)[1..] == parts[1..] + more;
      assert parts[0] + (Flatten(parts[1..]) + Flatten(more)) == (parts[0] + Flatten(parts[1..])) + Flatten(more);
    }
  }

  lemma GroupedPrefix(items: seq<Item>, segment: seq<Item>, names: seq<string>, name: string)
    requires Segment(segment, name) && HelpsNamed(items, names)
    ensures HelpsNamed(items + segment, names + [name])
    ensures Grouped(items + segment) <==> Grouped(items) && name !in names
  {
    var all := items + segment;
    assert forall p :: 0 <= p < |items| ==> all[p] == items[p];
    assert forall p :: 0 <= p < |segment| ==> all[|items| + p] == segment[p];
    forall k | 0 <= k < |names + [name]|
      ensures exists p :: 0 <= p < |all| && all[p].Help? && all[p].name == (names + [name])[k]
    {
      if k < |names| {
        var wanted := names[k];
        var p :| 0 <= p < |items| && items[p].Help? && items[p].name == wanted;
        assert all[p].Help?;
      } else {
        assert all[|items|].Help?;
      }
    }
    if Grouped(all) {
      assert Grouped(items);
      assert all[|items|].Help?;
    }
  }

  lemma FlattenLast(segments: seq<seq<Item>>, n: nat)
    requires |segments| == n + 1
    ensures Flatten(segments) == Flatten(segments[..n]) + segments[n]
  {
    FlattenAppend(segments[..n], [segments[n]]);
    assert segments == segments[..n] + [segments[n]];
    assert [segments[n]][1..] == [];
    assert Flatten([segments[n]]) == segments[n];
  }

  lemma {:induction false} SegmentsGrouped(segments: seq<seq<Item>>, names: seq<string>)
    requires Segments(segments, names)
    ensures HelpsNamed(Flatten(segments), names)
    ensures Grouped(Flatten(segments)) <==> Unique(names)
    decreases |names|
  {
    hide Segment;
    hide Grouped;
    hide Flatten;
    if names == [] {
      EmptyIsGrouped();
    } else {
      var n := |names| - 1;
      SegmentsGrouped(segments[..n], names[..n]);
      FlattenLast(segments, n);
      assert names == names[..n] + [names[n]];
      GroupedPrefix(Flatten(segments[..n]), segments[n], names[..n], names[n]);
      assert Unique(names) <==> Unique(names[..n]) && names[n] !in names[..n];
    }
  }

  lemma EmptyIsGrouped()
    ensures Flatten([]) == [] && Grouped([]) && HelpsNamed([], [])
  {
  }

  function StoreNames(s: StoreState): seq<string> {
    seq(|s.families|, i requires 0 <= i < |s.families| => PREFIX + s.families[i].name)
  }

  /** All metric names a scrape mentions, store by store. */
  function AllNames(stores: seq<StoreState>): seq<string> {
    if stores == [] then [] else StoreNames(stores[0]) + AllNames(stores[1..])
  }

  lemma {:induction false} PointsOfRow(row: Row, name: string)
    requires forall k :: 0 <= k < |row| && row[k].Some? ==> row[k].value.family == name
    ensures forall p :: 0 <= p < |RowItems(row)| ==> RowItems(row)[p].Point? && RowItems(row)[p].name == PREFIX + name
  {
    var parts := seq(|row|, k requires 0 <= k < |row| => OutItems(row[k]));
    FlattenedPoints(parts, PREFIX + name);
  }

  lemma {:induction false} FlattenedPoints(parts: seq<seq<Item>>, name: string)
    requires forall k, p :: 0 <= k < |parts| && 0 <= p < |parts[k]| ==> parts[k][p].Point? && parts[k][p].name == name
    ensures forall p :: 0 <= p < |Flatten(parts)| ==> Flatten(parts)[p].Point? && Flatten(parts)[p].name == name
  {
    if parts != [] {
      FlattenedPoints(parts[1..], name);
    }
  }

  lemma FamilyIsSegment(s: StoreState, i: nat, order: seq<string>)
    requires Printed(s) && Shaped(s) && i < |s.headers| && Held(s, order)
    ensures Segment(FamilyItems(s, i, order), PREFIX + s.families[i].name)
  {
    hide RowItems;
    hide RenderHeader;
    hide Printable;
    var name := s.families[i].name;
    var parts: seq<seq<Item>> := RowsItems(s, i, order);
    forall k: nat, p: nat | k < |parts| && p < |parts[k]|
      ensures parts[k][p].Point? && parts[k][p].name == PREFIX + name
    {
      PointsOfRow(s.rows[order[k]][i], name);
    }
    FlattenedPoints(parts, PREFIX + name);
  }

  ghost function AllSegments(stores: seq<StoreState>, orders: seq<seq<seq<string>>>): (r: seq<seq<Item>>)
    requires (forall j :: 0 <= j < |stores| ==> Shaped(stores[j])) && Ordering(stores, orders)
  {
    if stores == [] then []
    else
      assert forall j :: 0 <= j < |stores| - 1 ==> stores[1..][j] == stores[j + 1] && orders[1..][j] == orders[j + 1];
      StoreItems(stores[0], orders[0]) + AllSegments(stores[1..], orders[1..])
  }

  lemma StoreSegments(s: StoreState, order: seq<seq<string>>)
    requires Printed(s) && Shaped(s) && StoreOrdering(s, order)
    ensures Segments(StoreItems(s, order), StoreNames(s))
  {
    hide Segment;
    hide FamilyItems;
    hide Printed;
    forall i | 0 <= i < |order| ensures Segment(StoreItems(s, order)[i], StoreNames(s)[i]) {
      OrderingIsHeld(s, order[i]);
      FamilyIsSegment(s, i, order[i]);
    }
  }

  lemma {:induction false} DocumentSegments(stores: seq<StoreState>, orders: seq<seq<seq<string>>>)
    requires forall j :: 0 <= j < |stores| ==> Printed(stores[j]) && Shaped(stores[j])
    requires Ordering(stores, orders)
    ensures DocumentItems(stores, orders) == Flatten(AllSegments(stores, orders))
    ensures Segments(AllSegments(stores, orders), AllNames(stores))
    decreases |stores|
  {
    hide Segment;
    hide FamilyItems;
    hide StoreItems;
    hide StoreNames;
    hide Shaped;
    hide StoreOrdering;
    hide Printed;
    if stores != [] {
      var s, order := stores[0], orders[0];
      var later, laterOrders := stores[1..], orders[1..];
      assert forall j :: 0 <= j < |later| ==> later[j] == stores[j + 1] && laterOrders[j] == orders[j + 1];
      DocumentSegments(later, laterOrders);
      FlattenAppend(StoreItems(s, order), AllSegments(later, laterOrders));
      StoreSegments(s, order);
      var parts := seq(|stores|, j requires 0 <= j < |stores| => Flatten(StoreItems(stores[j], orders[j])));
      assert parts[1..] == seq(|later|, j requires 0 <= j < |later| => Flatten(StoreItems(later[j], laterOrders[j])));
    }
  }

  /** Every metric name forms one contiguous group under its own HELP and TYPE
      exactly when no two families of the resource share a name. */
  lemma {:induction false} DocumentGrouped(stores: seq<StoreState>, orders: seq<seq<seq<string>>>)
    requires forall j :: 0 <= j < |stores| ==> Printed(stores[j]) && Shaped(stores[j])
    requires Ordering(stores, orders)
    ensures Grouped(DocumentItems(stores, orders)) <==> Unique(AllNames(stores))
  {
    hide Printed;
    hide Grouped;
    hide DocumentItems;
    DocumentSegments(stores, orders);
    SegmentsGrouped(AllSegments(stores, orders), AllNames(stores));
  }
}
