// Element attributes: the printer on one side, the parser on the other, and the two with a transfer between.

module AvrcpAttributes {
  import opened Common
  import opened Avrcp

  // The largest media attribute, hence the largest number of attributes in a response.
  const LAST_ATTRIBUTE := 7
  const UTF8 := 106
  const ITEM := 8

  // An attribute as the upper layer hands it over: its number, and a text of at most 255 bytes.
  datatype Element = Element(id: byte, text: seq<byte>)

  predicate Storable(e: Element) {
    |e.text| < 256
  }

  predicate AllStorable(es: seq<Element>) {
    forall e :: e in es ==> Storable(e)
  }

  // write_element_text
  function PrintOne(e: Element): seq<byte> {
    [0, 0, 0, e.id, 0, UTF8 as byte, 0, Byte(|e.text|)] + e.text
  }

  function PrintAll(es: seq<Element>): seq<byte> {
    if es == [] then [] else PrintOne(es[0]) + PrintAll(es[1..])
  }

  // write_element_attrs
  function Print(es: seq<Element>): seq<byte> {
    [Byte(|es|)] + PrintAll(es)
  }

  // What the parser stores for one attribute.
  datatype Entry = Entry(attr: nat, text: Option<seq<byte>>)

  datatype Result = Ok(entries: seq<Entry>) | Eproto

  // g_strndup: a C string ends at its first NUL.
  function UntilNul(s: seq<byte>): seq<byte> {
    if s == [] || s[0] == 0 then [] else [s[0]] + UntilNul(s[1..])
  }

  function Be16(b: seq<byte>): nat
    requires |b| >= 2
  {
    b[0] as nat * 256 + b[1] as nat
  }

  function Be32(b: seq<byte>): nat
    requires |b| >= 4
  {
    b[0] as nat * 0x1000000 + b[1] as nat * 0x10000 + b[2] as nat * 256 + b[3] as nat
  }

  function EntryOf(b: seq<byte>, n: nat): Entry
    requires |b| >= ITEM + n
  {
    if n > 0 then Entry(Be32(b), Some(UntilNul(b[ITEM..ITEM + n]))) else Entry(0, None)
  }

  // The loop of parse_attribute_list: it stops early when no further item fits.
  function ParseItems(b: seq<byte>, number: nat): Result {
    if number == 0 || |b| < ITEM then Ok([])
    else
      var n := Be16(b[6..]);
      if n > |b| - ITEM then Eproto
      else
        match ParseItems(b[ITEM + n..], number - 1)
        case Ok(entries) => Ok([EntryOf(b, n)] + entries)
        case Eproto => Eproto
  }

  function ParseList(b: seq<byte>, number: nat): Result {
    if number > LAST_ATTRIBUTE then Eproto else ParseItems(b, number)
  }

  // parse_elements
  function ParseElements(b: seq<byte>): Result {
    if |b| < 1 || b[0] as nat > LAST_ATTRIBUTE then Eproto else ParseList(b[1..], b[0] as nat)
  }

  // ------------------------------------------------------------ what comes back

  // An empty text comes back as attribute 0 without text; any other up to its first NUL.
  function Seen(e: Element): Entry {
    if e.text == [] then Entry(0, None) else Entry(e.id as nat, Some(UntilNul(e.text)))
  }

  function SeenAll(es: seq<Element>): seq<Entry> {
    if es == [] then [] else [Seen(es[0])] + SeenAll(es[1..])
  }

  lemma ItemShape(e: Element, rest: seq<byte>)
    requires Storable(e)
    ensures var b := PrintOne(e) + rest;
            |b| == ITEM + |e.text| + |rest| && Be16(b[6..]) == |e.text| && b[ITEM + |e.text|..] == rest
            && EntryOf(b, |e.text|) == Seen(e)
  {
    var b := PrintOne(e) + rest;
    assert b[ITEM..ITEM + |e.text|] == e.text;
    assert b[6..][0] == 0 && b[6..][1] == Byte(|e.text|);
    assert b[0] == 0 && b[1] == 0 && b[2] == 0 && b[3] == e.id;
  }

  lemma ParseOne(e: Element, tail: seq<byte>, number: nat, rest: seq<Entry>)
    requires Storable(e) && number > 0 && ParseItems(tail, number - 1) == Ok(rest)
    ensures ParseItems(PrintOne(e) + tail, number) == Ok([Seen(e)] + rest)
  {
    ItemShape(e, tail);
    hide PrintOne, EntryOf, Be16, Seen;
  }

  // Attributes after which at least `number` are expected, followed by bytes that hold no further item.
  lemma {:induction false} PrintParses(es: seq<Element>, rest: seq<byte>, number: nat)
    requires AllStorable(es) && |es| <= number && (|es| == number || |rest| < ITEM)
    ensures ParseItems(PrintAll(es) + rest, number) == Ok(SeenAll(es))
  {
    if es == [] {
      assert PrintAll(es) + rest == rest;
    } else {
      hide PrintOne, Seen, ParseItems;
      var tail := PrintAll(es[1..]) + rest;
      assert PrintAll(es) + rest == PrintOne(es[0]) + tail;
      assert Storable(es[0]);
      PrintParses(es[1..], rest, number - 1);
      ParseOne(es[0], tail, number, SeenAll(es[1..]));
    }
  }

  lemma {:induction false} UntilNulSame(s: seq<byte>)
    ensures UntilNul(s) == s <==> 0 !in s
  {
    if s != [] && s[0] != 0 {
      UntilNulSame(s[1..]);
      assert s == [s[0]] + s[1..];
    }
  }

  predicate Faithful(e: Element) {
    e.text != [] && 0 !in e.text
  }

  lemma SeenFaithful(e: Element)
    ensures Seen(e) == Entry(e.id as nat, Some(e.text)) <==> Faithful(e)
  {
    UntilNulSame(e.text);
  }

  // The attributes and texts as they were handed over.
  function Given(es: seq<Element>): seq<Entry> {
    if es == [] then [] else [Entry(es[0].id as nat, Some(es[0].text))] + Given(es[1..])
  }

  lemma {:induction false} SeenGiven(es: seq<Element>)
    ensures SeenAll(es) == Given(es) <==> forall e :: e in es ==> Faithful(e)
  {
    if es != [] {
      SeenGiven(es[1..]);
      SeenFaithful(es[0]);
      assert SeenAll(es)[0] == Seen(es[0]) && SeenAll(es)[1..] == SeenAll(es[1..]);
      assert Given(es)[0] == Entry(es[0].id as nat, Some(es[0].text)) && Given(es)[1..] == Given(es[1..]);
    }
  }

  // What comes back for attribute i.
  lemma {:induction false} SeenAt(es: seq<Element>, i: nat)
    requires i < |es|
    ensures |SeenAll(es)| == |es|
    ensures var e := es[i];
            var seen := SeenAll(es)[i];
            if e.text == [] then seen == Entry(0, None)
            else seen.attr == e.id as nat && seen.text.Some? && IsCString(seen.text.value, e.text)
  {
    if i == 0 {
      UntilNulIs(es[0].text);
      SeenSize(es[1..]);
    } else {
      SeenAt(es[1..], i - 1);
    }
  }

  lemma {:induction false} SeenSize(es: seq<Element>)
    ensures |SeenAll(es)| == |es|
  {
    if es != [] {
      SeenSize(es[1..]);
    }
  }

  // Up to 7 attributes are parsed back to what was printed, in full exactly when every text is nonempty and
  // free of NULs; more than 7 are refused.
  lemma Survive(es: seq<Element>)
    requires AllStorable(es) && |es| < 256
    ensures ParseElements(Print(es)) == if |es| <= 7 then Ok(SeenAll(es)) else Eproto
    ensures ParseElements(Print(es)) == Ok(Given(es))
            <==> |es| <= 7 && forall e :: e in es ==> Faithful(e)
  {
    hide PrintAll, ParseItems, SeenAll, Given, Faithful, AllStorable;
    assert Print(es)[0] == Byte(|es|) && Print(es)[1..] == PrintAll(es);
    assert PrintAll(es) + [] == PrintAll(es);
    assert (|es| % 256) as byte as nat == |es|;
    SeenGiven(es);
    if |es| <= LAST_ATTRIBUTE {
      PrintParses(es, [], |es|);
    }
  }

  // Printed, sent in pieces whatever the session did before, fetched and put together, the attributes are parsed to
  // the same entries if the channel takes full packets, or takes this message in one; if not, nothing arrives.
  lemma SurviveTransfer(omtu: nat, before: seq<Event>, pdu: byte, es: seq<Element>)
    requires Roomy(omtu) && AllStorable(es) && |es| <= LAST_ATTRIBUTE
    ensures var payload := Print(es);
            var l := Run(Start(omtu), before);
            var d := Run(Step(l, SendEvent(pdu, payload)), Fetch(pdu, DivUp(|payload|, Room(omtu)) - 1));
            if omtu >= 518 || 13 + |payload| <= omtu
            then |d.r.got| == |l.r.got| + 1 && ParseElements(d.r.got[|l.r.got|].params) == Ok(SeenAll(es))
            else d.r.got == l.r.got
  {
    hide Run, Step, Fetch, DivUp;
    Survive(es);
    DivUpPositive(|Print(es)|, Room(omtu));
    FetchedIff(omtu, before, pdu, Print(es));
  }

  lemma DivUpPositive(n: nat, d: nat)
    requires n > 0 && d > 0
    ensures DivUp(n, d) > 0
  {
    DivUpStep(n, d);
  }

  // ------------------------------------------------------------ the bytes

  // Where attribute i begins, behind the count and the attributes before it.
  function Place(es: seq<Element>, i: nat): nat
    requires i <= |es|
  {
    if i == 0 then 1 else Place(es, i - 1) + 8 + |es[i - 1].text|
  }

  lemma {:induction false} PrintedUpto(es: seq<Element>, i: nat)
    requires i <= |es|
    ensures Place(es, i) == 1 + |PrintAll(es[..i])| && PrintAll(es) == PrintAll(es[..i]) + PrintAll(es[i..])
    decreases i
  {
    hide PrintOne;
    if i == 0 {
      assert es[0..] == es && es[..0] == [];
    } else {
      PrintedUpto(es, i - 1);
      PrintFrom(es, i - 1);
      PrintLast(es[..i]);
      PrintSize(es[i - 1]);
      assert es[..i][..i - 1] == es[..i - 1];
      assert (PrintAll(es[..i - 1]) + PrintOne(es[i - 1])) + PrintAll(es[i..]) == PrintAll(es);
    }
  }

  lemma {:induction false} PrintLast(es: seq<Element>)
    requires es != []
    ensures PrintAll(es) == PrintAll(es[..|es| - 1]) + PrintOne(es[|es| - 1])
  {
    hide PrintOne;
    if |es| == 1 {
      assert es[1..] == [] && es[..0] == [];
      assert PrintAll(es) == PrintOne(es[0]) + [];
    } else {
      var front := es[..|es| - 1];
      PrintLast(es[1..]);
      assert front[1..] == es[1..][..|es| - 2] && front[0] == es[0];
      assert PrintOne(es[0]) + (PrintAll(front[1..]) + PrintOne(es[|es| - 1])) == PrintAll(front) + PrintOne(es[|es| - 1]);
    }
  }

  // What stands where in a printed list: the number of attributes, and for each one its number in four bytes, the
  // character set 106 (UTF-8) in two, the length of the text in two, and the text.
  lemma PrintedAt(es: seq<Element>, i: nat)
    requires AllStorable(es) && i < |es| < 256
    ensures var b := Print(es);
            var at := Place(es, i);
            var e := es[i];
            && |b| == Place(es, |es|) && b[0] as nat == |es| && at + 8 + |e.text| <= |b|
            && b[at..at + 7] == [0, 0, 0, e.id, 0, 106, 0] && b[at + 7] as nat == |e.text|
            && b[at + 8..at + 8 + |e.text|] == e.text
  {
    hide PrintAll, PrintOne, Place;
    assert Storable(es[i]);
    PrintSplit(es, i);
    assert |Print(es)| == Place(es, |es|) && Print(es)[0] as nat == |es| by {
      PrintedUpto(es, |es|);
      assert es[..|es|] == es;
    }
    hide Print;
    OneAt([Byte(|es|)] + PrintAll(es[..i]), es[i], PrintAll(es[i + 1..]));
  }

  lemma PrintSplit(es: seq<Element>, i: nat)
    requires i < |es|
    ensures var before := [Byte(|es|)] + PrintAll(es[..i]);
            |before| == Place(es, i) && Print(es) == before + (PrintOne(es[i]) + PrintAll(es[i + 1..]))
  {
    hide PrintAll, PrintOne, Place;
    PrintedUpto(es, i);
    PrintFrom(es, i);
    Regroup([Byte(|es|)], PrintAll(es[..i]), PrintOne(es[i]) + PrintAll(es[i + 1..]));
  }

  lemma Regroup(a: seq<byte>, b: seq<byte>, c: seq<byte>)
    ensures a + (b + c) == (a + b) + c
  {
  }

  lemma OneAt(before: seq<byte>, e: Element, after: seq<byte>)
    requires Storable(e)
    ensures var b := before + (PrintOne(e) + after);
            var at := |before|;
            && |b| == at + 8 + |e.text| + |after|
            && b[at..at + 7] == [0, 0, 0, e.id, 0, 106, 0] && b[at + 7] as nat == |e.text|
            && b[at + 8..at + 8 + |e.text|] == e.text
  {
    assert Byte(|e.text|) as nat == |e.text|;
  }

  // The C string in the bytes raw.
  ghost predicate IsCString(text: seq<byte>, raw: seq<byte>) {
    text <= raw && 0 !in text && (text == raw || raw[|text|] == 0)
  }

  lemma {:induction false} UntilNulIs(raw: seq<byte>)
    ensures IsCString(UntilNul(raw), raw)
  {
    if raw != [] && raw[0] != 0 {
      UntilNulIs(raw[1..]);
      assert raw == [raw[0]] + raw[1..];
    }
  }

  // The length that the item at `at` announces for its text.
  function Announced(b: seq<byte>, at: nat): nat
    requires at + 8 <= |b|
  {
    b[at + 6] as nat * 256 + b[at + 7] as nat
  }

  // An item begins at `at`, and the next one at `next`.
  ghost predicate Item(b: seq<byte>, at: nat, next: nat) {
    at + 8 <= |b| && next == at + 8 + Announced(b, at) && next <= |b|
  }

  // What is stored for an item: nothing at all for an empty text.
  ghost predicate Reads(e: Entry, b: seq<byte>, at: nat, next: nat) {
    && Item(b, at, next)
    && if next == at + 8 then e == Entry(0, None)
       else
         && e.attr == b[at] as nat * 0x1000000 + b[at + 1] as nat * 0x10000 + b[at + 2] as nat * 0x100 + b[at + 3] as nat
         && e.text.Some? && IsCString(e.text.value, b[at + 8..next])
  }

  // From the first of these places on there are items, one behind the other, and these are their entries.
  ghost predicate ReadsAll(entries: seq<Entry>, b: seq<byte>, places: seq<nat>) {
    && |places| == |entries| + 1
    && forall k, m :: 0 <= k && m == k + 1 < |places| ==> Reads(entries[k], b, places[k], places[m])
  }

  // What becomes of at most `number` items. Either they end before the next one; or the next one announces more text
  // than there is, and then the list is refused.
  ghost predicate Outcome(b: seq<byte>, number: nat, places: seq<nat>, entries: seq<Entry>, r: Result) {
    && ReadsAll(entries, b, places) && |entries| <= number
    && var last := places[|entries|];
       if r.Ok? then r == Ok(entries) && (|entries| == number || last + 8 > |b|)
       else |entries| < number && last + 8 <= |b| && last + 8 + Announced(b, last) > |b|
  }

  lemma EntryReads(b: seq<byte>, at: nat)
    requires at + 8 <= |b|
    ensures Be16(b[at..][6..]) == Announced(b, at)
    ensures var n := Announced(b, at);
            at + 8 + n <= |b| ==> Reads(EntryOf(b[at..], n), b, at, at + 8 + n) && b[at..][8 + n..] == b[at + 8 + n..]
  {
    var c := b[at..];
    var n := Announced(b, at);
    assert c[6..][0] == b[at + 6] && c[6..][1] == b[at + 7];
    if at + 8 + n <= |b| {
      assert c[8..8 + n] == b[at + 8..at + 8 + n];
      UntilNulIs(b[at + 8..at + 8 + n]);
      hide UntilNul;
    }
  }

  // One item more in front.
  lemma OutcomeMore(b: seq<byte>, number: nat, at: nat, e: Entry, places: seq<nat>, entries: seq<Entry>, r: Result)
    requires number > 0 && Outcome(b, number - 1, places, entries, r) && Reads(e, b, at, places[0])
    ensures Outcome(b, number, [at] + places, [e] + entries, if r.Ok? then Ok([e] + r.entries) else Eproto)
  {
    hide Reads;
    var ps, es := [at] + places, [e] + entries;
    forall k, m | 0 <= k && m == k + 1 < |ps| ensures Reads(es[k], b, ps[k], ps[m]) {
      if k > 0 {
        assert Reads(entries[k - 1], b, places[k - 1], places[m - 1]);
      }
    }
    assert ps[|es|] == places[|entries|];
  }

  lemma {:induction false} ItemsOutcome(b: seq<byte>, at: nat, number: nat)
    returns (places: seq<nat>, entries: seq<Entry>)
    requires at <= |b|
    ensures Outcome(b, number, places, entries, ParseItems(b[at..], number)) && places[0] == at
    decreases number
  {
    hide EntryOf, Reads, Be16;
    if number == 0 || |b| < at + 8 {
      places, entries := [at], [];
    } else {
      EntryReads(b, at);
      var n := Announced(b, at);
      if at + 8 + n > |b| {
        places, entries := [at], [];
      } else {
        var next := at + 8 + n;
        var e := EntryOf(b[at..], n);
        var ps, es := ItemsOutcome(b, next, number - 1);
        OutcomeMore(b, number, at, e, ps, es, ParseItems(b[next..], number - 1));
        hide Outcome, Announced;
        places, entries := [at] + ps, [e] + es;
      }
    }
  }

  // On arbitrary bytes: lists of more than 7 attributes are refused, and so is one in which some item announces more
  // text than is left. From any other each item is read, up to the given number, until fewer than 8 bytes are left:
  // its number, and the C string in its text; items without text leave no trace but an empty entry.
  lemma ParseLaw(b: seq<byte>, number: nat)
    ensures number > 7 ==> ParseList(b, number) == Eproto
    ensures number <= 7 ==>
              exists places, entries :: Outcome(b, number, places, entries, ParseList(b, number)) && places[0] == 0
  {
    if number <= 7 {
      assert b[0..] == b;
      var places, entries := ItemsOutcome(b, 0, number);
      assert Outcome(b, number, places, entries, ParseList(b, number)) && places[0] == 0;
    }
  }

  // ------------------------------------------------------------ the program

  // The fixed part of an attribute.
  method WriteItem(e: Element, pdu: array<byte>, at: nat)
    requires Storable(e) && at + ITEM <= pdu.Length
    modifies pdu
    ensures pdu[at..at + ITEM] == PrintOne(e)[..ITEM] && pdu[..at] == old(pdu[..at])
  {
    pdu[at], pdu[at + 1], pdu[at + 2], pdu[at + 3] := 0, 0, 0, e.id;
    pdu[at + 4], pdu[at + 5], pdu[at + 6], pdu[at + 7] := 0, UTF8 as byte, 0, Byte(|e.text|);
  }

  // write_element_text: the number of bytes written at `at`.
  method WriteElementText(e: Element, pdu: array<byte>, at: nat) returns (len: nat)
    requires Storable(e) && at + ITEM + |e.text| <= pdu.Length
    modifies pdu
    ensures len == |PrintOne(e)| && at + len <= pdu.Length && pdu[..at + len] == old(pdu[..at]) + PrintOne(e)
  {
    WriteItem(e, pdu, at);
    assert |PrintOne(e)| == ITEM + |e.text| && PrintOne(e)[ITEM..] == e.text;
    hide PrintOne;
    var i := 0;
    while i < |e.text|
      invariant i <= |e.text| && pdu[..at] == old(pdu[..at])
      invariant pdu[at..at + ITEM + i] == PrintOne(e)[..ITEM + i]
    {
      pdu[at + ITEM + i] := e.text[i];
      assert PrintOne(e)[ITEM + i] == PrintOne(e)[ITEM..][i];
      assert PrintOne(e)[..ITEM + i + 1] == PrintOne(e)[..ITEM + i] + [e.text[i]];
      i := i + 1;
    }
    len := ITEM + |e.text|;
    assert pdu[..at + len] == pdu[..at] + pdu[at..at + len];
  }

  lemma PrintFrom(es: seq<Element>, i: nat)
    requires i < |es|
    ensures PrintAll(es[i..]) == PrintOne(es[i]) + PrintAll(es[i + 1..])
  {
    assert es[i..][0] == es[i] && es[i..][1..] == es[i + 1..];
  }

  // What has been written, the next attribute and the rest make up the whole.
  lemma Joined(done: seq<byte>, one: seq<byte>, rest: seq<byte>, all: seq<byte>)
    requires done + (one + rest) == all
    ensures (done + one) + rest == all && |done| + |one| <= |all|
  {
  }

  // write_element_attrs, into a buffer that is large enough
  method WriteElementAttrs(es: seq<Element>, pdu: array<byte>) returns (len: nat)
    requires AllStorable(es) && |es| < 256 && |Print(es)| <= pdu.Length
    modifies pdu
    ensures len == |Print(es)| && pdu[..len] == Print(es)
  {
    ghost var all := Print(es);
    pdu[0] := Byte(|es|);
    len := 1;
    var i := 0;
    assert es[0..] == es && pdu[..1] + PrintAll(es) == all;
    hide PrintAll, PrintOne, Print, Storable;
    while i < |es|
      invariant i <= |es| && 1 <= len <= |all|
      invariant pdu[..len] + PrintAll(es[i..]) == all
    {
      PrintFrom(es, i);
      PrintSize(es[i]);
      assert Storable(es[i]);
      ghost var done := pdu[..len];
      Joined(done, PrintOne(es[i]), PrintAll(es[i + 1..]), all);
      var ret := WriteElementText(es[i], pdu, len);
      len := len + ret;
      i := i + 1;
    }
    PrintNone(es[i..]);
  }

  lemma PrintSize(e: Element)
    ensures |PrintOne(e)| == ITEM + |e.text|
  {
  }

  lemma PrintNone(es: seq<Element>)
    requires es == []
    ensures PrintAll(es) == []
  {
  }

  ghost predicate ParsedSoFar(b: seq<byte>, number: nat, k: nat, left: nat, entries: seq<Entry>) {
    k <= |b| && ParseItems(b, number)
                == match ParseItems(b[k..], left)
                   case Ok(rest) => Ok(entries + rest)
                   case Eproto => Eproto
  }

  lemma ParseOn(b: seq<byte>, number: nat, k: nat, left: nat, entries: seq<Entry>)
    requires ParsedSoFar(b, number, k, left, entries) && left > 0 && |b| - k >= ITEM
    ensures var n := Be16(b[k + 6..]);
            if n > |b| - k - ITEM then ParseItems(b, number) == Eproto
            else ParsedSoFar(b, number, k + ITEM + n, left - 1, entries + [EntryOf(b[k..], n)])
  {
    var c := b[k..];
    var n := Be16(b[k + 6..]);
    assert c[6..] == b[k + 6..];
    if n <= |c| - ITEM {
      assert c[ITEM + n..] == b[k + ITEM + n..];
      var e := EntryOf(c, n);
      if ParseItems(c[ITEM + n..], left - 1).Ok? {
        var rest := ParseItems(c[ITEM + n..], left - 1).entries;
        assert entries + ([e] + rest) == (entries + [e]) + rest;
      }
    }
  }

  // parse_attribute_list
  method ParseAttributeList(b: seq<byte>, number: nat) returns (r: Result)
    ensures r == ParseList(b, number)
  {
    if number > LAST_ATTRIBUTE {
      return Eproto;
    }
    var i: nat, k: nat, entries: seq<Entry> := 0, 0, [];
    assert b[0..] == b;
    while i < number && |b| - k >= ITEM
      invariant i <= number && ParsedSoFar(b, number, k, number - i, entries)
    {
      ParseOn(b, number, k, number - i, entries);
      hide ParseItems, ParsedSoFar;
      var n := Be16(b[k + 6..]);
      if n > |b| - k - ITEM {
        return Eproto;
      }
      entries := entries + [EntryOf(b[k..], n)];
      k := k + ITEM + n;
      i := i + 1;
    }
    r := Ok(entries);
    assert entries + [] == entries;
  }
}
