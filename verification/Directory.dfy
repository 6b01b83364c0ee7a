/** The directory as the drive sends it: a BASIC program whose lines are chained by 16-bit links, and
    what a reader that follows the links gets back. */
module Directory {
  import opened Options
  import opened BlockTables
  import Glob

  type Octet = x: int | 0 <= x < 256

  const LOAD_ADDRESS := 0x0801
  const ADDRESS_SPACE := 0x1_0000

  datatype Line = Line(number: nat, text: seq<Octet>)

  // ---- writing the chain -----------------------------------------------------------------------

  function Low(word: nat): Octet { word % 256 }

  function High(word: nat): Octet { word / 256 % 256 }

  /** The address after a line, in 16 bits. */
  function NextAddress(cursor: nat, line: Line): nat {
    (cursor + 2 + 2 + |line.text| + 1) % ADDRESS_SPACE
  }

  function LineBytes(cursor: nat, line: Line): seq<Octet> {
    var next := NextAddress(cursor, line);
    [Low(next), High(next), Low(line.number), High(line.number)] + line.text + [0]
  }

  function Chain(cursor: nat, lines: seq<Line>): seq<Octet>
    decreases |lines|
  {
    if lines == [] then [] else LineBytes(cursor, lines[0]) + Chain(NextAddress(cursor, lines[0]), lines[1..])
  }

  function CursorAfter(cursor: nat, lines: seq<Line>): nat
    decreases |lines|
  {
    if lines == [] then cursor else CursorAfter(NextAddress(cursor, lines[0]), lines[1..])
  }

  /** The program as it lies in memory from the load address on. */
  function Image(lines: seq<Line>): seq<Octet> {
    Chain(LOAD_ADDRESS, lines) + [0, 0]
  }

  function Payload(lines: seq<Line>): seq<Octet> {
    [Low(LOAD_ADDRESS), High(LOAD_ADDRESS)] + Image(lines)
  }

  // ---- reading it back ---------------------------------------------------------------------------

  /** The text up to the next zero octet. */
  function TextAt(image: seq<Octet>, o: nat): seq<Octet>
    decreases |image| - o
  {
    if o >= |image| || image[o] == 0 then [] else [image[o]] + TextAt(image, o + 1)
  }

  function WordOf(low: int, high: int): int {
    low + 256 * high
  }

  /** Lists the program by following links upwards until a zero link; anything else is no program. */
  function List(image: seq<Octet>, address: nat): Option<seq<Line>>
    requires address >= LOAD_ADDRESS
    decreases ADDRESS_SPACE - address
  {
    var o := address - LOAD_ADDRESS;
    if o + 2 > |image| then None
    else
      var link := WordOf(image[o], image[o + 1]);
      if link == 0 then Some([])
      else if link <= address || o + 4 > |image| then None
      else
        var rest := List(image, link);
        if rest.None? then None
        else Some([Line(WordOf(image[o + 2], image[o + 3]), TextAt(image, o + 4))] + rest.value)
  }

  // ---- the round trip ----------------------------------------------------------------------------

  predicate WellFormed(line: Line) {
    line.number < ADDRESS_SPACE && |line.text| + 5 < ADDRESS_SPACE && 0 !in line.text
  }

  predicate AllWellFormed(lines: seq<Line>) {
    forall i :: 0 <= i < |lines| ==> WellFormed(lines[i])
  }

  /** No line ends beyond the 16-bit address space. */
  predicate Fits(cursor: nat, lines: seq<Line>)
    decreases |lines|
  {
    lines == [] || (cursor + 5 + |lines[0].text| < ADDRESS_SPACE && Fits(cursor + 5 + |lines[0].text|, lines[1..]))
  }

  lemma {:induction false} TextAtReadsText(image: seq<Octet>, o: nat, text: seq<Octet>)
    requires 0 !in text && o + |text| < |image|
    requires image[o..o + |text|] == text && image[o + |text|] == 0
    ensures TextAt(image, o) == text
    decreases |text|
  {
    if text != [] {
      assert image[o] == image[o..o + |text|][0] == text[0];
      assert image[o + 1..o + 1 + |text[1..]|] == image[o..o + |text|][1..];
      TextAtReadsText(image, o + 1, text[1..]);
    }
  }

  lemma WordRoundTrip(word: nat)
    requires word < ADDRESS_SPACE
    ensures WordOf(Low(word), High(word)) == word
  {
  }

  /** The bytes of one line, found at their place in the image. */
  lemma LineReadsBack(image: seq<Octet>, o: nat, line: Line)
    requires WellFormed(line) && o + 5 + |line.text| <= |image|
    requires image[o..o + 5 + |line.text|] == LineBytes(LOAD_ADDRESS + o, line)
    ensures WordOf(image[o], image[o + 1]) == NextAddress(LOAD_ADDRESS + o, line)
    ensures Line(WordOf(image[o + 2], image[o + 3]), TextAt(image, o + 4)) == line
  {
    var bytes := image[o..o + 5 + |line.text|];
    assert image[o] == bytes[0] && image[o + 1] == bytes[1] && image[o + 2] == bytes[2] && image[o + 3] == bytes[3];
    WordRoundTrip(NextAddress(LOAD_ADDRESS + o, line));
    WordRoundTrip(line.number);
    var n := |line.text|;
    assert image[o + 4 + n] == bytes[4 + n] == 0;
    assert image[o + 4..o + 4 + n] == line.text by {
      forall i | 0 <= i < n ensures image[o + 4 + i] == line.text[i] {
        assert image[o + 4 + i] == bytes[4 + i];
      }
    }
    TextAtReadsText(image, o + 4, line.text);
  }

  lemma LineLength(cursor: nat, line: Line)
    ensures |LineBytes(cursor, line)| == 5 + |line.text|
  {
  }

  lemma NextAddressWraps(cursor: nat, line: Line)
    requires cursor < ADDRESS_SPACE && |line.text| + 5 < ADDRESS_SPACE
    ensures var end := cursor + 5 + |line.text|;
            NextAddress(cursor, line) == if end < ADDRESS_SPACE then end else end - ADDRESS_SPACE
  {
  }

  /** What the reader does at a line it finds in its place. */
  lemma ListStep(image: seq<Octet>, o: nat, line: Line)
    requires WellFormed(line) && o + 5 + |line.text| <= |image| && LOAD_ADDRESS + o < ADDRESS_SPACE
    requires image[o..o + 5 + |line.text|] == LineBytes(LOAD_ADDRESS + o, line)
    ensures var end := LOAD_ADDRESS + o + 5 + |line.text|;
            var r := List(image, LOAD_ADDRESS + o);
            if end == ADDRESS_SPACE then r == Some([])
            else if end > ADDRESS_SPACE then r == None
            else var rest := List(image, end);
                 r == if rest.None? then None else Some([line] + rest.value)
  {
    hide LineBytes, NextAddress, WordOf, TextAt;
    LineReadsBack(image, o, line);
    NextAddressWraps(LOAD_ADDRESS + o, line);
  }

  lemma SplitAt(image: seq<Octet>, o: nat, head: seq<Octet>, tail: seq<Octet>)
    requires o <= |image| && image[o..] == head + tail
    ensures o + |head| <= |image| && image[o..o + |head|] == head && image[o + |head|..] == tail
  {
    assert image[o..o + |head|] == image[o..][..|head|];
    assert image[o + |head|..] == image[o..][|head|..];
  }

  lemma EmptyListing(image: seq<Octet>, o: nat)
    requires o <= |image| && image[o..] == Chain(LOAD_ADDRESS + o, []) + [0, 0]
    ensures List(image, LOAD_ADDRESS + o) == Some([])
  {
    assert image[o] == image[o..][0] && image[o + 1] == image[o..][1];
  }

  lemma ChainHead(cursor: nat, lines: seq<Line>)
    requires lines != []
    ensures Chain(cursor, lines) + [0, 0]
         == LineBytes(cursor, lines[0]) + (Chain(NextAddress(cursor, lines[0]), lines[1..]) + [0, 0])
  {
    hide LineBytes, NextAddress;
  }

  lemma {:induction false} ListFollowsChain(image: seq<Octet>, o: nat, lines: seq<Line>)
    requires AllWellFormed(lines) && LOAD_ADDRESS + o < ADDRESS_SPACE && o <= |image|
    requires image[o..] == Chain(LOAD_ADDRESS + o, lines) + [0, 0]
    ensures var r := List(image, LOAD_ADDRESS + o);
            if Fits(LOAD_ADDRESS + o, lines) then r == Some(lines) else r != Some(lines)
    decreases |lines|
  {
    hide LineBytes, List, NextAddress, Chain;
    if lines == [] {
      EmptyListing(image, o);
    } else {
      var line, cursor := lines[0], LOAD_ADDRESS + o;
      var next := NextAddress(cursor, line);
      ChainHead(cursor, lines);
      LineLength(cursor, line);
      NextAddressWraps(cursor, line);
      SplitAt(image, o, LineBytes(cursor, line), Chain(next, lines[1..]) + [0, 0]);
      ListStep(image, o, line);
      if cursor + 5 + |line.text| < ADDRESS_SPACE {
        ListFollowsChain(image, o + 5 + |line.text|, lines[1..]);
        assert lines == [line] + lines[1..];
      }
    }
  }

  /** Following the links recovers exactly the lines written if and only if they fit below the end of
      the address space; otherwise a wrapped link stops or breaks the listing. */
  lemma ListingRoundTripIff(lines: seq<Line>)
    requires AllWellFormed(lines)
    ensures List(Image(lines), LOAD_ADDRESS) == Some(lines) <==> Fits(LOAD_ADDRESS, lines)
  {
    assert Image(lines)[0..] == Image(lines);
    ListFollowsChain(Image(lines), 0, lines);
  }

  // ---- the directory stub ---------------------------------------------------------------------------

  datatype Filters = Filters(pattern: string, kind: string, mode: string, negated: bool)

  function Octets(s: string): seq<Octet> {
    seq(|s|, i requires 0 <= i < |s| => s[i] as int % 256)
  }

  function Digit(d: nat): char
    requires d < 10
  {
    "0123456789"[d]
  }

  function Decimal(n: nat): string {
    if n < 10 then [Digit(n)] else Decimal(n / 10) + [Digit(n % 10)]
  }

  function Signed(n: int): string {
    if n < 0 then "-" + Decimal(-n) else Decimal(n)
  }

  const HEADER: string := "0 \"OPENCODE 1541\" 00 2A"
  const PLACEHOLDER: string := "1 \"$\" PRG"

  predicate Listed(e: Entry, f: Filters) {
    && e.used
    && Glob.Verdict(f.pattern, e.name)
    && (f.kind != "" ==> e.kind == f.kind)
    && (f.mode != "" ==> (e.mode == f.mode) != f.negated)
  }

  function EntryText(e: Entry): string {
    Signed(e.blocks) + " \"" + e.name + "\" " + e.kind + (if e.mode != "" then "," + e.mode else "")
  }

  function FreeText(free: int): string {
    Signed(free) + " BLOCKS FREE."
  }

  /** The listed entries, in slot order. */
  function Listing(catalog: seq<Entry>, f: Filters): seq<Entry> {
    if catalog == [] then []
    else
      var n := |catalog| - 1;
      Listing(catalog[..n], f) + if Listed(catalog[n], f) then [catalog[n]] else []
  }

  function Word(n: nat): nat { n % ADDRESS_SPACE }

  function EntryLines(entries: seq<Entry>): seq<Line> {
    seq(|entries|, i requires 0 <= i < |entries| => Line(Word(1 + i), Octets(EntryText(entries[i]))))
  }

  /** Header, the listed entries or a placeholder, then what is free. */
  function StubLines(catalog: seq<Entry>, f: Filters, free: int): seq<Line> {
    var body := EntryLines(Listing(catalog, f));
    var shown := if body == [] then [Line(1, Octets(PLACEHOLDER))] else body;
    [Line(0, Octets(HEADER))] + shown + [Line(Word(1 + |shown|), Octets(FreeText(free)))]
  }

  lemma {:induction false} ChainOfAppend(cursor: nat, lines: seq<Line>, line: Line)
    ensures Chain(cursor, lines + [line]) == Chain(cursor, lines) + LineBytes(CursorAfter(cursor, lines), line)
    ensures CursorAfter(cursor, lines + [line]) == NextAddress(CursorAfter(cursor, lines), line)
    decreases |lines|
  {
    hide LineBytes, NextAddress;
    if lines == [] {
      assert lines + [line] == [line] && [line][1..] == [];
      assert Chain(NextAddress(cursor, line), []) == [];
    } else {
      var next := NextAddress(cursor, lines[0]);
      ChainOfAppend(next, lines[1..], line);
      assert (lines + [line])[1..] == lines[1..] + [line];
    }
  }

  /** The program's bytes so far: its load address and its lines. */
  function Program(lines: seq<Line>): seq<Octet> {
    [Low(LOAD_ADDRESS), High(LOAD_ADDRESS)] + Chain(LOAD_ADDRESS, lines)
  }

  lemma ProgramOfAppend(lines: seq<Line>, line: Line)
    ensures Program(lines + [line]) == Program(lines) + LineBytes(CursorAfter(LOAD_ADDRESS, lines), line)
    ensures CursorAfter(LOAD_ADDRESS, lines + [line]) == NextAddress(CursorAfter(LOAD_ADDRESS, lines), line)
  {
    ChainOfAppend(LOAD_ADDRESS, lines, line);
    hide Chain, CursorAfter, Low, High, LineBytes, NextAddress;
  }

  /** Appends one line to the program and moves the cursor behind it. */
  method EnqueueBasicLine(prg: seq<Octet>, cursor: nat, lineNo: nat, text: string, ghost lines: seq<Line>)
    returns (prg': seq<Octet>, cursor': nat)
    requires prg == Program(lines)
    requires cursor == CursorAfter(LOAD_ADDRESS, lines)
    ensures var lines' := lines + [Line(lineNo, Octets(text))];
            && prg' == Program(lines')
            && cursor' == CursorAfter(LOAD_ADDRESS, lines')
  {
    ghost var line := Line(lineNo, Octets(text));
    ProgramOfAppend(lines, line);
    hide Program, CursorAfter, Low, High;
    var octets := Octets(text);
    assert |octets| == |text|;
    hide Octets;
    var next := (cursor + 2 + 2 + |octets| + 1) % ADDRESS_SPACE;
    prg' := prg + [Low(next), High(next)];
    prg' := prg' + [Low(lineNo), High(lineNo)];
    prg' := prg' + octets;
    prg' := prg' + [0];
    assert prg' == prg + LineBytes(cursor, line);
    cursor' := next;
  }

  lemma ListingOfAppend(catalog: seq<Entry>, i: nat, f: Filters)
    requires i < |catalog|
    ensures Listing(catalog[..i + 1], f) == Listing(catalog[..i], f) + if Listed(catalog[i], f) then [catalog[i]]
            else []
  {
    assert catalog[..i + 1][..i] == catalog[..i];
  }

  lemma EntryLinesOfAppend(entries: seq<Entry>, e: Entry)
    ensures EntryLines(entries + [e]) == EntryLines(entries) + [Line(Word(1 + |entries|), Octets(EntryText(e)))]
  {
    hide EntryText, Octets, Word;
  }

  function BodyLines(catalog: seq<Entry>, f: Filters): seq<Line> {
    [Line(0, Octets(HEADER))] + EntryLines(Listing(catalog, f))
  }

  lemma WordSuccessor(n: nat)
    ensures (Word(n) + 1) % ADDRESS_SPACE == Word(n + 1)
  {
  }

  /** How the lines grow with one more slot. */
  lemma BodyLinesOfAppend(catalog: seq<Entry>, i: nat, f: Filters)
    requires i < |catalog|
    ensures var n := |Listing(catalog[..i], f)|;
            if Listed(catalog[i], f)
            then |Listing(catalog[..i + 1], f)| == n + 1 && Word(1 + n + 1) == (Word(1 + n) + 1) % ADDRESS_SPACE &&
                 BodyLines(catalog[..i + 1], f)
                 == BodyLines(catalog[..i], f) + [Line(Word(1 + n), Octets(EntryText(catalog[i])))]
            else Listing(catalog[..i + 1], f) == Listing(catalog[..i], f)
  {
    hide EntryText, Octets, Listed, EntryLines;
    ListingOfAppend(catalog, i, f);
    EntryLinesOfAppend(Listing(catalog[..i], f), catalog[i]);
    WordSuccessor(1 + |Listing(catalog[..i], f)|);
  }

  /** Appends a line for each listed entry, in slot order. */
  method EnqueueEntries(catalog: array<Entry>, f: Filters, prg0: seq<Octet>, cursor0: nat)
    returns (prg: seq<Octet>, cursor: nat, lineNo: nat, anyCatalog: bool)
    requires prg0 == Program(BodyLines([], f))
    requires cursor0 == CursorAfter(LOAD_ADDRESS, BodyLines([], f))
    ensures prg == Program(BodyLines(catalog[..], f))
    ensures cursor == CursorAfter(LOAD_ADDRESS, BodyLines(catalog[..], f))
    ensures lineNo == Word(1 + |Listing(catalog[..], f)|)
    ensures anyCatalog == (Listing(catalog[..], f) != [])
  {
    prg, cursor, lineNo, anyCatalog := prg0, cursor0, 1, false;
    ghost var all := catalog[..];
    assert all[..0] == [] && all[..catalog.Length] == all;
    NothingListed(f);
    hide *;
    for i := 0 to catalog.Length
      invariant prg == Program(BodyLines(all[..i], f))
      invariant cursor == CursorAfter(LOAD_ADDRESS, BodyLines(all[..i], f))
      invariant lineNo == Word(1 + |Listing(all[..i], f)|)
      invariant anyCatalog == (|Listing(all[..i], f)| > 0)
    {
      BodyLinesOfAppend(all, i, f);
      if Listed(catalog[i], f) {
        anyCatalog := true;
        prg, cursor := EnqueueBasicLine(prg, cursor, lineNo, EntryText(catalog[i]), BodyLines(all[..i], f));
        lineNo := (lineNo + 1) % ADDRESS_SPACE;
      } else {
        BodyLinesOfNone(all, i, f);
      }
    }
  }

  lemma NothingListed(f: Filters)
    ensures Word(1) == 1 && Listing([], f) == []
  {
  }

  lemma BodyLinesOfNone(catalog: seq<Entry>, i: nat, f: Filters)
    requires i < |catalog| && Listing(catalog[..i + 1], f) == Listing(catalog[..i], f)
    ensures BodyLines(catalog[..i + 1], f) == BodyLines(catalog[..i], f)
  {
    hide Listing, EntryLines;
  }

  /** The transmit queue after the directory was asked for: the payload of exactly the stub's lines. */
  method BuildDirectoryStubPayload(catalog: array<Entry>, f: Filters, free: int) returns (queue: seq<Octet>)
    ensures queue == Payload(StubLines(catalog[..], f, free))
  {
    var prg: seq<Octet> := [0x01, 0x08];
    var cursor: nat := LOAD_ADDRESS;
    assert prg == Program([]);
    prg, cursor := EnqueueBasicLine(prg, cursor, 0, HEADER, []);
    assert BodyLines([], f) == [] + [Line(0, Octets(HEADER))];
    hide Program, CursorAfter, Octets, FreeText, Listing, Low, High;
    var lineNo, anyCatalog;
    prg, cursor, lineNo, anyCatalog := EnqueueEntries(catalog, f, prg, cursor);
    ghost var lines := BodyLines(catalog[..], f);
    if !anyCatalog {
      prg, cursor := EnqueueBasicLine(prg, cursor, lineNo, PLACEHOLDER, lines);
      lines := lines + [Line(lineNo, Octets(PLACEHOLDER))];
      lineNo := (lineNo + 1) % ADDRESS_SPACE;
    }
    prg, cursor := EnqueueBasicLine(prg, cursor, lineNo, FreeText(free), lines);
    assert lines + [Line(lineNo, Octets(FreeText(free)))] == StubLines(catalog[..], f, free);
    queue := prg + [0x00, 0x00];
  }

  // ---- the stub always lists back --------------------------------------------------------------------

  predicate Plain(s: string) {
    forall i :: 0 <= i < |s| ==> ' ' <= s[i] <= '~'
  }

  /** What the drive lets into its catalog: printable names of at most 16 characters. */
  predicate Presentable(e: Entry) {
    0 <= e.blocks <= BLOCKS && |e.name| <= 16 && |e.kind| <= 3 && |e.mode| <= 1 &&
    Plain(e.name) && Plain(e.kind) && Plain(e.mode)
  }

  const TEXT_LIMIT := 40

  predicate Modest(line: Line) {
    line.number < ADDRESS_SPACE && |line.text| <= TEXT_LIMIT && 0 !in line.text
  }

  lemma PlainOctets(s: string)
    requires Plain(s)
    ensures |Octets(s)| == |s| && 0 !in Octets(s)
  {
    forall i | 0 <= i < |s| ensures Octets(s)[i] != 0 {
      assert ' ' <= s[i] <= '~';
    }
  }

  lemma {:induction false} DecimalIsShort(n: nat, digits: nat)
    requires digits in {1, 2, 3} && n < (if digits == 1 then 10 else if digits == 2 then 100 else 1000)
    ensures |Decimal(n)| <= digits && Plain(Decimal(n))
    decreases digits
  {
    if n >= 10 {
      DecimalIsShort(n / 10, digits - 1);
    }
  }

  lemma EntryTextIsModest(e: Entry, n: nat)
    requires Presentable(e)
    ensures Modest(Line(Word(n), Octets(EntryText(e))))
  {
    DecimalIsShort(e.blocks, 3);
    assert Plain(" \"") && Plain("\" ") && Plain(",");
    PlainOctets(EntryText(e));
  }

  lemma FreeTextIsModest(free: int, n: nat)
    requires 0 <= free <= BLOCKS
    ensures Modest(Line(Word(n), Octets(FreeText(free))))
  {
    DecimalIsShort(free, 3);
    assert Plain(" BLOCKS FREE.");
    PlainOctets(FreeText(free));
  }

  /** The slots whose entries are listed, in order. */
  function ListedSlots(catalog: seq<Entry>, f: Filters): seq<nat> {
    if catalog == [] then []
    else
      var n := |catalog| - 1;
      ListedSlots(catalog[..n], f) + if Listed(catalog[n], f) then [n] else []
  }

  /** The listing is the listed slots' entries, each slot once and in slot order, and no others. */
  lemma {:induction false} ListingIsInSlotOrder(catalog: seq<Entry>, f: Filters)
    ensures var slots := ListedSlots(catalog, f);
            && |Listing(catalog, f)| == |slots|
            && (forall i :: 0 <= i < |slots| ==> slots[i] < |catalog| && Listing(catalog, f)[i] == catalog[slots[i]])
            && (forall i, j :: 0 <= i < j < |slots| ==> slots[i] < slots[j])
            && (forall k: nat :: k in slots <==> k < |catalog| && Listed(catalog[k], f))
  {
    hide Listed;
    if catalog != [] {
      var n := |catalog| - 1;
      ListingIsInSlotOrder(catalog[..n], f);
      var slots, shown := ListedSlots(catalog[..n], f), Listing(catalog[..n], f);
      var on := Listed(catalog[n], f);
      assert ListedSlots(catalog, f) == slots + if on then [n] else [];
      assert Listing(catalog, f) == shown + if on then [catalog[n]] else [];
      hide ListedSlots, Listing;
      assert forall k: nat :: k < n ==> catalog[..n][k] == catalog[k];
    }
  }

  lemma {:induction false} ListingIsSelection(catalog: seq<Entry>, f: Filters)
    ensures |Listing(catalog, f)| <= |catalog|
    ensures forall e :: e in Listing(catalog, f) <==> e in catalog && Listed(e, f)
  {
    hide Listed;
    if catalog != [] {
      var n := |catalog| - 1;
      ListingIsSelection(catalog[..n], f);
      assert catalog == catalog[..n] + [catalog[n]];
    }
  }

  lemma {:induction false} ModestLinesFit(cursor: nat, lines: seq<Line>)
    requires forall i :: 0 <= i < |lines| ==> Modest(lines[i])
    requires cursor + (TEXT_LIMIT + 5) * |lines| < ADDRESS_SPACE
    ensures Fits(cursor, lines)
    decreases |lines|
  {
    if lines != [] {
      ModestLinesFit(cursor + 5 + |lines[0].text|, lines[1..]);
    }
  }

  lemma StubLinesAreModest(catalog: seq<Entry>, f: Filters, free: int)
    requires forall i :: 0 <= i < |catalog| ==> Presentable(catalog[i])
    requires 0 <= free <= BLOCKS
    ensures var lines := StubLines(catalog, f, free);
            |lines| <= |catalog| + 3 && forall i :: 0 <= i < |lines| ==> Modest(lines[i])
  {
    hide EntryText, FreeText, Listed, Octets, Word, Presentable;
    var entries := Listing(catalog, f);
    ListingIsSelection(catalog, f);
    forall i | 0 <= i < |entries| ensures Modest(EntryLines(entries)[i]) {
      assert entries[i] in catalog;
      EntryTextIsModest(entries[i], 1 + i);
    }
    FixedTextsAreModest();
    FreeTextIsModest(free, 1 + (if entries == [] then 1 else |entries|));
  }

  lemma FixedTextsAreModest()
    ensures Modest(Line(0, Octets(HEADER))) && Modest(Line(1, Octets(PLACEHOLDER)))
  {
    assert Plain(HEADER) && Plain(PLACEHOLDER);
    PlainOctets(HEADER);
    PlainOctets(PLACEHOLDER);
  }

  /** Every directory of a presentable catalog lists back as its header, its listed entries in slot
      order (or the placeholder), and the free line. */
  lemma StubListsBack(catalog: seq<Entry>, f: Filters, free: int)
    requires |catalog| == ENTRIES && forall i :: 0 <= i < |catalog| ==> Presentable(catalog[i])
    requires 0 <= free <= BLOCKS
    ensures var lines := StubLines(catalog, f, free);
            List(Payload(lines)[2..], LOAD_ADDRESS) == Some(lines)
  {
    var lines := StubLines(catalog, f, free);
    StubLinesAreModest(catalog, f, free);
    hide StubLines, Presentable;
    ModestLinesFit(LOAD_ADDRESS, lines);
    forall i | 0 <= i < |lines| ensures WellFormed(lines[i]) {
      assert Modest(lines[i]);
    }
    ListingRoundTripIff(lines);
    assert Payload(lines)[2..] == Image(lines);
  }
}
