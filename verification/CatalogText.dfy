/** Every catalog the allocator can reach is presentable, so its directory lists back. */
module CatalogText {
  import opened Options
  import opened BlockTables
  import opened Directory
  import opened DosNames
  import opened Subsets

  predicate AllPresentable(catalog: seq<Entry>) {
    forall i :: 0 <= i < |catalog| ==> Presentable(catalog[i])
  }

  lemma SpecIsShort(o: OpenSpec)
    requires SpecOk(o)
    ensures |o.kind| <= 3 && |o.mode| <= 1 && Plain(o.kind) && Plain(o.mode)
  {
  }

  lemma EntryNameIsText(o: OpenSpec, track: nat, sector: nat)
    requires SpecOk(o)
    ensures |EntryName(o, track, sector)| <= NAME_LIMIT && Plain(EntryName(o, track, sector))
  {
    HexIsText(track);
    HexIsText(sector);
    hide Hex;
    assert Plain("BLK-");
  }

  lemma HexIsText(v: nat)
    ensures |Hex(v)| == 2 && Plain(Hex(v))
  {
    var digits := "0123456789ABCDEF";
    assert forall i :: 0 <= i < 16 ==> ' ' <= digits[i] <= '~';
  }

  /** An entry's text is its name, type and mode; the count is the allocator's. */
  predicate TextOk(e: Entry) {
    |e.name| <= NAME_LIMIT && |e.kind| <= 3 && |e.mode| <= 1 && Plain(e.name) && Plain(e.kind) && Plain(e.mode)
  }

  predicate AllTextOk(catalog: seq<Entry>) {
    forall i :: 0 <= i < |catalog| ==> TextOk(catalog[i])
  }

  lemma EnsureKeepsText(s: Tables, ch: nat, track: nat, sector: nat, open: OpenSpec)
    requires Shaped(s) && ch < CHANNELS && AllTextOk(s.catalog) && SpecOk(open)
    ensures AllTextOk(EnsureEntry(s, ch, track, sector, open).tables.catalog)
  {
    SpecIsShort(open);
    EntryNameIsText(open, track, sector);
    hide Plain, SpecOk, EntryName, FirstUnused;
  }

  lemma AllocateKeepsText(s: Tables, track: nat, sector: nat, channel: nat, open: OpenSpec)
    requires Shaped(s) && AllTextOk(s.catalog) && SpecOk(open)
    ensures AllTextOk(Allocate(s, track, sector, channel, open).tables.catalog)
  {
    EnsureKeepsText(s, channel % CHANNELS, track, sector, open);
    hide Plain, SpecOk, EnsureEntry;
  }

  lemma UnusedIsText()
    ensures TextOk(UNUSED)
  {
  }

  lemma FreeKeepsText(s: Tables, track: nat, sector: nat)
    requires Shaped(s) && AllTextOk(s.catalog)
    ensures AllTextOk(Free(s, track, sector).tables.catalog)
  {
    UnusedIsText();
    hide Plain;
  }

  /** A catalog in good order has counts that fit, so text is all that presentation needs. */
  lemma GoodTablesArePresentable(s: Tables)
    requires Ok(s) && AllTextOk(s.catalog)
    ensures AllPresentable(s.catalog) && 0 <= BlocksFree(s) <= BLOCKS
  {
    hide Plain;
    CountIsNatural(s);
    forall e | 0 <= e < ENTRIES ensures Presentable(s.catalog[e]) {
      assert EntryOk(s, e) && TextOk(s.catalog[e]);
      OwnedIsBounded(s, e);
    }
  }

  lemma OwnedIsBounded(s: Tables, e: int)
    requires Shaped(s)
    ensures 0 <= Owned(s, e) <= BLOCKS
  {
    assert |OwnedBlocks(s.owner, e)| == Owned(s, e);
    SubsetIsNoLarger(OwnedBlocks(s.owner, e), Naturals(BLOCKS));
  }

  /** Channels of a run open names as OPEN leaves them. */
  predicate SpecsOk(ops: seq<Op>) {
    forall i :: 0 <= i < |ops| && ops[i].Take? ==> SpecOk(ops[i].open)
  }

  lemma ApplyKeepsText(s: Tables, op: Op)
    requires Shaped(s) && AllTextOk(s.catalog) && (op.Take? ==> SpecOk(op.open))
    ensures AllTextOk(Apply(s, op).tables.catalog)
  {
    hide AllTextOk, SpecOk;
    match op
    case Take(track, sector, channel, open) => AllocateKeepsText(s, track, sector, channel, open);
    case Give(track, sector) => FreeKeepsText(s, track, sector);
  }

  lemma ShapeOf(s: Tables)
    requires Ok(s)
    ensures Shaped(s) && |s.catalog| == ENTRIES
  {
  }

  lemma {:induction false} RunKeepsText(s: Tables, ops: seq<Op>)
    requires Ok(s) && AllTextOk(s.catalog) && SpecsOk(ops)
    ensures AllTextOk(Run(s, ops).catalog)
    decreases |ops|
  {
    hide Ok, AllTextOk, SpecOk;
    if ops != [] {
      ShapeOf(s);
      ApplyRefines(s, ops[0]);
      ApplyKeepsText(s, ops[0]);
      RunKeepsText(Apply(s, ops[0]).tables, ops[1..]);
    }
  }

  /** From reset, after any allocations and frees under names OPEN can leave, the directory, under any
      filters, lists back as its own lines with the allocator's own free count. */
  lemma EveryDirectoryListsBack(ops: seq<Op>, f: Filters)
    requires SpecsOk(ops)
    ensures var s := Run(Empty(), ops);
            var lines := StubLines(s.catalog, f, BlocksFree(s));
            AllPresentable(s.catalog) && List(Payload(lines)[2..], LOAD_ADDRESS) == Some(lines)
  {
    EmptyIsText();
    RunKeepsText(Empty(), ops);
    var s := Run(Empty(), ops);
    hide Ok, AllTextOk, SpecsOk, Run, Empty;
    GoodTablesArePresentable(s);
    ShapeOf(s);
    StubListsBack(s.catalog, f, BlocksFree(s));
  }

  lemma EmptyIsText()
    ensures AllTextOk(Empty().catalog)
  {
    UnusedIsText();
    hide Ok, TextOk;
  }
}
