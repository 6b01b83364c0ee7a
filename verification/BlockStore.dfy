/** The allocator as the drive holds it: fixed arrays updated in place. */
module BlockStore {
  import opened BlockTables

  lemma EnsureGivesNoEntryOnlyUnchanged(s: Tables, ch: nat, track: nat, sector: nat, open: OpenSpec)
    requires Shaped(s) && ch < CHANNELS
    ensures var r := EnsureEntry(s, ch, track, sector, open);
            |r.tables.catalog| == ENTRIES && (0 <= r.entry < ENTRIES || r.tables == s)
  {
  }

  /** The tables with block `b` marked as taken by entry `e`. */
  function Claimed(t: Tables, b: nat, e: nat): Tables
    requires Shaped(t) && b < BLOCKS && e < ENTRIES
  {
    t.(taken := t.taken[b := true], owner := t.owner[b := e], count := t.count + 1,
       catalog := t.catalog[e := t.catalog[e].(blocks := t.catalog[e].blocks + 1)])
  }

  lemma AllocateCases(s: Tables, track: nat, sector: nat, channel: nat, open: OpenSpec)
    requires Shaped(s)
    ensures var b, r := BlockIndex(track, sector), EnsureEntry(s, channel % CHANNELS, track, sector, open);
            && b < BLOCKS && Shaped(r.tables)
            && Allocate(s, track, sector, channel, open)
               == if s.taken[b] || !(0 <= r.entry < ENTRIES) then Outcome(s, false)
                  else Outcome(Claimed(r.tables, b, r.entry), true)
  {
    hide EnsureEntry;
  }

  class BlockStore {
    const taken: array<bool>
    const owner: array<int>
    const catalog: array<Entry>
    const channelEntry: array<int>
    var count: int

    ghost predicate Valid()
      reads this
    {
      && taken.Length == BLOCKS && owner.Length == BLOCKS
      && catalog.Length == ENTRIES && channelEntry.Length == CHANNELS
      && owner != channelEntry
    }

    ghost function Model(): Tables
      reads this, taken, owner, catalog, channelEntry
    {
      Tables(taken[..], owner[..], count, catalog[..], channelEntry[..])
    }

    constructor ()
      ensures Valid() && Model() == Reset()
      ensures fresh(taken) && fresh(owner) && fresh(catalog) && fresh(channelEntry)
    {
      taken := new bool[BLOCKS](_ => false);
      owner := new int[BLOCKS](_ => NO_OWNER);
      catalog := new Entry[ENTRIES](_ => UNUSED);
      channelEntry := new int[CHANNELS](_ => NO_ENTRY);
      count := 0;
      new;
      assert Model() == Reset();
    }

    method FindFreeCatalogSlot() returns (e: int)
      requires Valid()
      ensures e == FirstUnused(catalog[..], 0)
    {
      for i := 0 to ENTRIES
        invariant FirstUnused(catalog[..], i) == FirstUnused(catalog[..], 0)
      {
        if !catalog[i].used {
          return i;
        }
      }
      return NO_ENTRY;
    }

    method EnsureCatalogEntryForChannel(channel: nat, track: nat, sector: nat, open: OpenSpec) returns (e: int)
      requires Valid()
      modifies catalog, channelEntry
      ensures EnsureEntry(old(Model()), channel % CHANNELS, track, sector, open) == Ensured(Model(), e)
    {
      var ch := channel % CHANNELS;
      var mapped := channelEntry[ch];
      if 0 <= mapped < ENTRIES && catalog[mapped].used {
        if open.valid && open.name != "" && open.name != "$" {
          catalog[mapped] := catalog[mapped].(name := open.name, kind := open.kind, mode := open.mode);
        }
        assert catalog[..] == old(catalog[..])[mapped := Renamed(old(catalog[mapped]), open)];
        return mapped;
      }
      var free := FindFreeCatalogSlot();
      FirstUnusedFinds(catalog[..], 0);
      if free < 0 {
        return NO_ENTRY;
      }
      catalog[free] := Entry(true, ch, track, sector, 0, EntryName(open, track, sector), open.kind, open.mode);
      channelEntry[ch] := free;
      return free;
    }

    method RemoveCatalogEntryByIndex(e: nat)
      requires Valid() && e < ENTRIES
      modifies catalog, channelEntry
      ensures Model() == RemoveEntry(old(Model()), e)
    {
      var ch := catalog[e].channel;
      if 0 <= ch < CHANNELS && channelEntry[ch] == e {
        channelEntry[ch] := NO_ENTRY;
      }
      catalog[e] := UNUSED;
    }

    method AllocateVirtualBlock(track: nat, sector: nat, channel: nat, open: OpenSpec) returns (ok: bool)
      requires Valid()
      modifies this, taken, owner, catalog, channelEntry
      ensures Outcome(Model(), ok) == Allocate(old(Model()), track, sector, channel, open)
    {
      EnsureGivesNoEntryOnlyUnchanged(Model(), channel % CHANNELS, track, sector, open);
      AllocateCases(Model(), track, sector, channel, open);
      hide EnsureEntry, Allocate, BlockIndex, Claimed;
      var b := BlockIndex(track, sector);
      if taken[b] {
        return false;
      }
      var e := EnsureCatalogEntryForChannel(channel, track, sector, open);
      if e < 0 || e >= ENTRIES {
        return false;
      }
      ClaimBlock(b, e);
      return true;
    }

    method ClaimBlock(b: nat, e: nat)
      requires Valid() && b < BLOCKS && e < ENTRIES
      modifies this`count, taken, owner, catalog
      ensures Model() == Claimed(old(Model()), b, e)
    {
      taken[b] := true;
      owner[b] := e;
      count := count + 1;
      catalog[e] := catalog[e].(blocks := catalog[e].blocks + 1);
    }

    method FreeVirtualBlock(track: nat, sector: nat) returns (ok: bool)
      requires Valid()
      modifies this, taken, owner, catalog, channelEntry
      ensures Outcome(Model(), ok) == Free(old(Model()), track, sector)
    {
      hide RemoveEntry;
      var b := BlockIndex(track, sector);
      if !taken[b] {
        return false;
      }
      var e := owner[b];
      taken[b] := false;
      owner[b] := NO_OWNER;
      if count > 0 {
        count := count - 1;
      }
      assert Model() == old(Model()).(taken := old(taken[..])[b := false], owner := old(owner[..])[b := NO_OWNER],
                                      count := count);
      if 0 <= e < ENTRIES && catalog[e].used {
        ghost var released := Model();
        if catalog[e].blocks > 0 {
          catalog[e] := catalog[e].(blocks := catalog[e].blocks - 1);
        }
        assert Model() == released.(catalog := released.catalog[e := catalog[e]]);
        if catalog[e].blocks == 0 {
          RemoveCatalogEntryByIndex(e);
        }
      }
      return true;
    }
  }
}
