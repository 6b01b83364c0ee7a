/** The drive's virtual block allocator: which block is taken, which catalog entry owns it, and which
    entry a channel writes to. Three linked tables, shown to act as one map from block to channel. */
module BlockTables {
  import opened Subsets

  const BLOCKS := 664
  const ENTRIES := 32
  const CHANNELS := 16
  const NO_OWNER := 0xFF
  const NO_ENTRY := -1

  datatype Entry = Entry(used: bool, channel: int, track: nat, sector: nat, blocks: int,
                         name: string, kind: string, mode: string)

  const UNUSED := Entry(false, 0xFF, 0, 0, 0, "", "PRG", "")

  /** What OPEN left behind for a channel. */
  datatype OpenSpec = OpenSpec(valid: bool, name: string, kind: string, mode: string)

  datatype Tables = Tables(taken: seq<bool>, owner: seq<int>, count: int,
                           catalog: seq<Entry>, channelEntry: seq<int>)

  function BlockIndex(track: nat, sector: nat): nat {
    (track * 21 + sector) % BLOCKS
  }

  function Reset(): Tables {
    Tables(seq(BLOCKS, _ => false), seq(BLOCKS, _ => NO_OWNER), 0,
           seq(ENTRIES, _ => UNUSED), seq(CHANNELS, _ => NO_ENTRY))
  }

  predicate Shaped(s: Tables) {
    |s.taken| == BLOCKS && |s.owner| == BLOCKS && |s.catalog| == ENTRIES && |s.channelEntry| == CHANNELS
  }

  // ---- the operations --------------------------------------------------------------------------

  /** The first unused entry at or after `from`. */
  function FirstUnused(catalog: seq<Entry>, from: nat): int
    requires from <= |catalog|
    decreases |catalog| - from
  {
    if from == |catalog| then NO_ENTRY
    else if !catalog[from].used then from
    else FirstUnused(catalog, from + 1)
  }

  predicate Named(open: OpenSpec) {
    open.valid && open.name != "" && open.name != "$"
  }

  function Hex(v: nat): string {
    ["0123456789ABCDEF"[v / 16 % 16], "0123456789ABCDEF"[v % 16]]
  }

  function EntryName(open: OpenSpec, track: nat, sector: nat): string {
    if Named(open) then open.name else "BLK-" + Hex(track) + Hex(sector)
  }

  /** The entry a channel already writes to, if it is a used one. */
  predicate HasEntry(s: Tables, ch: nat)
    requires Shaped(s) && ch < CHANNELS
  {
    0 <= s.channelEntry[ch] < ENTRIES && s.catalog[s.channelEntry[ch]].used
  }

  function Renamed(e: Entry, open: OpenSpec): Entry {
    if Named(open) then e.(name := open.name, kind := open.kind, mode := open.mode) else e
  }

  datatype Ensured = Ensured(tables: Tables, entry: int)

  function EnsureEntry(s: Tables, ch: nat, track: nat, sector: nat, open: OpenSpec): (r: Ensured)
    requires Shaped(s) && ch < CHANNELS
    ensures Shaped(r.tables)
  {
    if HasEntry(s, ch) then
      var e := s.channelEntry[ch];
      Ensured(s.(catalog := s.catalog[e := Renamed(s.catalog[e], open)]), e)
    else
      var e := FirstUnused(s.catalog, 0);
      if 0 <= e < ENTRIES then
        var created := Entry(true, ch, track, sector, 0, EntryName(open, track, sector), open.kind, open.mode);
        Ensured(s.(catalog := s.catalog[e := created], channelEntry := s.channelEntry[ch := e]), e)
      else Ensured(s, NO_ENTRY)
  }

  datatype Outcome = Outcome(tables: Tables, ok: bool)

  function Allocate(s: Tables, track: nat, sector: nat, channel: nat, open: OpenSpec): (r: Outcome)
    requires Shaped(s)
    ensures Shaped(r.tables)
  {
    var b := BlockIndex(track, sector);
    if s.taken[b] then Outcome(s, false)
    else
      var r := EnsureEntry(s, channel % CHANNELS, track, sector, open);
      if !(0 <= r.entry < |r.tables.catalog|) then Outcome(s, false)
      else
        var t, e := r.tables, r.entry;
        Outcome(t.(taken := t.taken[b := true], owner := t.owner[b := e], count := t.count + 1,
                   catalog := t.catalog[e := t.catalog[e].(blocks := t.catalog[e].blocks + 1)]),
                true)
  }

  function RemoveEntry(s: Tables, e: nat): Tables
    requires Shaped(s) && e < ENTRIES
  {
    var ch := s.catalog[e].channel;
    s.(catalog := s.catalog[e := UNUSED],
       channelEntry := if 0 <= ch < CHANNELS && s.channelEntry[ch] == e
                       then s.channelEntry[ch := NO_ENTRY] else s.channelEntry)
  }

  function ReleaseOwner(s: Tables, e: int): Tables
    requires Shaped(s)
  {
    if 0 <= e < ENTRIES && s.catalog[e].used then
      var left := if s.catalog[e].blocks > 0 then s.catalog[e].blocks - 1 else s.catalog[e].blocks;
      var t := s.(catalog := s.catalog[e := s.catalog[e].(blocks := left)]);
      if left == 0 then RemoveEntry(t, e) else t
    else s
  }

  function Free(s: Tables, track: nat, sector: nat): (r: Outcome)
    requires Shaped(s)
    ensures Shaped(r.tables)
  {
    var b := BlockIndex(track, sector);
    if !s.taken[b] then Outcome(s, false)
    else
      var t := s.(taken := s.taken[b := false], owner := s.owner[b := NO_OWNER],
                  count := if s.count > 0 then s.count - 1 else s.count);
      Outcome(ReleaseOwner(t, s.owner[b]), true)
  }

  function BlocksFree(s: Tables): int {
    if s.count >= BLOCKS then 0 else BLOCKS - s.count
  }

  // ---- the invariant -------------------------------------------------------------------------------

  /** How many blocks an entry owns. */
  function Owned(s: Tables, e: int): nat {
    multiset(s.owner)[e]
  }

  predicate OwnersOk(s: Tables)
    requires Shaped(s)
  {
    forall b :: 0 <= b < BLOCKS ==>
      (s.taken[b] <==> s.owner[b] != NO_OWNER) &&
      (s.owner[b] != NO_OWNER ==> 0 <= s.owner[b] < ENTRIES)
  }

  predicate EntryOk(s: Tables, e: int)
    requires Shaped(s) && 0 <= e < ENTRIES
  {
    var c := s.catalog[e];
    if c.used then 0 <= c.channel < CHANNELS && s.channelEntry[c.channel] == e && c.blocks == Owned(s, e) > 0
    else c == UNUSED && Owned(s, e) == 0
  }

  predicate EntriesOk(s: Tables)
    requires Shaped(s)
  {
    forall e :: 0 <= e < ENTRIES ==> EntryOk(s, e)
  }

  predicate ChannelsOk(s: Tables)
    requires Shaped(s)
  {
    forall ch :: 0 <= ch < CHANNELS && s.channelEntry[ch] != NO_ENTRY ==>
      0 <= s.channelEntry[ch] < ENTRIES &&
      s.catalog[s.channelEntry[ch]].used && s.catalog[s.channelEntry[ch]].channel == ch
  }

  predicate Ok(s: Tables) {
    Shaped(s) && OwnersOk(s) && EntriesOk(s) && ChannelsOk(s) && s.count == BLOCKS - Owned(s, NO_OWNER)
  }

  /** The whole allocator as a caller should think of it: taken block to writing channel. */
  function Abs(s: Tables): map<nat, int>
    requires Ok(s)
  {
    map b: nat | b < BLOCKS && s.taken[b] :: s.catalog[s.owner[b]].channel
  }

  // ---- pigeonhole ------------------------------------------------------------------------------------

  lemma {:induction false} SetOfSeqIsNoLarger(s: seq<int>)
    ensures |set x | x in s| <= |s|
  {
    if s == [] {
      assert (set x | x in s) == {};
    } else {
      SetOfSeqIsNoLarger(s[1..]);
      assert (set x | x in s) == {s[0]} + (set x | x in s[1..]) by {
        assert s == [s[0]] + s[1..];
      }
    }
  }

  function Below(n: nat): (r: set<int>)
    ensures |r| == n && forall x :: x in r <==> 0 <= x < n
  {
    if n == 0 then {} else Below(n - 1) + {n - 1}
  }

  /** Every used entry is some channel's, so the catalog, twice as large, never fills up. */
  lemma CatalogNeverFull(s: Tables)
    requires Ok(s)
    ensures exists e :: 0 <= e < ENTRIES && !s.catalog[e].used
  {
    if forall e :: 0 <= e < ENTRIES ==> s.catalog[e].used {
      var mapped := set x | x in s.channelEntry;
      forall e | e in Below(ENTRIES) ensures e in mapped {
        assert EntryOk(s, e);
        assert s.channelEntry[s.catalog[e].channel] in s.channelEntry;
      }
      SetOfSeqIsNoLarger(s.channelEntry);
      SubsetIsNoLarger(Below(ENTRIES), mapped);
    }
  }

  lemma {:induction false} FirstUnusedFinds(catalog: seq<Entry>, from: nat)
    requires from <= |catalog|
    ensures var e := FirstUnused(catalog, from);
            if e == NO_ENTRY then forall i :: from <= i < |catalog| ==> catalog[i].used
            else from <= e < |catalog| && !catalog[e].used && forall i :: from <= i < e ==> catalog[i].used
    decreases |catalog| - from
  {
    if from < |catalog| && catalog[from].used {
      FirstUnusedFinds(catalog, from + 1);
    }
  }

  // ---- what the operations keep -----------------------------------------------------------------------

  lemma OwnedAfterUpdate(owner: seq<int>, b: nat, v: int, x: int)
    requires b < |owner|
    ensures multiset(owner[b := v])[x]
         == multiset(owner)[x] - (if owner[b] == x then 1 else 0) + (if v == x then 1 else 0)
  {
    assert multiset(owner[b := v]) == multiset(owner) - multiset{owner[b]} + multiset{v};
    assert owner[b] in multiset(owner);
  }

  lemma ResetOk()
    ensures Ok(Reset()) && Abs(Reset()) == map[]
  {
    var owner := seq(BLOCKS, _ => NO_OWNER);
    AllTheSame(owner, NO_OWNER);
    assert Abs(Reset()).Keys == {};
  }

  /** The tables after reset. */
  function Empty(): (s: Tables)
    ensures s == Reset() && Ok(s)
  {
    ResetOk();
    Reset()
  }

  lemma {:induction false} AllTheSame(s: seq<int>, v: int)
    requires forall i :: 0 <= i < |s| ==> s[i] == v
    ensures multiset(s)[v] == |s| && forall x :: x != v ==> multiset(s)[x] == 0
  {
    if s != [] {
      AllTheSame(s[1..], v);
      assert s == [s[0]] + s[1..];
    }
  }

  /** The entry a channel will use: its own if it has one, else a free one that then becomes its own. */
  lemma EnsureGivesEntry(s: Tables, ch: nat, track: nat, sector: nat, open: OpenSpec)
    requires Ok(s) && ch < CHANNELS
    ensures var r := EnsureEntry(s, ch, track, sector, open);
            var t, e := r.tables, r.entry;
            && 0 <= e < ENTRIES && Shaped(t)
            && t.taken == s.taken && t.owner == s.owner && t.count == s.count
            && t.catalog[e].used && t.catalog[e].channel == ch && t.catalog[e].blocks == Owned(s, e)
            && t.catalog == s.catalog[e := t.catalog[e]] && t.channelEntry == s.channelEntry[ch := e]
            && (s.catalog[e].used ==> s.catalog[e].channel == ch)
            && (s.channelEntry[ch] == NO_ENTRY || s.channelEntry[ch] == e)
  {
    if HasEntry(s, ch) {
      assert EntryOk(s, s.channelEntry[ch]);
    } else {
      CatalogNeverFull(s);
      FirstUnusedFinds(s.catalog, 0);
      assert EntryOk(s, FirstUnused(s.catalog, 0));
    }
  }

  /** Taking a free block under an entry that is, or has just become, the channel's. */
  lemma ClaimKeepsOk(s: Tables, b: nat, e: nat, c: Entry, ch: nat, t: Tables)
    requires Ok(s) && b < BLOCKS && !s.taken[b] && e < ENTRIES && ch < CHANNELS
    requires c.used && c.channel == ch && c.blocks == Owned(s, e) + 1
    requires s.catalog[e].used ==> s.catalog[e].channel == ch
    requires s.channelEntry[ch] == NO_ENTRY || s.channelEntry[ch] == e
    requires t == Tables(s.taken[b := true], s.owner[b := e], s.count + 1,
                         s.catalog[e := c], s.channelEntry[ch := e])
    ensures Ok(t) && Abs(t) == Abs(s)[b := ch]
  {
    assert s.owner[b] == NO_OWNER;
    forall x { OwnedAfterUpdate(s.owner, b, e, x); }
    forall x | 0 <= x < ENTRIES ensures EntryOk(t, x) {
      assert EntryOk(s, x);
    }
    ClaimUpdatesAbs(s, b, e, c, ch, t);
  }

  lemma ClaimUpdatesAbs(s: Tables, b: nat, e: nat, c: Entry, ch: nat, t: Tables)
    requires Ok(s) && Ok(t) && b < BLOCKS && e < ENTRIES
    requires c.channel == ch && (s.catalog[e].used ==> s.catalog[e].channel == ch)
    requires t.taken == s.taken[b := true] && t.owner == s.owner[b := e] && t.catalog == s.catalog[e := c]
    ensures Abs(t) == Abs(s)[b := ch]
  {
    forall k | k in Abs(s) && k != b ensures k in Abs(t) && Abs(t)[k] == Abs(s)[k] {
      OwnerIsUsed(s, k);
    }
  }

  lemma OwnerIsUsed(s: Tables, b: nat)
    requires Ok(s) && b < BLOCKS && s.taken[b]
    ensures 0 <= s.owner[b] < ENTRIES && s.catalog[s.owner[b]].used && Owned(s, s.owner[b]) > 0
  {
    assert s.owner[b] in multiset(s.owner);
    assert EntryOk(s, s.owner[b]);
  }

  /** Allocation fails exactly when the block is taken - never because the catalog is full - and
      otherwise adds one block to the map, written by that channel. */
  lemma AllocateRefines(s: Tables, track: nat, sector: nat, channel: nat, open: OpenSpec)
    requires Ok(s)
    ensures var r, b := Allocate(s, track, sector, channel, open), BlockIndex(track, sector);
            && Ok(r.tables)
            && (r.ok <==> b !in Abs(s))
            && Abs(r.tables) == if b in Abs(s) then Abs(s) else Abs(s)[b := channel % CHANNELS]
  {
    var b, ch := BlockIndex(track, sector), channel % CHANNELS;
    if !s.taken[b] {
      EnsureGivesEntry(s, ch, track, sector, open);
      var r := EnsureEntry(s, ch, track, sector, open);
      var e := r.entry;
      var c := r.tables.catalog[e].(blocks := r.tables.catalog[e].blocks + 1);
      var t := Allocate(s, track, sector, channel, open).tables;
      assert t.catalog == s.catalog[e := c];
      ClaimKeepsOk(s, b, e, c, ch, t);
    }
  }

  /** Giving back a block of an entry that owns others, or its last one. */
  lemma ReleaseKeepsOk(s: Tables, b: nat, e: nat, c: Entry, t: Tables)
    requires Ok(s) && b < BLOCKS && s.taken[b]
    requires e == s.owner[b] && c == s.catalog[e] && c.used && 0 <= c.channel < CHANNELS
    requires Shaped(t)
    requires t.taken == s.taken[b := false] && t.owner == s.owner[b := NO_OWNER] && t.count == s.count - 1
    requires if c.blocks == 1
             then t.catalog == s.catalog[e := UNUSED] && t.channelEntry == s.channelEntry[c.channel := NO_ENTRY]
             else t.catalog == s.catalog[e := c.(blocks := c.blocks - 1)] && t.channelEntry == s.channelEntry
    ensures Ok(t) && Abs(t) == Abs(s) - {b}
  {
    assert EntryOk(s, e);
    forall x { OwnedAfterUpdate(s.owner, b, NO_OWNER, x); }
    forall x | 0 <= x < ENTRIES ensures EntryOk(t, x) {
      assert EntryOk(s, x);
    }
    ReleaseUpdatesAbs(s, b, t);
  }

  lemma ReleaseUpdatesAbs(s: Tables, b: nat, t: Tables)
    requires Ok(s) && Ok(t) && b < BLOCKS && s.taken[b]
    requires t.taken == s.taken[b := false] && t.owner == s.owner[b := NO_OWNER]
    requires forall x :: 0 <= x < ENTRIES && t.catalog[x].used ==> t.catalog[x].channel == s.catalog[x].channel
    ensures Abs(t) == Abs(s) - {b}
  {
    forall k | k in Abs(t) ensures k in Abs(s) && k != b && Abs(t)[k] == Abs(s)[k] {
      OwnerIsUsed(t, k);
    }
  }

  /** Freeing fails exactly when the block is not taken, and otherwise removes just that block. */
  lemma FreeRefines(s: Tables, track: nat, sector: nat)
    requires Ok(s)
    ensures var r, b := Free(s, track, sector), BlockIndex(track, sector);
            && Ok(r.tables)
            && (r.ok <==> b in Abs(s))
            && Abs(r.tables) == Abs(s) - {b}
  {
    var b := BlockIndex(track, sector);
    if s.taken[b] {
      OwnerIsUsed(s, b);
      assert EntryOk(s, s.owner[b]);
      SomethingOwned(s, b);
      ReleaseKeepsOk(s, b, s.owner[b], s.catalog[s.owner[b]], Free(s, track, sector).tables);
    } else {
      assert Abs(s) - {b} == Abs(s);
    }
  }

  lemma SomethingOwned(s: Tables, b: nat)
    requires Ok(s) && b < BLOCKS && s.taken[b]
    ensures s.count > 0
  {
    TwoCounts(s.owner, s.owner[b], NO_OWNER);
    assert s.owner[b] in multiset(s.owner);
  }

  lemma {:induction false} TwoCounts(s: seq<int>, x: int, y: int)
    requires x != y
    ensures multiset(s)[x] + multiset(s)[y] <= |s|
  {
    if s != [] {
      TwoCounts(s[1..], x, y);
      assert s == [s[0]] + s[1..];
    }
  }

  // ---- whole runs -----------------------------------------------------------------------------------

  datatype Op = Take(track: nat, sector: nat, channel: nat, open: OpenSpec) | Give(track: nat, sector: nat)

  function Apply(s: Tables, op: Op): Outcome
    requires Shaped(s)
  {
    match op
    case Take(track, sector, channel, open) => Allocate(s, track, sector, channel, open)
    case Give(track, sector) => Free(s, track, sector)
  }

  /** The simple machine: a map from taken blocks to channels. */
  function ApplyToMap(m: map<nat, int>, op: Op): map<nat, int> {
    match op
    case Take(track, sector, channel, _) =>
      var b := BlockIndex(track, sector);
      if b in m then m else m[b := channel % CHANNELS]
    case Give(track, sector) => m - {BlockIndex(track, sector)}
  }

  predicate SucceedsOnMap(m: map<nat, int>, op: Op) {
    match op
    case Take(track, sector, _, _) => BlockIndex(track, sector) !in m
    case Give(track, sector) => BlockIndex(track, sector) in m
  }

  function RunOnMap(m: map<nat, int>, ops: seq<Op>): map<nat, int>
    decreases |ops|
  {
    if ops == [] then m else RunOnMap(ApplyToMap(m, ops[0]), ops[1..])
  }

  lemma ApplyRefines(s: Tables, op: Op)
    requires Ok(s)
    ensures var r := Apply(s, op);
            Ok(r.tables) && Abs(r.tables) == ApplyToMap(Abs(s), op) && (r.ok <==> SucceedsOnMap(Abs(s), op))
  {
    match op
    case Take(track, sector, channel, open) => AllocateRefines(s, track, sector, channel, open);
    case Give(track, sector) => FreeRefines(s, track, sector);
  }

  ghost function Run(s: Tables, ops: seq<Op>): (t: Tables)
    requires Ok(s)
    ensures Ok(t) && Abs(t) == RunOnMap(Abs(s), ops)
    decreases |ops|
  {
    if ops == [] then s else ApplyRefines(s, ops[0]); Run(Apply(s, ops[0]).tables, ops[1..])
  }

  // ---- conservation ------------------------------------------------------------------------------------

  function OwnedBlocks(owner: seq<int>, e: int): (r: set<nat>)
    ensures forall b: nat :: b in r <==> b < |owner| && owner[b] == e
    ensures |r| == multiset(owner)[e]
  {
    if owner == [] then {}
    else
      var n := |owner| - 1;
      var front := owner[..n];
      assert owner == front + [owner[n]];
      assert multiset(owner) == multiset(front) + multiset{owner[n]};
      if owner[n] == e then OwnedBlocks(front, e) + {n} else OwnedBlocks(front, e)
  }

  /** A catalog entry's block count is the number of blocks its channel holds in the map. */
  lemma EntryCountsItsChannelsBlocks(s: Tables, e: nat)
    requires Ok(s) && e < ENTRIES && s.catalog[e].used
    ensures s.catalog[e].blocks == |set b | b in Abs(s) && Abs(s)[b] == s.catalog[e].channel|
  {
    assert EntryOk(s, e);
    var mine := set b | b in Abs(s) && Abs(s)[b] == s.catalog[e].channel;
    var owned := OwnedBlocks(s.owner, e);
    forall b: nat ensures b in mine <==> b in owned {
      if b in mine {
        OwnerIsUsed(s, b);
        assert EntryOk(s, s.owner[b]);
      }
    }
    assert mine == owned;
  }

  lemma TakenAreOwned(s: Tables)
    requires Ok(s)
    ensures forall b: nat :: b in Abs(s) <==> b < BLOCKS && s.owner[b] != NO_OWNER
    ensures s.count == BLOCKS - Owned(s, NO_OWNER)
  {
    hide EntriesOk, ChannelsOk;
  }

  lemma SizeOfDifference(all: set<nat>, free: set<nat>)
    requires free <= all
    ensures |all - free| == |all| - |free|
  {
  }

  /** The free-block figure is what the map leaves over. */
  lemma FreeCountIsComplement(s: Tables)
    requires Ok(s)
    ensures s.count == |Abs(s)| && BlocksFree(s) == BLOCKS - |Abs(s)|
  {
    hide OwnedBlocks, Naturals, Abs;
    TakenAreOwned(s);
    ShapeIsKnown(s);
    hide Ok;
    KeysAreTheRest(Abs(s).Keys, OwnedBlocks(s.owner, NO_OWNER), Naturals(BLOCKS));
    SizeOfKeys(Abs(s));
  }

  lemma SizeOfKeys(m: map<nat, int>)
    ensures |m.Keys| == |m|
  {
  }

  lemma KeysAreTheRest(keys: set<nat>, free: set<nat>, all: set<nat>)
    requires free <= all && forall b: nat :: b in keys <==> b in all && b !in free
    ensures |keys| == |all| - |free|
  {
    assert keys == all - free;
    SizeOfDifference(all, free);
  }

  lemma ShapeIsKnown(s: Tables)
    requires Ok(s)
    ensures |s.owner| == BLOCKS
  {
  }

  function Naturals(n: nat): (r: set<nat>)
    ensures |r| == n && forall x: nat :: x in r <==> x < n
  {
    if n == 0 then {} else Naturals(n - 1) + {n - 1}
  }

  function SumBlocks(catalog: seq<Entry>): int {
    if catalog == [] then 0 else SumBlocks(catalog[..|catalog| - 1]) + catalog[|catalog| - 1].blocks
  }

  function SumOwned(owner: seq<int>, n: nat): nat {
    if n == 0 then 0 else SumOwned(owner, n - 1) + multiset(owner)[n - 1]
  }

  lemma {:induction false} SumOwnedOfAppend(owner: seq<int>, v: int, n: nat)
    ensures SumOwned(owner + [v], n) == SumOwned(owner, n) + (if 0 <= v < n then 1 else 0)
  {
    if n > 0 {
      SumOwnedOfAppend(owner, v, n - 1);
    }
  }

  lemma {:induction false} SumOwnedCountsOwners(owner: seq<int>, n: nat)
    requires forall b :: 0 <= b < |owner| ==> owner[b] == NO_OWNER || 0 <= owner[b] < n
    requires n <= NO_OWNER
    ensures SumOwned(owner, n) + multiset(owner)[NO_OWNER] == |owner|
  {
    if owner == [] {
      SumOwnedOfNothing(n);
    } else {
      var k := |owner| - 1;
      SumOwnedCountsOwners(owner[..k], n);
      assert owner == owner[..k] + [owner[k]];
      SumOwnedOfAppend(owner[..k], owner[k], n);
    }
  }

  lemma {:induction false} SumOwnedOfNothing(n: nat)
    ensures SumOwned([], n) == 0
  {
    if n > 0 {
      SumOwnedOfNothing(n - 1);
    }
  }

  lemma {:induction false} SumBlocksIsSumOwned(s: Tables, n: nat)
    requires Ok(s) && n <= ENTRIES
    ensures SumBlocks(s.catalog[..n]) == SumOwned(s.owner, n)
  {
    if n > 0 {
      SumBlocksIsSumOwned(s, n - 1);
      assert s.catalog[..n][..n - 1] == s.catalog[..n - 1];
      assert EntryOk(s, n - 1);
    }
  }

  /** Conservation: the catalog's block counts add up to the allocated total. */
  lemma CatalogSumsToCount(s: Tables)
    requires Ok(s)
    ensures SumBlocks(s.catalog) == s.count
  {
    SumBlocksIsSumOwned(s, ENTRIES);
    assert s.catalog[..ENTRIES] == s.catalog;
    SumOwnedCountsOwners(s.owner, ENTRIES);
  }

  /** What an allocation for a channel without an entry leaves behind. */
  lemma FirstClaim(s: Tables, track: nat, sector: nat, channel: nat, open: OpenSpec)
    requires Ok(s) && !s.taken[BlockIndex(track, sector)] && s.channelEntry[channel % CHANNELS] == NO_ENTRY
    ensures var b, ch := BlockIndex(track, sector), channel % CHANNELS;
            var t, e := Allocate(s, track, sector, channel, open).tables, FirstUnused(s.catalog, 0);
            && 0 <= e < ENTRIES && s.catalog[e] == UNUSED && s.owner[b] == NO_OWNER && s.count >= 0
            && t.catalog[e].used && t.catalog[e].blocks == 1 && t.catalog[e].channel == ch
            && t == Tables(s.taken[b := true], s.owner[b := e], s.count + 1,
                           s.catalog[e := t.catalog[e]], s.channelEntry[ch := e])
  {
    var b, ch := BlockIndex(track, sector), channel % CHANNELS;
    EnsureGivesEntry(s, ch, track, sector, open);
    CountIsNatural(s);
    var e := FirstUnused(s.catalog, 0);
    assert EnsureEntry(s, ch, track, sector, open).entry == e;
    assert EntryOk(s, e);
    assert s.owner[b] == NO_OWNER;
    hide Ok, EnsureEntry, FirstUnused;
  }

  /** Freeing a block just allocated for a channel that held none restores every table exactly. */
  lemma FreeUndoesAllocate(s: Tables, track: nat, sector: nat, channel: nat, open: OpenSpec)
    requires Ok(s) && !s.taken[BlockIndex(track, sector)] && s.channelEntry[channel % CHANNELS] == NO_ENTRY
    ensures Free(Allocate(s, track, sector, channel, open).tables, track, sector).tables == s
  {
    var b, ch := BlockIndex(track, sector), channel % CHANNELS;
    FirstClaim(s, track, sector, channel, open);
    var t, e := Allocate(s, track, sector, channel, open).tables, FirstUnused(s.catalog, 0);
    assert |s.taken| == BLOCKS && (s.taken[b] <==> false);
    hide Ok, Allocate, FirstUnused, BlockIndex;
    var u := Free(t, track, sector).tables;
    assert t.owner[b] == e && t.taken[b] && t.count > 0;
    assert u.catalog == t.catalog[e := t.catalog[e].(blocks := 0)][e := UNUSED] == s.catalog;
    assert u.channelEntry == s.channelEntry[ch := e][ch := NO_ENTRY] == s.channelEntry;
    assert u.owner == s.owner[b := e][b := NO_OWNER] == s.owner;
    assert u.taken == s.taken[b := true][b := false] == s.taken;
  }

  lemma CountIsNatural(s: Tables)
    requires Ok(s)
    ensures 0 <= s.count <= BLOCKS
  {
    FreeCountIsComplement(s);
  }
}
