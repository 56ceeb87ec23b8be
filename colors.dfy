/**
 * The colour allocator of the graph builder (getHexColor): every lookup column
 * logical name gets a colour from a fixed palette of fourteen, in order of first
 * request and cycling, and keeps it for the rest of the build.
 */
module Colors {

  /** The number of palette entries. */
  const PaletteSize := 14

  /** The palette entries, in order. "#d35400" and "#D35400" are distinct strings. */
  function PaletteColor(i: nat): string
    requires i < PaletteSize
  {
    if i == 0 then "#d35400" else if i == 1 then "#008000" else if i == 2 then "#3455DB"
    else if i == 3 then "#9400d3" else if i == 4 then "#939393" else if i == 5 then "#b8806b"
    else if i == 6 then "#D35400" else if i == 7 then "#008b8b" else if i == 8 then "#B50000"
    else if i == 9 then "#1460aa" else if i == 10 then "#8b008b" else if i == 11 then "#696969"
    else if i == 12 then "#634806" else "#870c25"
  }

  /** The colour given to the name that arrives when `k` names are already stored: the palette cycles. */
  function Slot(k: nat): string
  {
    PaletteColor(k % PaletteSize)
  }

  /** One of the fourteen palette strings. */
  ghost predicate InPalette(c: string)
  {
    exists i :: 0 <= i < PaletteSize && PaletteColor(i) == c
  }

  /** Every palette entry is a seven-character "#rrggbb" string, so never empty. */
  lemma PaletteColourIsNotEmpty(c: string)
    requires InPalette(c)
    ensures |c| == 7
  {
    var i :| 0 <= i < PaletteSize && PaletteColor(i) == c;
  }

  /** Every colour stored in the allocator's dictionary comes from the palette. */
  ghost predicate ValidColors(colors: map<string, string>)
  {
    forall n :: n in colors ==> InPalette(colors[n])
  }

  /**
   * The allocation rule of getHexColor for a palette given by its slots: a stored
   * name gets its stored colour; a new name gets the slot for the current number
   * of stored names and is stored with it. Returns the colour and the dictionary afterwards.
   */
  function Allocate<C>(slot: nat -> C, colors: map<string, C>, name: string): (r: (C, map<string, C>))
    ensures r.1.Keys == colors.Keys + {name}
    ensures forall n :: n in colors ==> r.1[n] == colors[n]
    ensures r.1[name] == r.0
    ensures name in colors ==> r.0 == colors[name]
    ensures name !in colors ==> r.0 == slot(|colors|) && |r.1| == |colors| + 1
  {
    if name in colors then (colors[name], colors)
    else
      var c := slot(|colors|);
      (c, colors[name := c])
  }

  /** One call of getHexColor on the dictionary `colors`. */
  function HexColor(colors: map<string, string>, name: string): (r: (string, map<string, string>))
    ensures ValidColors(colors) ==> ValidColors(r.1) && InPalette(r.0)
  {
    var r := Allocate(Slot, colors, name);
    if name !in colors then
      var i := |colors| % PaletteSize;
      assert r.0 == PaletteColor(i);
      r
    else r
  }

  /**
   * getHexColor in its two cases: a stored name gets its stored colour and the
   * dictionary is unchanged; a new name gets palette entry (number stored) mod 14
   * and is added with it, every earlier entry kept.
   */
  lemma HexColorCases(colors: map<string, string>, name: string)
    ensures name in colors ==> HexColor(colors, name) == (colors[name], colors)
    ensures name !in colors ==>
      && HexColor(colors, name).0 == PaletteColor(|colors| % PaletteSize)
      && HexColor(colors, name).1 == colors[name := PaletteColor(|colors| % PaletteSize)]
  {
  }

  /** A second request for a name returns the stored colour and leaves the dictionary as it is. */
  lemma RepeatedRequestIsStable(colors: map<string, string>, name: string)
    ensures HexColor(HexColor(colors, name).1, name) == HexColor(colors, name)
  {
  }

  /** Colours handed out for the names `names`, requested one after another, and the dictionary afterwards. */
  function AllocateAll<C>(slot: nat -> C, colors: map<string, C>, names: seq<string>): (r: (seq<C>, map<string, C>))
    ensures |r.0| == |names|
    decreases |names|
  {
    if names == [] then ([], colors)
    else
      var first := Allocate(slot, colors, names[0]);
      var rest := AllocateAll(slot, first.1, names[1..]);
      ([first.0] + rest.0, rest.1)
  }

  /** No name occurs twice in `names`. */
  predicate Distinct(names: seq<string>)
  {
    names == [] || (names[0] !in names[1..] && Distinct(names[1..]))
  }

  /** The `n` slots that follow the first `start` ones, in order. */
  function SlotRun<C>(slot: nat -> C, start: nat, n: nat): (r: seq<C>)
    ensures |r| == n
    decreases n
  {
    if n == 0 then [] else [slot(start)] + SlotRun(slot, start + 1, n - 1)
  }

  /** Entry `i` of a run of slots is slot `start + i`. */
  lemma {:induction false} SlotRunAt<C>(slot: nat -> C, start: nat, n: nat, i: nat)
    requires i < n
    decreases n
    ensures SlotRun(slot, start, n)[i] == slot(start + i)
  {
    if i > 0 {
      SlotRunAt(slot, start + 1, n - 1, i - 1);
    }
  }

  /**
   * Requesting distinct names, none of them stored yet, hands out the slots in
   * order, starting after the names already stored.
   */
  lemma {:induction false} DistinctNamesTakeSuccessiveSlots<C>(slot: nat -> C, colors: map<string, C>, names: seq<string>)
    requires Distinct(names)
    requires forall n :: n in names ==> n !in colors
    ensures AllocateAll(slot, colors, names).0 == SlotRun(slot, |colors|, |names|)
    decreases |names|
  {
    if names != [] {
      var first := Allocate(slot, colors, names[0]);
      assert names[0] in names;
      forall n | n in names[1..]
        ensures n !in first.1
      {
        assert n in names;
      }
      DistinctNamesTakeSuccessiveSlots(slot, first.1, names[1..]);
      assert |first.1| == |colors| + 1;
    }
  }

  /** A run of slots from the start, taken from slots that differ, has no repeated colour. */
  lemma RunOfDistinctSlots<C>(slot: nat -> C, n: nat)
    requires forall i, j :: 0 <= i < j < n ==> slot(i) != slot(j)
    ensures forall i, j :: 0 <= i < j < n ==> SlotRun(slot, 0, n)[i] != SlotRun(slot, 0, n)[j]
  {
    forall i, j | 0 <= i < j < n
      ensures SlotRun(slot, 0, n)[i] != SlotRun(slot, 0, n)[j]
    {
      SlotRunAt(slot, 0, n, i);
      SlotRunAt(slot, 0, n, j);
    }
  }

  /** The first fourteen slots are pairwise distinct strings. */
  lemma SlotsDiffer(i: nat, j: nat)
    requires i < j < PaletteSize
    ensures Slot(i) != Slot(j)
  {
    assert i % PaletteSize == i && j % PaletteSize == j;
  }

  /** Up to fourteen distinct names requested on a fresh dictionary get pairwise distinct colours. */
  lemma FreshNamesGetDistinctColors(names: seq<string>)
    requires |names| <= PaletteSize
    requires Distinct(names)
    ensures var cs := AllocateAll(Slot, map[], names).0;
      forall i, j :: 0 <= i < j < |names| ==> cs[i] != cs[j]
  {
    forall i, j | 0 <= i < j < |names|
      ensures Slot(i) != Slot(j)
    {
      SlotsDiffer(i, j);
    }
    RunOfDistinctSlots(Slot, |names|);
    DistinctNamesTakeSuccessiveSlots(Slot, map[], names);
  }

  /** A run of slots from the start repeats its first entry wherever the slots repeat slot zero. */
  lemma RunRepeats<C>(slot: nat -> C, n: nat, p: nat)
    requires 0 < p < n
    requires slot(p) == slot(0)
    ensures SlotRun(slot, 0, n)[p] == SlotRun(slot, 0, n)[0]
  {
    SlotRunAt(slot, 0, n, 0);
    SlotRunAt(slot, 0, n, p);
  }

  /** When slot `p` repeats slot zero, the name requested `p`-th on a fresh dictionary gets the first name's colour. */
  lemma RepeatedSlotRepeatsColour<C>(slot: nat -> C, names: seq<string>, p: nat)
    requires Distinct(names)
    requires 0 < p < |names|
    requires slot(p) == slot(0)
    ensures AllocateAll(slot, map[], names).0[p] == AllocateAll(slot, map[], names).0[0]
  {
    DistinctNamesTakeSuccessiveSlots(slot, map[], names);
    RunRepeats(slot, |names|, p);
  }

  /** Slot fourteen is slot zero again: the palette cycles. */
  lemma PaletteCycles()
    ensures Slot(PaletteSize) == Slot(0)
  {
  }

  /** The fifteenth distinct name requested on a fresh dictionary gets the first name's colour. */
  lemma FifteenthNameWrapsAround(names: seq<string>)
    requires |names| > PaletteSize
    requires Distinct(names)
    ensures AllocateAll(Slot, map[], names).0[PaletteSize] == AllocateAll(Slot, map[], names).0[0]
  {
    PaletteCycles();
    RepeatedSlotRepeatsColour(Slot, names, PaletteSize);
  }
}
