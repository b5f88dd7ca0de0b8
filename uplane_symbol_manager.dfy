/**
 * Placement of decoded O-RAN fronthaul uplink U-plane messages. A message
 * with the PRACH filter index fills the PRACH buffer of the slot's PRACH
 * occasion; one with the standard channel filter is copied into the uplink
 * resource grid of its slot, PRB-clipped to the DU's grid width, and each
 * symbol is announced to the notifier when its PRB count is complete.
 *
 * The packet decoder, the two context repositories and the notifier are
 * collaborators: a decoding result is an input, a repository is a map from
 * slot to the context it returns (a slot without an entry is an empty
 * context), and the calls made to the notifier and the error log are
 * recorded in fields of the manager. IQ samples have an opaque type T.
 * The repositories return contexts by value: the updated counters and flags
 * are those of the returned copy, which each handler gives back as its
 * result, while the PRACH buffer and the grid are shared arrays written in
 * place.
 */
module UplaneUplinkSymbolManager {
  import opened Wrappers

  /** Subcarriers per resource block (section 4.4.4.1 of 3GPP TS 38.211). */
  const NofSubcarriersPerRb: nat := 12
  /** L_RA of the long PRACH preambles (section 6.3.3.1 of 3GPP TS 38.211). */
  const LongSequenceLength: nat := 839
  /** L_RA of the short PRACH preambles (section 6.3.3.1 of 3GPP TS 38.211). */
  const ShortSequenceLength: nat := 139

  /** The filter index of a U-plane message. */
  datatype FilterIndex = StandardChannelFilter | UlPrachPreamble1p25khz | OtherFilter(code: nat)

  /** A slot: numerology, system frame number, subframe and slot index within the subframe. */
  datatype SlotPoint = SlotPoint(numerology: nat, sfn: nat, subframe: nat, slotIndex: nat)

  /** One decoded section: its first PRB, its PRB count and its IQ samples. */
  datatype SectionParams<T> = SectionParams(startPrb: nat, nofPrbs: nat, iqSamples: seq<T>)

  datatype MessageParams = MessageParams(filterIndex: FilterIndex, slot: SlotPoint, symbolId: nat)

  datatype DecoderResults<T> = DecoderResults(params: MessageParams, sections: seq<SectionParams<T>>)

  /**
   * A PRACH occasion's context. `buffer[s, k]` is sample k of symbol s of the
   * PRACH buffer for the context's single port and single frequency- and
   * time-domain occasion; `kBar` is the frequency offset k-bar of Table
   * 6.3.3.2-1 of 3GPP TS 38.211 for the occasion's preamble and PUSCH
   * subcarrier spacings.
   */
  datatype PrachContext<T> = PrachContext(
    slot: SlotPoint,
    isLongPreamble: bool,
    kBar: nat,
    buffer: array2<T>,
    nofReWritten: nat,
    isNotified: bool)

  /**
   * An uplink slot's context: the resource grid (`grid[symbol, subcarrier]`
   * of port 0), the per-symbol count of PRBs written and the set of
   * symbols already announced.
   */
  datatype UlSlotContext<T> = UlSlotContext(
    slot: SlotPoint,
    grid: array2<T>,
    prbWritten: seq<nat>,
    notifiedSymbols: set<nat>)

  /** What a frame led to: nothing, the PRACH path or the grid path, with the updated context copy. */
  datatype FrameOutcome<T> = Ignored | PrachHandled(prach: Option<PrachContext<T>>) | GridHandled(grid: Option<UlSlotContext<T>>)

  /** The slot whose PRACH context a message of `slot` fills: the same subframe, slot index 0. */
  function PrachLookupSlot(slot: SlotPoint): (r: SlotPoint)
    ensures r.numerology == slot.numerology && r.sfn == slot.sfn && r.subframe == slot.subframe
    ensures r.slotIndex == 0
  {
    SlotPoint(slot.numerology, slot.sfn, slot.subframe, 0)
  }

  /** L_RA for a preamble format. */
  function PrachLength(isLongPreamble: bool): (r: nat)
    ensures r == LongSequenceLength || r == ShortSequenceLength
    ensures isLongPreamble <==> r == LongSequenceLength
  {
    if isLongPreamble then LongSequenceLength else ShortSequenceLength
  }

  /** Whether a section holds all the PRACH samples (no segmentation): k-bar + L_RA fits in its PRBs. */
  predicate PrachFits(nofPrbs: nat, kBar: nat, prachLength: nat)
  {
    !(nofPrbs * NofSubcarriersPerRb < kBar + prachLength)
  }

  /**
   * The number of PRBs of a section copied into a grid `duUlNofPrbs` wide:
   * the whole section when it ends inside the grid, otherwise up to the
   * grid's last PRB.
   */
  function NofPrbsToWrite(startPrb: nat, nofPrbs: nat, duUlNofPrbs: nat): (r: nat)
    requires startPrb < duUlNofPrbs
    ensures r <= nofPrbs && startPrb + r <= duUlNofPrbs
    ensures r == nofPrbs || startPrb + r == duUlNofPrbs
  {
    var n := duUlNofPrbs - startPrb;
    if startPrb + nofPrbs < duUlNofPrbs then nofPrbs else n
  }

  /**
   * The samples the grid path reads from a section are there: a section
   * starting past the grid is not read at all; any other is read from
   * sample startPrb * 12 up to the end of its clipped PRBs, which is the
   * end of the section or of the grid, whichever comes first.
   */
  predicate SectionReadable<T>(sect: SectionParams<T>, duUlNofPrbs: nat)
  {
    sect.startPrb < duUlNofPrbs ==>
      (if sect.startPrb + sect.nofPrbs < duUlNofPrbs then sect.startPrb + sect.nofPrbs else duUlNofPrbs)
        * NofSubcarriersPerRb <= |sect.iqSamples|
  }

  /** Every section's read samples are there. */
  predicate AllReadable<T>(sections: seq<SectionParams<T>>, duUlNofPrbs: nat)
  {
    forall i :: 0 <= i < |sections| ==> SectionReadable(sections[i], duUlNofPrbs)
  }

  /** The samples of a section that go into the grid. */
  function SectionData<T>(sect: SectionParams<T>, duUlNofPrbs: nat): (data: seq<T>)
    requires sect.startPrb < duUlNofPrbs && SectionReadable(sect, duUlNofPrbs)
    ensures |data| <= duUlNofPrbs * NofSubcarriersPerRb
  {
    var n := NofPrbsToWrite(sect.startPrb, sect.nofPrbs, duUlNofPrbs);
    sect.iqSamples[sect.startPrb * NofSubcarriersPerRb .. (sect.startPrb + n) * NofSubcarriersPerRb]
  }

  /** A grid row after `data` is put at its first subcarrier. */
  function PutRow<T>(row: seq<T>, data: seq<T>): (r: seq<T>)
    requires |data| <= |row|
    ensures |r| == |row|
  {
    data + row[|data|..]
  }

  /** A grid row after the sections are copied into it one after the other; sections past the grid are skipped. */
  function GridRowAfter<T>(row: seq<T>, sections: seq<SectionParams<T>>, duUlNofPrbs: nat): (r: seq<T>)
    requires duUlNofPrbs * NofSubcarriersPerRb <= |row|
    requires AllReadable(sections, duUlNofPrbs)
    ensures |r| == |row|
  {
    if sections == [] then row
    else
      var prev := GridRowAfter(row, sections[..|sections| - 1], duUlNofPrbs);
      var last := sections[|sections| - 1];
      if last.startPrb >= duUlNofPrbs then prev else PutRow(prev, SectionData(last, duUlNofPrbs))
  }

  /** The number of sections that start inside the grid. */
  function CountWritten<T>(sections: seq<SectionParams<T>>, duUlNofPrbs: nat): (r: nat)
    ensures r <= |sections|
  {
    if sections == [] then 0
    else CountWritten(sections[..|sections| - 1], duUlNofPrbs) + (if sections[|sections| - 1].startPrb < duUlNofPrbs then 1 else 0)
  }

  /** What the sections add to a symbol's PRB counter: the full grid width for each section inside the grid. */
  function PrbsAdded<T>(sections: seq<SectionParams<T>>, duUlNofPrbs: nat): nat
  {
    if sections == [] then 0
    else PrbsAdded(sections[..|sections| - 1], duUlNofPrbs) + (if sections[|sections| - 1].startPrb < duUlNofPrbs then duUlNofPrbs else 0)
  }

  /** The counter grows by the grid width times the number of sections that start inside the grid. */
  lemma {:induction false} PrbsAddedCountsSections<T>(sections: seq<SectionParams<T>>, duUlNofPrbs: nat)
    ensures PrbsAdded(sections, duUlNofPrbs) == duUlNofPrbs * CountWritten(sections, duUlNofPrbs)
  {
    if sections != [] {
      var init := sections[..|sections| - 1];
      PrbsAddedCountsSections(init, duUlNofPrbs);
      var c := CountWritten(init, duUlNofPrbs);
      assert duUlNofPrbs * (c + 1) == duUlNofPrbs * c + duUlNofPrbs;
    }
  }

  /** The PRB counter of `symbol` after the sections. */
  function PrbCountAfter<T>(ctx: UlSlotContext<T>, symbol: nat, sections: seq<SectionParams<T>>, duUlNofPrbs: nat): nat
    requires symbol < |ctx.prbWritten|
  {
    ctx.prbWritten[symbol] + PrbsAdded(sections, duUlNofPrbs)
  }

  /** Whether handling the sections announces `symbol`: its count equals the grid width and it was not announced. */
  predicate GridNotifies<T>(ctx: UlSlotContext<T>, symbol: nat, sections: seq<SectionParams<T>>, duUlNofPrbs: nat)
    requires symbol < |ctx.prbWritten|
  {
    PrbCountAfter(ctx, symbol, sections, duUlNofPrbs) == duUlNofPrbs && symbol !in ctx.notifiedSymbols
  }

  /** The context copy after the grid path: the new counter and, when announced, the symbol's bit set. */
  function ContextAfterGrid<T>(ctx: UlSlotContext<T>, symbol: nat, sections: seq<SectionParams<T>>, duUlNofPrbs: nat): (r: UlSlotContext<T>)
    requires symbol < |ctx.prbWritten|
    ensures r.slot == ctx.slot && r.grid == ctx.grid && |r.prbWritten| == |ctx.prbWritten|
    ensures ctx.notifiedSymbols <= r.notifiedSymbols
  {
    ctx.(prbWritten := ctx.prbWritten[symbol := PrbCountAfter(ctx, symbol, sections, duUlNofPrbs)],
         notifiedSymbols := if GridNotifies(ctx, symbol, sections, duUlNofPrbs) then ctx.notifiedSymbols + {symbol}
                            else ctx.notifiedSymbols)
  }

  /** A grid row as a sequence. */
  ghost function Row<T>(g: array2<T>, r: nat): (row: seq<T>)
    requires r < g.Length0
    reads g
    ensures |row| == g.Length1
  {
    seq(g.Length1, c requires 0 <= c < g.Length1 reads g => g[r, c])
  }

  /**
   * The grid path can run: when the slot has a context, the symbol exists
   * in it and the samples each section is read at are there. A frame for a
   * slot without a context reads nothing.
   */
  predicate GridReady<T>(results: DecoderResults<T>, ulRepo: map<SlotPoint, UlSlotContext<T>>, duUlNofPrbs: nat)
  {
    results.params.slot in ulRepo ==>
      var ctx := ulRepo[results.params.slot];
      && AllReadable(results.sections, duUlNofPrbs)
      && results.params.symbolId < |ctx.prbWritten|
      && results.params.symbolId < ctx.grid.Length0
      && duUlNofPrbs * NofSubcarriersPerRb <= ctx.grid.Length1
  }

  /**
   * The PRACH path can run: the context (if any) is for a long preamble
   * (short formats are rejected by an assertion), there is a section, the
   * buffer has the message's symbol and room for L_RA samples, and, when
   * the section passes the segmentation check, its samples reach k-bar +
   * L_RA (counted from the section's first sample, whatever its start PRB).
   */
  predicate PrachReady<T>(results: DecoderResults<T>, prachRepo: map<SlotPoint, PrachContext<T>>)
  {
    PrachLookupSlot(results.params.slot) in prachRepo ==>
      var ctx := prachRepo[PrachLookupSlot(results.params.slot)];
      && ctx.isLongPreamble
      && results.sections != []
      && (PrachFits(results.sections[0].nofPrbs, ctx.kBar, LongSequenceLength) ==>
            ctx.kBar + LongSequenceLength <= |results.sections[0].iqSamples|)
      && results.params.symbolId < ctx.buffer.Length0
      && LongSequenceLength <= ctx.buffer.Length1
  }

  /** The PRACH buffer of the context the PRACH path looks up, if any. */
  function PrachFootprint<T>(results: DecoderResults<T>, prachRepo: map<SlotPoint, PrachContext<T>>): set<object>
  {
    if PrachLookupSlot(results.params.slot) in prachRepo then {prachRepo[PrachLookupSlot(results.params.slot)].buffer} else {}
  }

  /** The grid of the context the grid path looks up, if any. */
  function GridFootprint<T>(results: DecoderResults<T>, ulRepo: map<SlotPoint, UlSlotContext<T>>): set<object>
  {
    if results.params.slot in ulRepo then {ulRepo[results.params.slot].grid} else {}
  }

  /** The only array a frame may write: the looked-up PRACH buffer or grid, if any. */
  function FrameFootprint<T>(decoded: Option<DecoderResults<T>>, prachRepo: map<SlotPoint, PrachContext<T>>,
                             ulRepo: map<SlotPoint, UlSlotContext<T>>): set<object>
  {
    if decoded.None? then {}
    else
      var params := decoded.value.params;
      match params.filterIndex
      case UlPrachPreamble1p25khz => PrachFootprint(decoded.value, prachRepo)
      case StandardChannelFilter => GridFootprint(decoded.value, ulRepo)
      case OtherFilter(_) => {}
  }

  /** Puts `data` into row `symbol` of the grid from subcarrier 0 on. */
  method PutGrid<T>(grid: array2<T>, symbol: nat, data: seq<T>)
    requires symbol < grid.Length0 && |data| <= grid.Length1
    modifies grid
    ensures Row(grid, symbol) == PutRow(old(Row(grid, symbol)), data)
    ensures forall r, c :: 0 <= r < grid.Length0 && r != symbol && 0 <= c < grid.Length1 ==> grid[r, c] == old(grid[r, c])
  {
    var k := 0;
    while k < |data|
      invariant 0 <= k <= |data|
      invariant forall c :: 0 <= c < k ==> grid[symbol, c] == data[c]
      invariant forall r, c :: 0 <= r < grid.Length0 && 0 <= c < grid.Length1 && (r != symbol || c >= k)
                  ==> grid[r, c] == old(grid[r, c])
    {
      grid[symbol, k] := data[k];
      k := k + 1;
    }
    assert Row(grid, symbol) == PutRow(old(Row(grid, symbol)), data);
  }

  /** One step of GridRowAfter and PrbsAdded: the effect of section i on top of the first i. */
  lemma {:induction false} SectionStep<T>(row: seq<T>, sections: seq<SectionParams<T>>, i: nat, duUlNofPrbs: nat)
    requires i < |sections|
    requires duUlNofPrbs * NofSubcarriersPerRb <= |row|
    requires AllReadable(sections, duUlNofPrbs)
    ensures PrbsAdded(sections[..i + 1], duUlNofPrbs)
              == PrbsAdded(sections[..i], duUlNofPrbs) + (if sections[i].startPrb < duUlNofPrbs then duUlNofPrbs else 0)
    ensures GridRowAfter(row, sections[..i + 1], duUlNofPrbs)
              == if sections[i].startPrb < duUlNofPrbs
                 then PutRow(GridRowAfter(row, sections[..i], duUlNofPrbs), SectionData(sections[i], duUlNofPrbs))
                 else GridRowAfter(row, sections[..i], duUlNofPrbs)
  {
    assert sections[..i + 1][..i] == sections[..i];
  }

  /**
   * Copies one section into row `symbol` of a grid `duUlNofPrbs` PRBs wide:
   * a section starting past the grid is skipped, any other is clipped to
   * the grid and put from subcarrier 0. Tells whether it was copied.
   */
  method PutSection<T>(grid: array2<T>, symbol: nat, sect: SectionParams<T>, duUlNofPrbs: nat) returns (copied: bool)
    requires symbol < grid.Length0 && duUlNofPrbs * NofSubcarriersPerRb <= grid.Length1
    requires SectionReadable(sect, duUlNofPrbs)
    modifies grid
    ensures copied <==> sect.startPrb < duUlNofPrbs
    ensures Row(grid, symbol) == if copied then PutRow(old(Row(grid, symbol)), SectionData(sect, duUlNofPrbs))
                                 else old(Row(grid, symbol))
    ensures forall r, c :: 0 <= r < grid.Length0 && r != symbol && 0 <= c < grid.Length1 ==> grid[r, c] == old(grid[r, c])
  {
    if sect.startPrb >= duUlNofPrbs {
      return false;
    }
    var nofPrbsToWrite := duUlNofPrbs - sect.startPrb;
    if sect.startPrb + sect.nofPrbs < duUlNofPrbs {
      nofPrbsToWrite := sect.nofPrbs;
    }
    var data := sect.iqSamples[sect.startPrb * NofSubcarriersPerRb .. (sect.startPrb + nofPrbsToWrite) * NofSubcarriersPerRb];
    assert data == SectionData(sect, duUlNofPrbs);
    PutGrid(grid, symbol, data);
    copied := true;
  }

  /**
   * Copies section i on top of the first i: the row and the counter each
   * move one step of GridRowAfter and PrbsAdded.
   */
  method PutNextSection<T>(grid: array2<T>, symbol: nat, sections: seq<SectionParams<T>>, i: nat, duUlNofPrbs: nat,
                           ghost row0: seq<T>, ghost written0: nat, written: nat)
    returns (next: nat)
    requires i < |sections|
    requires symbol < grid.Length0 && duUlNofPrbs * NofSubcarriersPerRb <= grid.Length1 && |row0| == grid.Length1
    requires AllReadable(sections, duUlNofPrbs)
    requires written == written0 + PrbsAdded(sections[..i], duUlNofPrbs)
    requires Row(grid, symbol) == GridRowAfter(row0, sections[..i], duUlNofPrbs)
    modifies grid
    ensures next == written0 + PrbsAdded(sections[..i + 1], duUlNofPrbs)
    ensures Row(grid, symbol) == GridRowAfter(row0, sections[..i + 1], duUlNofPrbs)
    ensures forall r, c :: 0 <= r < grid.Length0 && r != symbol && 0 <= c < grid.Length1 ==> grid[r, c] == old(grid[r, c])
  {
    SectionStep(row0, sections, i, duUlNofPrbs);
    var copied := PutSection(grid, symbol, sections[i], duUlNofPrbs);
    next := if copied then written + duUlNofPrbs else written;
  }

  /**
   * Copies the sections, in order, into row `symbol` of the grid;
   * `written` starts at `written0` and grows by the grid width for every
   * section copied.
   */
  method PutSections<T>(grid: array2<T>, symbol: nat, sections: seq<SectionParams<T>>, duUlNofPrbs: nat, written0: nat)
    returns (written: nat)
    requires symbol < grid.Length0 && duUlNofPrbs * NofSubcarriersPerRb <= grid.Length1
    requires AllReadable(sections, duUlNofPrbs)
    modifies grid
    ensures written == written0 + PrbsAdded(sections, duUlNofPrbs)
    ensures Row(grid, symbol) == GridRowAfter(old(Row(grid, symbol)), sections, duUlNofPrbs)
    ensures forall r, c :: 0 <= r < grid.Length0 && r != symbol && 0 <= c < grid.Length1 ==> grid[r, c] == old(grid[r, c])
  {
    ghost var row0 := Row(grid, symbol);
    written := written0;
    var i := 0;
    while i < |sections|
      invariant 0 <= i <= |sections|
      invariant written == written0 + PrbsAdded(sections[..i], duUlNofPrbs)
      invariant Row(grid, symbol) == GridRowAfter(row0, sections[..i], duUlNofPrbs)
      invariant forall r, c :: 0 <= r < grid.Length0 && r != symbol && 0 <= c < grid.Length1 ==> grid[r, c] == old(grid[r, c])
    {
      written := PutNextSection(grid, symbol, sections, i, duUlNofPrbs, row0, written0, written);
      i := i + 1;
    }
    assert sections[..i] == sections;
  }

  /** The uplink U-plane symbol manager of one DU sector. */
  class SymbolManager<T> {
    const duUlNofPrbs: nat
    /** Slots of the PRACH contexts passed to the notifier, in call order. */
    var prachNotifications: seq<SlotPoint>
    /** Slot and symbol of each uplink symbol passed to the notifier, in call order. */
    var symbolNotifications: seq<(SlotPoint, nat)>
    /** Number of "PRACH message segmentation not supported" errors logged. */
    var segmentationErrors: nat

    constructor (duUlNofPrbs: nat)
      ensures this.duUlNofPrbs == duUlNofPrbs
      ensures prachNotifications == [] && symbolNotifications == [] && segmentationErrors == 0
    {
      this.duUlNofPrbs := duUlNofPrbs;
      prachNotifications := [];
      symbolNotifications := [];
      segmentationErrors := 0;
    }

    /**
     * The state the PRACH path leaves: nothing changes without a context;
     * a section failing the segmentation check logs one error and returns
     * the context as it was; otherwise the L_RA samples from offset k-bar
     * of the section fill the start of the symbol's buffer row, nothing
     * else in the buffer changes, the context copy records L_RA samples
     * written and is marked notified, and its slot is announced once.
     */
    twostate predicate PrachPathDone(results: DecoderResults<T>, prachRepo: map<SlotPoint, PrachContext<T>>,
                                     new updated: Option<PrachContext<T>>)
      requires PrachReady(results, prachRepo)
      reads this, PrachFootprint(results, prachRepo)
    {
      && symbolNotifications == old(symbolNotifications)
      && (PrachLookupSlot(results.params.slot) !in prachRepo ==> updated == None && unchanged(this))
      && (PrachLookupSlot(results.params.slot) in prachRepo ==>
            var ctx := prachRepo[PrachLookupSlot(results.params.slot)];
            var sect := results.sections[0];
            var symbol := results.params.symbolId;
            if !PrachFits(sect.nofPrbs, ctx.kBar, LongSequenceLength) then
              && updated == Some(ctx)
              && unchanged(ctx.buffer)
              && segmentationErrors == old(segmentationErrors) + 1
              && prachNotifications == old(prachNotifications)
            else
              && updated == Some(ctx.(nofReWritten := LongSequenceLength, isNotified := true))
              && (forall k :: 0 <= k < LongSequenceLength ==> ctx.buffer[symbol, k] == sect.iqSamples[ctx.kBar + k])
              && (forall r, c :: 0 <= r < ctx.buffer.Length0 && 0 <= c < ctx.buffer.Length1 && (r != symbol || c >= LongSequenceLength)
                    ==> ctx.buffer[r, c] == old(ctx.buffer[r, c]))
              && segmentationErrors == old(segmentationErrors)
              && prachNotifications == old(prachNotifications) + [ctx.slot])
    }

    /**
     * The state the grid path leaves: nothing changes without a context;
     * otherwise the context copy is the one ContextAfterGrid describes, the
     * symbol's row is the one GridRowAfter describes, no other row changes,
     * and the symbol is announced exactly when GridNotifies holds.
     */
    twostate predicate GridPathDone(results: DecoderResults<T>, ulRepo: map<SlotPoint, UlSlotContext<T>>,
                                    new updated: Option<UlSlotContext<T>>)
      requires GridReady(results, ulRepo, duUlNofPrbs)
      reads this, GridFootprint(results, ulRepo)
    {
      && prachNotifications == old(prachNotifications) && segmentationErrors == old(segmentationErrors)
      && (results.params.slot !in ulRepo ==> updated == None && unchanged(this))
      && (results.params.slot in ulRepo ==>
            var ctx := ulRepo[results.params.slot];
            var symbol := results.params.symbolId;
            && updated == Some(ContextAfterGrid(ctx, symbol, results.sections, duUlNofPrbs))
            && Row(ctx.grid, symbol) == GridRowAfter(old(Row(ctx.grid, symbol)), results.sections, duUlNofPrbs)
            && (forall r, c :: 0 <= r < ctx.grid.Length0 && r != symbol && 0 <= c < ctx.grid.Length1
                  ==> ctx.grid[r, c] == old(ctx.grid[r, c]))
            && symbolNotifications == old(symbolNotifications)
                 + (if GridNotifies(ctx, symbol, results.sections, duUlNofPrbs) then [(ctx.slot, symbol)] else []))
    }

    /**
     * Handles one received frame. A decoding error changes nothing; the
     * PRACH filter index goes to the PRACH path only, the standard channel
     * filter to the grid path only, and any other filter index is ignored.
     */
    method OnNewFrame(decoded: Option<DecoderResults<T>>, prachRepo: map<SlotPoint, PrachContext<T>>,
                      ulRepo: map<SlotPoint, UlSlotContext<T>>) returns (outcome: FrameOutcome<T>)
      requires decoded.Some? && decoded.value.params.filterIndex.UlPrachPreamble1p25khz? ==> PrachReady(decoded.value, prachRepo)
      requires decoded.Some? && decoded.value.params.filterIndex.StandardChannelFilter? ==> GridReady(decoded.value, ulRepo, duUlNofPrbs)
      modifies this, FrameFootprint(decoded, prachRepo, ulRepo)
      ensures decoded.None? ==> outcome == Ignored && unchanged(this)
      ensures decoded.Some? && decoded.value.params.filterIndex.OtherFilter? ==> outcome == Ignored && unchanged(this)
      ensures decoded.Some? && decoded.value.params.filterIndex.UlPrachPreamble1p25khz? ==>
                outcome.PrachHandled? && PrachPathDone(decoded.value, prachRepo, outcome.prach)
      ensures decoded.Some? && decoded.value.params.filterIndex.StandardChannelFilter? ==>
                outcome.GridHandled? && GridPathDone(decoded.value, ulRepo, outcome.grid)
    {
      if decoded.None? {
        return Ignored;
      }
      var results := decoded.value;
      if results.params.filterIndex == UlPrachPreamble1p25khz {
        var updated := HandlePrachPrbs(results, prachRepo);
        return PrachHandled(updated);
      }
      if results.params.filterIndex == StandardChannelFilter {
        var updated := HandleGridPrbs(results, ulRepo);
        return GridHandled(updated);
      }
      outcome := Ignored;
    }

    /**
     * The PRACH path. The context is looked up at slot index 0 of the
     * message's subframe; without one nothing happens. When k-bar + L_RA
     * samples do not fit in the first section an error is logged and
     * nothing is copied or announced. Otherwise the L_RA samples from
     * offset k-bar of the section go to the start of the symbol's buffer
     * row, the context copy records L_RA samples written and is marked
     * notified, and the notifier is called once.
     */
    method HandlePrachPrbs(results: DecoderResults<T>, prachRepo: map<SlotPoint, PrachContext<T>>)
      returns (updated: Option<PrachContext<T>>)
      requires PrachReady(results, prachRepo)
      modifies this`prachNotifications, this`segmentationErrors, PrachFootprint(results, prachRepo)
      ensures PrachPathDone(results, prachRepo, updated)
    {
      var slot := PrachLookupSlot(results.params.slot);
      if slot !in prachRepo {
        return None;
      }
      var prachContext := prachRepo[slot];
      var symbol := results.params.symbolId;
      var sect := results.sections[0];
      var prachLength := PrachLength(prachContext.isLongPreamble);
      var nofReToPrachData := prachContext.kBar;

      if sect.nofPrbs * NofSubcarriersPerRb < nofReToPrachData + prachLength {
        segmentationErrors := segmentationErrors + 1;
        return Some(prachContext);
      }

      var prachData := sect.iqSamples[nofReToPrachData .. nofReToPrachData + prachLength];
      var buffer := prachContext.buffer;
      var k := 0;
      while k < |prachData|
        modifies buffer
        invariant 0 <= k <= |prachData|
        invariant forall c :: 0 <= c < k ==> buffer[symbol, c] == prachData[c]
        invariant forall r, c :: 0 <= r < buffer.Length0 && 0 <= c < buffer.Length1 && (r != symbol || c >= k)
                    ==> buffer[r, c] == old(buffer[r, c])
      {
        buffer[symbol, k] := prachData[k];
        k := k + 1;
      }
      prachContext := prachContext.(nofReWritten := prachLength);
      prachNotifications := prachNotifications + [prachContext.slot];
      prachContext := prachContext.(isNotified := true);
      updated := Some(prachContext);
    }

    /**
     * The grid path. Without a context for the slot nothing happens.
     * Otherwise each section that starts inside the grid is copied, clipped
     * to the grid width, into the symbol's row from subcarrier 0, and adds
     * the grid width to the symbol's PRB counter; sections starting past
     * the grid are skipped. The symbol is announced, and its bit set, only
     * when the counter then equals the grid width and the bit was clear.
     */
    method HandleGridPrbs(results: DecoderResults<T>, ulRepo: map<SlotPoint, UlSlotContext<T>>)
      returns (updated: Option<UlSlotContext<T>>)
      requires GridReady(results, ulRepo, duUlNofPrbs)
      modifies this`symbolNotifications, GridFootprint(results, ulRepo)
      ensures GridPathDone(results, ulRepo, updated)
    {
      var slot := results.params.slot;
      if slot !in ulRepo {
        return None;
      }
      var ulDataContext := ulRepo[slot];
      var symbol := results.params.symbolId;
      var sections := results.sections;
      var grid := ulDataContext.grid;
      var written := PutSections(grid, symbol, sections, duUlNofPrbs, ulDataContext.prbWritten[symbol]);
      ulDataContext := ulDataContext.(prbWritten := ulDataContext.prbWritten[symbol := written]);

      if ulDataContext.prbWritten[symbol] != duUlNofPrbs {
        return Some(ulDataContext);
      }
      if symbol !in ulDataContext.notifiedSymbols {
        symbolNotifications := symbolNotifications + [(ulDataContext.slot, symbol)];
        ulDataContext := ulDataContext.(notifiedSymbols := ulDataContext.notifiedSymbols + {symbol});
      }
      updated := Some(ulDataContext);
    }
  }

  /**
   * A symbol is announced at most once: once the grid path has announced
   * it, its bit is set in the returned context and no later grid path on
   * that context announces it again, whatever the sections.
   */
  lemma AnnouncedAtMostOnce<T>(ctx: UlSlotContext<T>, symbol: nat, first: seq<SectionParams<T>>,
                               later: seq<SectionParams<T>>, duUlNofPrbs: nat)
    requires symbol < |ctx.prbWritten|
    requires GridNotifies(ctx, symbol, first, duUlNofPrbs)
    ensures symbol in ContextAfterGrid(ctx, symbol, first, duUlNofPrbs).notifiedSymbols
    ensures !GridNotifies(ContextAfterGrid(ctx, symbol, first, duUlNofPrbs), symbol, later, duUlNofPrbs)
  {
  }

  /**
   * On a symbol with a zero counter and a non-empty grid, the grid path
   * announces the symbol exactly when one section starts inside the grid:
   * since every such section adds the full grid width, two sections that
   * each cover part of the grid push the counter past the width.
   */
  lemma {:induction false} AnnouncedOnlyForOneSection<T>(ctx: UlSlotContext<T>, symbol: nat,
                                                         sections: seq<SectionParams<T>>, duUlNofPrbs: nat)
    requires symbol < |ctx.prbWritten| && ctx.prbWritten[symbol] == 0 && symbol !in ctx.notifiedSymbols
    requires duUlNofPrbs > 0
    ensures GridNotifies(ctx, symbol, sections, duUlNofPrbs) <==> CountWritten(sections, duUlNofPrbs) == 1
  {
    PrbsAddedCountsSections(sections, duUlNofPrbs);
    var n := CountWritten(sections, duUlNofPrbs);
    if n == 0 {
      assert duUlNofPrbs * n == 0;
    } else if n >= 2 {
      assert duUlNofPrbs * n == duUlNofPrbs + duUlNofPrbs * (n - 1);
      assert duUlNofPrbs * (n - 1) >= duUlNofPrbs;
    }
  }

  /** Every PRB copied into the grid lies inside it: the clipped section never passes the grid's last PRB. */
  lemma {:induction false} GridWritesStayInGrid<T>(sections: seq<SectionParams<T>>, duUlNofPrbs: nat)
    requires AllReadable(sections, duUlNofPrbs)
    ensures forall i :: 0 <= i < |sections| && sections[i].startPrb < duUlNofPrbs ==>
              sections[i].startPrb + NofPrbsToWrite(sections[i].startPrb, sections[i].nofPrbs, duUlNofPrbs) <= duUlNofPrbs
              && |SectionData(sections[i], duUlNofPrbs)| == NofPrbsToWrite(sections[i].startPrb, sections[i].nofPrbs, duUlNofPrbs) * NofSubcarriersPerRb
  {
  }

  /**
   * The at-most-once guarantee holds within one context copy only. The
   * repository hands out copies and the grid path's updated copy is not
   * stored back, so two frames for the same symbol of the same slot, each
   * with one section inside the grid, both announce the symbol.
   */
  method TwoFramesAnnounceTwice() returns (notifications: seq<(SlotPoint, nat)>)
    ensures notifications == [(SlotPoint(0, 0, 0, 0), 0), (SlotPoint(0, 0, 0, 0), 0)]
  {
    var slot := SlotPoint(0, 0, 0, 0);
    var grid := new int[1, NofSubcarriersPerRb];
    var ctx := UlSlotContext(slot, grid, [0], {});
    var ulRepo := map[slot := ctx];
    var sect := SectionParams(0, 1, seq(NofSubcarriersPerRb, k => 0));
    var results := DecoderResults(MessageParams(StandardChannelFilter, slot, 0), [sect]);
    assert [sect][..0] == [];
    assert PrbsAdded([sect], 1) == 1;
    assert GridNotifies(ctx, 0, [sect], 1);
    var manager := new SymbolManager<int>(1);
    var first := manager.HandleGridPrbs(results, ulRepo);
    var second := manager.HandleGridPrbs(results, ulRepo);
    notifications := manager.symbolNotifications;
  }
}
