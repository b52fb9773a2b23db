/** Appends cut short: what a torn last line of the log costs, in runs where nobody puts files back. */
module JarTears {
  import opened Tombstones
  import opened CookieScope
  import opened JarEnvelope
  import opened JarStore
  import opened JarRuns
  import opened JarGuarantees

  /** Both copies only gain marks, a torn last line aside. */
  ghost predicate CopiesGrow(keys: seq<Key>, before: Copies, after: Copies) {
    && AtMost(Replay(keys, Cut(before).log.lines).marks, Replay(keys, Cut(after).log.lines).marks)
    && AtMost(AnchorMarks(keys, before.anchor), AnchorMarks(keys, after.anchor))
    && after.log.readable == before.log.readable
  }

  lemma LogGrows(keys: seq<Key>, copies: Copies, e: Entry, complete: bool)
    requires keys != []
    ensures var l := Replay(keys, Cut(copies).log.lines).marks;
      && AtMost(l, Replay(keys, Cut(Appended(keys, copies, e)).log.lines).marks)
      && Replay(keys, Cut(AppendedInPart(keys, copies, e, complete)).log.lines).marks == l
  {
    AppendReplays(keys, copies, e);
    TightReads(keys, Appended(keys, copies, e));
    FoldGrows(Replay(keys, Cut(copies).log.lines).marks, e);
    var part := AppendedInPart(keys, copies, e, complete);
    assert part.log.lines[..|part.log.lines| - 1] == Cut(copies).log.lines;
  }

  lemma AnchorGrows(keys: seq<Key>, copies: Copies, e: Entry)
    requires keys != [] && Sane(copies)
    ensures AtMost(AnchorMarks(keys, copies.anchor), AnchorMarks(keys, AfterRecord(keys, copies, e, true).anchor))
  {
    AppendFolds(keys, copies, e);
    AppendReplays(keys, copies, e);
    var l, a := Replay(keys, Appended(keys, copies, e).log.lines).marks, AnchorMarks(keys, copies.anchor);
    ReplayNonNegative(keys, Appended(keys, copies, e).log.lines);
    var c' := AfterRecord(keys, copies, e, true);
    hide Replay, Appended, Cut, Join, Fold;
    JoinAbsorbs(l, a);
    FoldGrows(Join(l, a), e);
    assert AnchorMarks(keys, c'.anchor) == Fold(Join(l, a), e);
  }

  lemma RecordGrows(keys: seq<Key>, copies: Copies, e: Entry, ok: bool, stop: RecordStop)
    requires keys != [] && Sane(copies)
    ensures CopiesGrow(keys, copies, Recorded(keys, copies, e, ok, stop))
  {
    hide Replay, Cut, AnchorMarks, Combined, Fold, Append, NewLine;
    LogGrows(keys, copies, e, if stop.InAppend? then stop.complete else true);
    AnchorGrows(keys, copies, e);
    AppendReplays(keys, copies, e);
    if stop.NoStop? { SameLog(keys, copies, e, ok); }
  }

  lemma SameLog(keys: seq<Key>, copies: Copies, e: Entry, ok: bool)
    requires keys != []
    ensures AfterRecord(keys, copies, e, ok).log == Appended(keys, copies, e).log
    ensures Cut(AfterRecord(keys, copies, e, ok)).log == Cut(Appended(keys, copies, e)).log
    ensures !ok ==> AfterRecord(keys, copies, e, ok).anchor == copies.anchor
  {
    hide Replay, Combined, Fold;
  }

  lemma StepGrowsCopies(c: Config, w: World, s: Step, w': World)
    requires Inv(c, w) && Next(c, w, s, w') && !s.Tamper?
    ensures CopiesGrow(c.keys, w.disk.copies, w'.disk.copies)
  {
    InvIsSane(c, w);
    StepOnCopies(c, w.disk, s, w'.now);
    var e := EntryOf(c, w.disk, s, w'.now);
    assert w'.disk == Perform(c, w.disk, s, w'.now);
    hide Replay, Cut, Perform, EntryOf, Recorded, Inv, Allowed, NextHistory, AnchorMarks;
    if e.Some? { RecordGrows(c.keys, w.disk.copies, e.value, LuckOf(s).anchorOk, LuckOf(s).stop); }
  }

  lemma CopiesGrowTransitively(keys: seq<Key>, a: Copies, b: Copies, c: Copies)
    requires CopiesGrow(keys, a, b) && CopiesGrow(keys, b, c)
    ensures CopiesGrow(keys, a, c)
  {
    hide Replay, Cut, AnchorMarks;
  }

  lemma {:induction false} RunGrowsCopies(c: Config, ws: seq<World>, steps: seq<Step>, i: nat, j: nat)
    requires Run(c, ws, steps) && i <= j < |ws| && Untampered(steps, i, j)
    ensures CopiesGrow(c.keys, ws[i].disk.copies, ws[j].disk.copies)
    decreases j - i
  {
    hide CopiesGrow, Next, Init, Inv;
    if i < j {
      RunGrowsCopies(c, ws, steps, i, j - 1);
      RunKeepsInv(c, ws, steps, j - 1);
      assert Next(c, ws[j - 1], steps[j - 1], ws[j]);
      StepGrowsCopies(c, ws[j - 1], steps[j - 1], ws[j]);
      CopiesGrowTransitively(c.keys, ws[i].disk.copies, ws[j - 1].disk.copies, ws[j].disk.copies);
    } else {
      CopiesGrowReflexively(c.keys, ws[i].disk.copies);
    }
  }

  lemma CopiesGrowReflexively(keys: seq<Key>, copies: Copies)
    ensures CopiesGrow(keys, copies, copies)
  {}

  lemma InvIsSane(c: Config, w: World)
    requires Inv(c, w)
    ensures Sane(w.disk.copies) && NonNegative(AnchorMarks(c.keys, w.disk.copies.anchor))
  {
    CombinedIsRecorded(c.keys, w.disk.copies, w.hist.recorded);
  }

  /** What is blocked without a torn last line stays blocked, whatever appends are cut short later. */
  lemma RevocationOutlastsTears(c: Config, ws: seq<World>, steps: seq<Step>, i: nat, j: nat, id: JarId, generation: int)
    requires Run(c, ws, steps) && i <= j < |ws| && Untampered(steps, i, j)
    requires Blocked(c.keys, Cut(ws[i].disk.copies), id, generation).Some?
    ensures Blocked(c.keys, Cut(ws[j].disk.copies), id, generation).Some? && Blocked(c.keys, ws[j].disk.copies, id, generation).Some?
  {
    ReadInTurn(c, ws, steps, i, j, j);
    RunKeepsInv(c, ws, steps, j);
    InvIsSane(c, ws[j]);
    hide Run, Combined, Replay, Inv;
    CutIsAtMost(c.keys, ws[j].disk.copies);
  }

  lemma ReadInTurn(c: Config, ws: seq<World>, steps: seq<Step>, i: nat, j: nat, k: nat)
    requires Run(c, ws, steps) && i <= j <= k < |ws| && Untampered(steps, i, k)
    ensures var before := Combined(c.keys, Cut(ws[i].disk.copies));
      && AtMost(before, Combined(c.keys, Cut(Copies(ws[j].disk.copies.log, ws[k].disk.copies.anchor))))
      && AtMost(before, Combined(c.keys, Copies(ws[j].disk.copies.log, ws[k].disk.copies.anchor)))
      && ws[j].disk.copies.log.readable == ws[i].disk.copies.log.readable
  {
    RunGrowsCopies(c, ws, steps, i, j);
    RunGrowsCopies(c, ws, steps, i, k);
    RunKeepsInv(c, ws, steps, i);
    RunKeepsInv(c, ws, steps, k);
    InvIsSane(c, ws[i]);
    InvIsSane(c, ws[k]);
    MarksInTurn(c.keys, ws[i].disk.copies, ws[j].disk.copies.log, ws[k].disk.copies.anchor);
  }

  lemma MarksInTurn(keys: seq<Key>, before: Copies, log: Log, anchor: AnchorFile)
    requires AtMost(Replay(keys, Cut(before).log.lines).marks, Replay(keys, Cut(Copies(log, anchor)).log.lines).marks)
    requires AtMost(AnchorMarks(keys, before.anchor), AnchorMarks(keys, anchor))
    requires Sane(Copies(log, anchor)) && NonNegative(AnchorMarks(keys, before.anchor))
    ensures AtMost(Combined(keys, Cut(before)), Combined(keys, Cut(Copies(log, anchor))))
    ensures AtMost(Combined(keys, Cut(before)), Combined(keys, Copies(log, anchor)))
  {
    var mixed := Copies(log, anchor);
    ReplayNonNegative(keys, Cut(before).log.lines);
    ReplayNonNegative(keys, Cut(mixed).log.lines);
    CutIsAtMost(keys, mixed);
    assert NonNegative(AnchorMarks(keys, anchor));
    hide Replay, AnchorMarks;
    JoinIsMonotone(Replay(keys, Cut(before).log.lines).marks, Replay(keys, Cut(mixed).log.lines).marks,
                   AnchorMarks(keys, before.anchor), AnchorMarks(keys, anchor));
  }

  /** And what is blocked only by a torn last line does not: a generation stays blocked after the next
      record about another jar exactly if it is blocked without that line. */
  lemma TornRevocationIsLost(c: Config, ws: seq<World>, steps: seq<Step>, i: nat, id: JarId, generation: int)
    requires Run(c, ws, steps) && i < |steps| && ws[i].disk.copies.log.readable
    requires EntryOf(c, ws[i].disk, steps[i], ws[i + 1].now).Some? && EntryOf(c, ws[i].disk, steps[i], ws[i + 1].now).value.jarId != id
    ensures Blocked(c.keys, ws[i + 1].disk.copies, id, generation).Some? <==> Blocked(c.keys, Cut(ws[i].disk.copies), id, generation).Some?
  {
    var w, s, w' := ws[i], steps[i], ws[i + 1];
    RunKeepsInv(c, ws, steps, i);
    assert Next(c, w, s, w');
    InvIsSane(c, w);
    StepOnCopies(c, w.disk, s, w'.now);
    var e := EntryOf(c, w.disk, s, w'.now);
    hide Run, Replay, Cut, Perform, EntryOf, Recorded, Inv, Allowed, NextHistory, Blocked;
    RecordedBlocks(c.keys, w.disk.copies, e.value, LuckOf(s).anchorOk, LuckOf(s).stop, id, generation);
  }

  /** A refresh whose process ends inside the append, on a log that was whole: the old version is as
      loadable as it was, or revoked where the line is there but for its newline. */
  lemma AppendCutShort(c: Config, d: Disk, id: JarId, a: SaveArgs, now: int, complete: bool, ok: bool, later: int)
    requires Sane(d.copies) && Tight(d.copies) && Save(c, d, Some(id), id, a, now, Never, ok).1.Ok?
    ensures var d' := Save(c, d, Some(id), id, a, now, AtAppend(complete), ok).0;
      Load(c, d', id, later).Ok? <==> !complete && Load(c, d, id, later).Ok?
  {
    var stop := AtAppend(complete);
    var d' := Save(c, d, Some(id), id, a, now, stop, ok).0;
    ReachedTheLog(c, d, id, a, now, stop, ok);
    var g := Verified(c, d, id).value.meta.generation;
    StoppedRefreshBlocks(c, d, id, a, now, stop, ok, id, g);
    SameFilesSameRead(c, d, d', id);
    LoadsIff(c, d, id, later);
    LoadsIff(c, d', id, later);
    hide Save, Verified, Combined, Load, Recorded;
    TightReads(c.keys, d.copies);
  }

  /** Loading reads the jar file, then the log, then the anchor, without a lock. With the file as of `i`,
      the log as of `j` and the anchor as of `k`, and nothing put back meanwhile, what it accepts was
      loadable as a whole when the file was read, a torn last line of the log aside. */
  lemma LoadReadsInTurn(c: Config, ws: seq<World>, steps: seq<Step>, i: nat, j: nat, k: nat, id: JarId, now: int)
    requires Run(c, ws, steps) && i <= j <= k < |ws| && Untampered(steps, i, k)
    ensures var d := ws[i].disk;
      var mixed := d.(copies := Copies(ws[j].disk.copies.log, ws[k].disk.copies.anchor));
      Load(c, mixed, id, now).Ok? ==> Load(c, d.(copies := Cut(d.copies)), id, now) == Load(c, mixed, id, now)
  {
    ReadInTurn(c, ws, steps, i, j, k);
    hide Run, Combined, Open, Cut;
  }
}
