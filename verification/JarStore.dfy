/** Saving, refreshing, loading and revoking cookie jars in one shared directory.

    `Disk` is everything that survives a process: the jar files, the two revocation copies and the
    audit log. Each operation that runs under the cross-process lock is a function from disk to disk;
    the methods of `JarStore` carry it out step by step. */
module JarStore {
  import opened Tombstones
  import opened CookieScope
  import opened JarEnvelope

  datatype AuditOp = Saved | Refreshed | LoadedJar | InvalidatedJar | DeletedJar

  datatype AuditEntry = AuditEntry(op: AuditOp, jarId: JarId, generation: int)

  datatype Disk = Disk(files: map<JarId, JarFile>, copies: Copies, audit: seq<AuditEntry>)

  /** The configured keys (the first one writes), the byte cap and the session-cookie retention. */
  datatype Config = Config(keys: seq<Key>, maxBytes: nat, sessionTtl: int)

  const PROBE_MIN_INTERVAL: int := 15 * 60

  /** A save request. `probe` is `None` where the probe validation rejects it; the two sizes are those
      of the serialised capture and of the sealed record. */
  datatype SaveArgs = SaveArgs(
    title: Label, origins: seq<RawOrigin>, nav: Option<seq<RawOrigin>>, mode: Option<StorageMode>, raw: StorageState,
    rawSize: nat, sealedSize: nat, probe: Option<Probe>, savedBy: Saver, owner: Option<string>, precondition: Option<int>)

  /** Where a save comes to a halt, by failing or because the process ends: at the strict audit write,
      after it, inside the log append, between append and anchor, or between tombstone and rename. */
  datatype Stop = Never | AtAudit | BeforeAppend | AtAppend(complete: bool) | BeforeAnchor | BeforeRename

  function RecordStopOf(stop: Stop): RecordStop {
    match stop
    case AtAppend(complete) => InAppend(complete)
    case BeforeAnchor => AfterAppend
    case _ => NoStop
  }

  // ---------------------------------------------------------------- reading a jar file

  function ReadRecord(d: Disk, id: JarId): Result<JarFile> {
    if id !in d.files then Err(NotFound)
    else match d.files[id]
      case Unreadable => Err(Corruption)
      case BadMeta(found) => if found == id then Ok(d.files[id]) else Err(Invalid)
      case Record(meta, _, _) => if meta.jarId == id then Ok(d.files[id]) else Err(Invalid)
  }

  function ReadMeta(d: Disk, id: JarId): Result<Meta> {
    var f := ReadRecord(d, id);
    if f.Err? then Err(f.error) else MetaFromRecord(f.value)
  }

  function Verified(c: Config, d: Disk, id: JarId): (r: Result<Opened>)
    ensures r.Ok? ==> id in d.files && d.files[id].Record? && d.files[id].blob.Sealed? && r.value.meta.jarId == id
  {
    var f := ReadRecord(d, id);
    if f.Err? then Err(f.error) else Open(c.keys, f.value)
  }

  predicate TtlExpired(c: Config, m: Meta, now: int) {
    m.containsSession && now - (if m.ttlAnchor.Some? then m.ttlAnchor.value else m.updatedAt) > c.sessionTtl
  }

  // ---------------------------------------------------------------- the readings of "usable"

  function Load(c: Config, d: Disk, id: JarId, now: int): Result<Opened> {
    if c.keys == [] then Err(Disabled)
    else
      var meta := ReadMeta(d, id);
      if meta.Err? then Err(meta.error)
      else if meta.value.invalidatedAt.Some? then Err(Revoked)
      else if Blocked(c.keys, d.copies, id, meta.value.generation).Some? then Err(Revoked)
      else if TtlExpired(c, meta.value, now) then Err(Revoked)
      else Verified(c, d, id)
  }

  predicate RecheckLoadable(c: Config, d: Disk, id: JarId, now: int) {
    c.keys != [] && var o := Verified(c, d, id);
      && o.Ok?
      && o.value.meta.invalidatedAt.None?
      && !TtlExpired(c, o.value.meta, now)
      && Blocked(c.keys, d.copies, id, o.value.meta.generation).None?
  }

  function Annotate(c: Config, d: Disk, m: Meta, now: int): Meta {
    if m.invalidatedAt.None? && (Blocked(c.keys, d.copies, m.jarId, m.generation).Some? || TtlExpired(c, m, now))
    then m.(invalidatedAt := Some(m.updatedAt))
    else m
  }

  function StubMeta(id: JarId, now: int): Meta {
    Meta(id, [], [], [], None, All, 1, Some(now), None, None, false, now, None, 1, now, None, Agent,
         FilterStats(0, 0, None, false, false))
  }

  /** What a listing shows for `id`, if anything. */
  function Listed(c: Config, d: Disk, id: JarId, now: int): Option<Meta> {
    if id !in d.files || !d.files[id].Record? || d.files[id].meta.jarId != id || IsDeleted(c.keys, d.copies, id) then None
    else
      var o := Open(c.keys, d.files[id]);
      Some(if o.Ok? then Annotate(c, d, o.value.meta, now) else StubMeta(id, now))
  }

  /** The annotated read of one jar on the service path. */
  function SingleRead(c: Config, d: Disk, id: JarId, now: int): Option<Meta> {
    if c.keys == [] || ReadMeta(d, id).Err? then None
    else
      var o := Verified(c, d, id);
      Some(Annotate(c, d, if o.Ok? then o.value.meta else StubMeta(id, now), now))
  }

  predicate ShownUsable(m: Option<Meta>) { m.Some? && m.value.invalidatedAt.None? }

  /** Whatever the files hold, tampered or not, the four readings agree. */
  lemma FourViewsAgree(c: Config, d: Disk, id: JarId, now: int)
    requires c.keys != []
    ensures Load(c, d, id, now).Ok? <==> RecheckLoadable(c, d, id, now)
    ensures Load(c, d, id, now).Ok? <==> ShownUsable(Listed(c, d, id, now))
    ensures Load(c, d, id, now).Ok? <==> ShownUsable(SingleRead(c, d, id, now))
    ensures !d.copies.log.readable ==> Load(c, d, id, now).Err?
    ensures Load(c, d, id, now).Ok? ==> Load(c, d, id, now) == Verified(c, d, id)
  {}

  predicate IsRevokedGeneration(c: Config, d: Disk, id: JarId, generation: Option<int>) {
    || IsDeleted(c.keys, d.copies, id)
    || Blocked(c.keys, d.copies, id, if generation.Some? then generation.value else 0).Some?
  }

  predicate Authenticates(c: Config, d: Disk, id: JarId) { c.keys != [] && Verified(c, d, id).Ok? }

  // ---------------------------------------------------------------- saving

  function Target(c: Config, d: Disk, jarId: Option<JarId>, a: SaveArgs): (r: Result<Option<Meta>>)
    ensures r.Ok? ==> r.value.Some? == jarId.Some?
  {
    if jarId.None? then Ok(None)
    else if IsDeleted(c.keys, d.copies, jarId.value) then Err(Revoked)
    else if HighWater(c.keys, d.copies, jarId.value) >= MAX_GENERATION then Err(Revoked)
    else if a.precondition.Some? && Blocked(c.keys, d.copies, jarId.value, a.precondition.value).Some? then Err(Revoked)
    else
      var o := Verified(c, d, jarId.value);
      if o.Err? then Err(o.error) else Ok(Some(o.value.meta))
  }

  function ResolvedScope(existing: Option<Meta>, a: SaveArgs): ScopeResult {
    if existing.Some? then
      ResolveRefreshScope(Scope(existing.value.origins, existing.value.allowlist, existing.value.mode), a.origins, a.nav, a.mode)
    else if Valid(a.origins) == [] then Rejected
    else Resolved(Scope(Valid(a.origins), if a.nav.Some? then Valid(a.nav.value) else [],
                        if a.mode.Some? then a.mode.value else All))
  }

  function NewGeneration(existing: Option<Meta>, highWater: int): int {
    if existing.Some? then Max(existing.value.generation, highWater) + 1 else 1
  }

  function NewAnchor(existing: Option<Meta>, savedBy: Saver, now: int): int {
    if existing.Some? && savedBy.Agent? then
      if existing.value.ttlAnchor.Some? then existing.value.ttlAnchor.value else existing.value.updatedAt
    else now
  }

  function NewMeta(existing: Option<Meta>, id: JarId, scope: Scope, a: SaveArgs, stats: FilterStats, highWater: int, now: int): Meta {
    Meta(
      id, NormalizeLabel(a.title), scope.origins, scope.allowlist,
      if a.owner.Some? then a.owner else if existing.Some? then existing.value.owner else None, scope.mode,
      NewGeneration(existing, highWater), None, None, None, stats.containsSession, now,
      Some(NewAnchor(existing, a.savedBy, now)),
      if existing.Some? then existing.value.version + 1 else 1,
      if existing.Some? then existing.value.createdAt else now,
      if existing.Some? then existing.value.lastLoadedAt else None, a.savedBy, stats)
  }

  /** The sealed record a save would publish. */
  function NewVersion(c: Config, d: Disk, existing: Option<Meta>, id: JarId, a: SaveArgs, now: int): (r: Result<JarFile>)
    requires c.keys != []
    ensures r.Ok? ==> r.value.Record? && r.value.meta.jarId == id && r.value.blob.Sealed?
  {
    var scope := ResolvedScope(existing, a);
    if scope.Rejected? || a.probe.None? then Err(Invalid)
    else
      var kept := Filtered(a.raw, scope.scope.origins, scope.scope.mode);
      var meta := NewMeta(existing, id, scope.scope, a, StatsOf(kept), HighWater(c.keys, d.copies, id), now);
      if a.sealedSize > c.maxBytes then Err(Invalid)
      else Ok(Seal(c.keys[0], meta, Payload(kept, a.probe.value)))
  }

  function WithAudit(d: Disk, op: AuditOp, m: Meta): Disk {
    d.(audit := d.audit + [AuditEntry(op, m.jarId, m.generation)])
  }

  function Publish(c: Config, d: Disk, existing: Option<Meta>, f: JarFile, stop: Stop, anchorOk: bool): (r: (Disk, Result<Meta>))
    requires c.keys != [] && f.Record?
    ensures d.audit <= r.0.audit && (r.1.Err? ==> r.0.files == d.files)
  {
    if stop.AtAudit? then (d, Err(Interrupted))
    else
      var d1 := WithAudit(d, if existing.Some? then Refreshed else Saved, f.meta);
      if stop.BeforeAppend? then (d1, Err(Interrupted))
      else if existing.None? then
        if stop.Never? then (d1.(files := d1.files[f.meta.jarId := f]), Ok(f.meta)) else (d1, Err(Interrupted))
      else
        var e := Entry(f.meta.jarId, existing.value.generation, Invalidated);
        var d2 := d1.(copies := Recorded(c.keys, d.copies, e, anchorOk, RecordStopOf(stop)));
        if stop.Never? then (d2.(files := d2.files[f.meta.jarId := f]), Ok(f.meta)) else (d2, Err(Interrupted))
  }

  /** A save of `jarId`, or of the new id `freshId` when none is given. */
  function Save(c: Config, d: Disk, jarId: Option<JarId>, freshId: JarId, a: SaveArgs, now: int, stop: Stop, anchorOk: bool)
    : (r: (Disk, Result<Meta>))
    ensures d.audit <= r.0.audit && (r.1.Err? ==> r.0.files == d.files)
  {
    if c.keys == [] then (d, Err(Disabled))
    else if a.rawSize > c.maxBytes then (d, Err(Invalid))
    else
      var existing := Target(c, d, jarId, a);
      if existing.Err? then (d, Err(existing.error))
      else
        var f := NewVersion(c, d, existing.value, if jarId.Some? then jarId.value else freshId, a, now);
        if f.Err? then (d, Err(f.error)) else Publish(c, d, existing.value, f.value, stop, anchorOk)
  }

  // ---------------------------------------------------------------- revoking

  /** How a revocation went: where the process ended while recording, and the best-effort parts, which
      are the anchor write, the rewrite or removal of the file, and the audit entry. */
  datatype Luck = Luck(stop: RecordStop, anchorOk: bool, fileOk: bool, auditOk: bool)

  function RecordOrStop(c: Config, copies: Copies, e: Entry, l: Luck): Copies
    requires c.keys != []
  {
    Recorded(c.keys, copies, e, l.anchorOk, l.stop)
  }

  function Finish(d: Disk, op: AuditOp, m: Meta, l: Luck): (r: Disk)
    ensures d.audit <= r.audit && r.files == d.files && r.copies == d.copies
  {
    if l.auditOk then WithAudit(d, op, m) else d
  }

  function Invalidate(c: Config, d: Disk, id: JarId, now: int, l: Luck): (r: (Disk, Result<Meta>))
    ensures d.audit <= r.0.audit
  {
    if c.keys == [] then (d, Err(Disabled))
    else if !d.copies.log.readable then (d, Err(Corruption))
    else
      var meta := ReadMeta(d, id);
      if meta.Err? then
        var d1 := d.(copies := RecordOrStop(c, d.copies, Entry(id, MAX_GENERATION, Invalidated), l));
        if !l.stop.NoStop? then (d1, Err(Interrupted))
        else (Finish(d1, InvalidatedJar, StubMeta(id, now), l), Ok(StubMeta(id, now)))
      else
        var o := Verified(c, d, id);
        var generation := if o.Ok? then meta.value.generation else MAX_GENERATION;
        var d1 := d.(copies := RecordOrStop(c, d.copies, Entry(id, generation, Invalidated), l));
        if !l.stop.NoStop? then (d1, Err(Interrupted))
        else
          var m := meta.value.(invalidatedAt := Some(now), updatedAt := now);
          var f := if o.Ok? then Seal(c.keys[0], m, o.value.payload) else d.files[id].(meta := m);
          var d2 := if l.fileOk then d1.(files := d1.files[id := f]) else d1;
          (Finish(d2, InvalidatedJar, m, l), Ok(m))
  }

  function Delete(c: Config, d: Disk, id: JarId, now: int, l: Luck): (r: (Disk, Result<Meta>))
    ensures d.audit <= r.0.audit
  {
    if c.keys == [] then (d, Err(Disabled))
    else if !d.copies.log.readable then (d, Err(Corruption))
    else
      var meta := ReadMeta(d, id);
      var generation := if meta.Ok? then meta.value.generation else MAX_GENERATION;
      var m := if meta.Ok? then meta.value else StubMeta(id, now);
      var d1 := d.(copies := RecordOrStop(c, d.copies, Entry(id, generation, Deleted), l));
      if !l.stop.NoStop? then (d1, Err(Interrupted))
      else
        var d2 := if l.fileOk then d1.(files := d1.files - {id}) else d1;
        (Finish(d2, DeletedJar, m, l), Ok(m))
  }

  // ---------------------------------------------------------------- freshness bookkeeping

  function Touch(d: Disk, id: JarId, now: int, auditOk: bool): (r: Disk)
    ensures d.audit <= r.audit && r.copies == d.copies
  {
    var meta := ReadMeta(d, id);
    if meta.Err? then d
    else
      var m := meta.value.(lastLoadedAt := Some(now));
      Finish(d.(files := d.files[id := d.files[id].(meta := m)]), LoadedJar, m, Luck(NoStop, true, true, auditOk))
  }

  predicate ProbeAllowed(m: Meta, now: int) {
    m.lastProbeAt.None? || m.lastProbeAt.value + PROBE_MIN_INTERVAL <= now
  }

  function ReserveProbe(c: Config, d: Disk, id: JarId, generation: int, now: int): (Disk, Result<bool>) {
    var meta := ReadMeta(d, id);
    if c.keys == [] then (d, Err(Disabled))
    else if meta.Err? then (d, Err(meta.error))
    else
      var o := Verified(c, d, id);
      if || meta.value.generation != generation || !ProbeAllowed(meta.value, now) || meta.value.invalidatedAt.Some?
         || Blocked(c.keys, d.copies, id, meta.value.generation).Some? || o.Err?
      then (d, Ok(false))
      else (d.(files := d.files[id := Seal(c.keys[0], meta.value.(lastProbeAt := Some(now)), o.value.payload)]), Ok(true))
  }

  function RecordProbe(c: Config, d: Disk, id: JarId, result: ProbeResult, expected: Option<int>, now: int): (Disk, Result<Meta>) {
    var meta := ReadMeta(d, id);
    if c.keys == [] then (d, Err(Disabled))
    else if meta.Err? then (d, Err(meta.error))
    else
      var o := Verified(c, d, id);
      if (expected.Some? && meta.value.generation != expected.value) || o.Err? then (d, Ok(meta.value))
      else
        var m := meta.value.(lastProbeAt := Some(now), lastProbeResult := Some(result));
        (d.(files := d.files[id := Seal(c.keys[0], m, o.value.payload)]), Ok(m))
  }

  // ---------------------------------------------------------------- the store, step by step

  class JarStore {
    const config: Config
    const tombstones: TombstoneStore
    var files: map<JarId, JarFile>
    var audit: seq<AuditEntry>

    ghost predicate Valid() { tombstones.keys == config.keys }

    function Directory(): Disk
      reads this, tombstones
    {
      Disk(files, tombstones.Files(), audit)
    }

    constructor (config: Config, d: Disk)
      ensures Valid() && Directory() == d && this.config == config && fresh(tombstones)
    {
      this.config := config;
      var t := new TombstoneStore(config.keys, d.copies.log, d.copies.anchor);
      tombstones := t;
      files := d.files;
      audit := d.audit;
    }

    method SaveJar(jarId: Option<JarId>, freshId: JarId, a: SaveArgs, now: int, stop: Stop, anchorOk: bool)
      returns (r: Result<Meta>)
      requires Valid()
      modifies this, tombstones
      ensures (Directory(), r) == Save(config, old(Directory()), jarId, freshId, a, now, stop, anchorOk)
    {
      if config.keys == [] { return Err(Disabled); }
      if a.rawSize > config.maxBytes { return Err(Invalid); }
      var existing := FindTarget(jarId, a);
      if existing.Err? { return Err(existing.error); }
      var f := BuildVersion(existing.value, if jarId.Some? then jarId.value else freshId, a, now);
      if f.Err? { return Err(f.error); }
      r := PublishVersion(existing.value, f.value, stop, anchorOk);
    }

    method FindTarget(jarId: Option<JarId>, a: SaveArgs) returns (r: Result<Option<Meta>>)
      requires Valid()
      ensures r == Target(config, Directory(), jarId, a)
    {
      if jarId.None? { return Ok(None); }
      var deleted := tombstones.Deletion(jarId.value);
      if deleted { return Err(Revoked); }
      var mark := tombstones.Mark(jarId.value);
      if mark >= MAX_GENERATION { return Err(Revoked); }
      if a.precondition.Some? {
        var why := tombstones.BlockedReason(jarId.value, a.precondition.value);
        if why.Some? { return Err(Revoked); }
      }
      var o := Verified(config, Directory(), jarId.value);
      if o.Err? { return Err(o.error); }
      r := Ok(Some(o.value.meta));
    }

    method BuildVersion(existing: Option<Meta>, id: JarId, a: SaveArgs, now: int) returns (r: Result<JarFile>)
      requires Valid() && config.keys != []
      ensures r == NewVersion(config, Directory(), existing, id, a, now)
    {
      var scope := ResolvedScope(existing, a);
      if scope.Rejected? || a.probe.None? { return Err(Invalid); }
      var kept, stats := FilterStorageState(a.raw, Wrap(scope.scope.origins), scope.scope.mode);
      WrapIsValid(scope.scope.origins);
      var mark := tombstones.Mark(id);
      var meta := NewMeta(existing, id, scope.scope, a, stats, mark, now);
      if a.sealedSize > config.maxBytes { return Err(Invalid); }
      r := Ok(Seal(config.keys[0], meta, Payload(kept, a.probe.value)));
    }

    /** Audit first, then the tombstone of the superseded generation, then the rename. */
    method PublishVersion(existing: Option<Meta>, f: JarFile, stop: Stop, anchorOk: bool) returns (r: Result<Meta>)
      requires Valid() && config.keys != [] && f.Record?
      requires existing.Some? ==> tombstones.log.readable
      modifies this, tombstones
      ensures (Directory(), r) == Publish(config, old(Directory()), existing, f, stop, anchorOk)
    {
      if stop.AtAudit? { return Err(Interrupted); }
      Audit(if existing.Some? then Refreshed else Saved, f.meta);
      if stop.BeforeAppend? { return Err(Interrupted); }
      if existing.Some? {
        var recorded := tombstones.Record(f.meta.jarId, existing.value.generation, Invalidated, anchorOk, RecordStopOf(stop));
        if !recorded { return Err(Interrupted); }
      }
      if !stop.Never? { return Err(Interrupted); }
      files := files[f.meta.jarId := f];
      r := Ok(f.meta);
    }

    method Audit(op: AuditOp, m: Meta)
      modifies this`audit
      ensures audit == old(audit) + [AuditEntry(op, m.jarId, m.generation)]
    {
      audit := audit + [AuditEntry(op, m.jarId, m.generation)];
    }

    method LoadJar(id: JarId, now: int) returns (r: Result<Opened>)
      requires Valid()
      ensures r == Load(config, Directory(), id, now)
    {
      if config.keys == [] { return Err(Disabled); }
      var meta := ReadMeta(Directory(), id);
      if meta.Err? { return Err(meta.error); }
      if meta.value.invalidatedAt.Some? { return Err(Revoked); }
      var why := tombstones.BlockedReason(id, meta.value.generation);
      if why.Some? { return Err(Revoked); }
      if TtlExpired(config, meta.value, now) { return Err(Revoked); }
      r := Verified(config, Directory(), id);
    }

    method InvalidateJar(id: JarId, now: int, l: Luck) returns (r: Result<Meta>)
      requires Valid()
      modifies this, tombstones
      ensures (Directory(), r) == Invalidate(config, old(Directory()), id, now, l)
    {
      if config.keys == [] { return Err(Disabled); }
      var readable := tombstones.log.readable;
      var meta := ReadMeta(Directory(), id);
      if meta.Err? {
        var ok := tombstones.Record(id, MAX_GENERATION, Invalidated, l.anchorOk, l.stop);
        if !ok { return Err(if readable then Interrupted else Corruption); }
        var stub := StubMeta(id, now);
        if l.auditOk { Audit(InvalidatedJar, stub); }
        return Ok(stub);
      }
      var o := Verified(config, Directory(), id);
      var generation := if o.Ok? then meta.value.generation else MAX_GENERATION;
      var ok := tombstones.Record(id, generation, Invalidated, l.anchorOk, l.stop);
      if !ok { return Err(if readable then Interrupted else Corruption); }
      var m := meta.value.(invalidatedAt := Some(now), updatedAt := now);
      if l.fileOk {
        files := files[id := if o.Ok? then Seal(config.keys[0], m, o.value.payload) else files[id].(meta := m)];
      }
      if l.auditOk { Audit(InvalidatedJar, m); }
      r := Ok(m);
    }

    method DeleteJar(id: JarId, now: int, l: Luck) returns (r: Result<Meta>)
      requires Valid()
      modifies this, tombstones
      ensures (Directory(), r) == Delete(config, old(Directory()), id, now, l)
    {
      if config.keys == [] { return Err(Disabled); }
      var readable := tombstones.log.readable;
      var meta := ReadMeta(Directory(), id);
      var m := if meta.Ok? then meta.value else StubMeta(id, now);
      var ok := tombstones.Record(id, if meta.Ok? then m.generation else MAX_GENERATION, Deleted, l.anchorOk, l.stop);
      if !ok { return Err(if readable then Interrupted else Corruption); }
      if l.fileOk { files := files - {id}; }
      if l.auditOk { Audit(DeletedJar, m); }
      r := Ok(m);
    }

    method TouchLoaded(id: JarId, now: int, auditOk: bool)
      modifies this
      ensures Directory() == Touch(old(Directory()), id, now, auditOk)
    {
      var meta := ReadMeta(Directory(), id);
      if meta.Err? { return; }
      var m := meta.value.(lastLoadedAt := Some(now));
      files := files[id := files[id].(meta := m)];
      if auditOk { Audit(LoadedJar, m); }
    }

    method Reserve(id: JarId, generation: int, now: int) returns (r: Result<bool>)
      requires Valid()
      modifies this`files
      ensures (Directory(), r) == ReserveProbe(config, old(Directory()), id, generation, now)
    {
      if config.keys == [] { return Err(Disabled); }
      var meta := ReadMeta(Directory(), id);
      if meta.Err? { return Err(meta.error); }
      if meta.value.generation != generation || !ProbeAllowed(meta.value, now) { return Ok(false); }
      var why := tombstones.BlockedReason(id, meta.value.generation);
      if meta.value.invalidatedAt.Some? || why.Some? { return Ok(false); }
      var o := Verified(config, Directory(), id);
      if o.Err? { return Ok(false); }
      files := files[id := Seal(config.keys[0], meta.value.(lastProbeAt := Some(now)), o.value.payload)];
      r := Ok(true);
    }

    method StampProbe(id: JarId, result: ProbeResult, expected: Option<int>, now: int) returns (r: Result<Meta>)
      requires Valid()
      modifies this`files
      ensures (Directory(), r) == RecordProbe(config, old(Directory()), id, result, expected, now)
    {
      if config.keys == [] { return Err(Disabled); }
      var meta := ReadMeta(Directory(), id);
      if meta.Err? { return Err(meta.error); }
      if expected.Some? && meta.value.generation != expected.value { return Ok(meta.value); }
      var o := Verified(config, Directory(), id);
      if o.Err? { return Ok(meta.value); }
      var m := meta.value.(lastProbeAt := Some(now), lastProbeResult := Some(result));
      files := files[id := Seal(config.keys[0], m, o.value.payload)];
      r := Ok(m);
    }

    method ListMeta(now: int) returns (shown: map<JarId, Meta>)
      requires Valid()
      ensures forall id :: (if id in shown then Some(shown[id]) else None) == Listed(config, Directory(), id, now)
    {
      shown := map[];
      var todo := files.Keys;
      while todo != {}
        invariant todo <= files.Keys
        invariant forall id :: (if id in shown then Some(shown[id]) else None)
                    == if id in todo then None else Listed(config, Directory(), id, now)
      {
        var id :| id in todo;
        todo := todo - {id};
        if !files[id].Record? || files[id].meta.jarId != id { continue; }
        var deleted := tombstones.Deletion(id);
        if deleted { continue; }
        var o := Open(config.keys, files[id]);
        if o.Err? { shown := shown[id := StubMeta(id, now)]; continue; }
        shown := shown[id := Annotate(config, Directory(), o.value.meta, now)];
      }
    }
  }

  function Wrap(os: seq<Origin>): seq<RawOrigin> {
    if os == [] then [] else Wrap(os[..|os| - 1]) + [Some(os[|os| - 1])]
  }

  lemma {:induction false} WrapIsValid(os: seq<Origin>)
    ensures CookieScope.Valid(Wrap(os)) == os
  {
    if os != [] {
      var w := Wrap(os[..|os| - 1]);
      WrapIsValid(os[..|os| - 1]);
      assert Wrap(os)[..|w|] == w;
    }
  }
}
