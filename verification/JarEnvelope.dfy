/** The sealed jar file: cleartext metadata, and an authenticated blob bound to part of it.

    Encryption is symbolic: `Sealed(key, payload, bound)` is the ciphertext of `payload` under `key`
    with `bound` as associated data; only the code makes one, and it opens under that key and that
    associated data alone. */
module JarEnvelope {
  import opened Tombstones
  import opened CookieScope

  // ---------------------------------------------------------------- labels

  /** A character of a label with its Unicode class: the ASCII space is the only whitespace that
      counts as printable. */
  datatype Glyph = Space | Visible(code: nat) | Unprintable(code: nat)

  type Label = seq<Glyph>

  const LABEL_MAX_LEN: nat := 80

  function Printable(l: Label): Label {
    if l == [] then [] else (if l[0].Unprintable? then [] else [l[0]]) + Printable(l[1..])
  }

  function TrimLeft(l: Label): Label { if l != [] && l[0].Space? then TrimLeft(l[1..]) else l }

  function TrimRight(l: Label): Label {
    if l != [] && l[|l| - 1].Space? then TrimRight(l[..|l| - 1]) else l
  }

  function NormalizeLabel(title: Label): Label {
    var cleaned := TrimRight(TrimLeft(Printable(title)));
    if |cleaned| > LABEL_MAX_LEN then TrimRight(cleaned[..LABEL_MAX_LEN]) else cleaned
  }

  /** Plain text only, no blank at either end, at most the maximum length. */
  predicate Plain(l: Label) {
    && |l| <= LABEL_MAX_LEN
    && (forall g <- l :: !g.Unprintable?)
    && (l != [] ==> !l[0].Space? && !l[|l| - 1].Space?)
  }

  lemma {:induction false} PrintableOnly(l: Label)
    ensures forall g <- Printable(l) :: !g.Unprintable?
    ensures (forall g <- l :: !g.Unprintable?) ==> Printable(l) == l
  {
    if l != [] {
      PrintableOnly(l[1..]);
      if forall g <- l :: !g.Unprintable? {
        assert forall g <- l[1..] :: g in l;
      }
    }
  }

  lemma {:induction false} TrimLeftDrops(l: Label)
    ensures TrimLeft(l) != [] ==> !TrimLeft(l)[0].Space?
    ensures forall g <- TrimLeft(l) :: g in l
  {
    if l != [] && l[0].Space? { TrimLeftDrops(l[1..]); }
  }

  lemma {:induction false} TrimRightDrops(l: Label)
    ensures TrimRight(l) != [] ==> !TrimRight(l)[|TrimRight(l)| - 1].Space? && TrimRight(l)[0] == l[0]
    ensures |TrimRight(l)| <= |l| && forall g <- TrimRight(l) :: g in l
  {
    if l != [] && l[|l| - 1].Space? { TrimRightDrops(l[..|l| - 1]); }
  }

  lemma NormalizedIsPlain(title: Label)
    ensures Plain(NormalizeLabel(title))
  {
    var p := Printable(title);
    PrintableOnly(title);
    TrimLeftDrops(p);
    var t := TrimLeft(p);
    TrimRightDrops(t);
    var cleaned := TrimRight(t);
    assert forall g <- cleaned :: g in p;
    if |cleaned| > LABEL_MAX_LEN {
      var cut := cleaned[..LABEL_MAX_LEN];
      TrimRightDrops(cut);
      assert forall g <- cut :: g in cleaned;
    }
  }

  lemma {:induction false} PrintableIsPerGlyph(a: Label, b: Label)
    ensures Printable(a + b) == Printable(a) + Printable(b)
  {
    if a == [] {
      assert a + b == b;
    } else {
      assert (a + b)[1..] == a[1..] + b;
      PrintableIsPerGlyph(a[1..], b);
    }
  }

  predicate Blank(l: Label) { forall g <- l :: g.Space? }

  lemma {:induction false} TrimLeftKeeps(l: Label) returns (lead: Label)
    ensures l == lead + TrimLeft(l) && Blank(lead)
  {
    lead := [];
    if l != [] && l[0].Space? {
      lead := TrimLeftKeeps(l[1..]);
      lead := [l[0]] + lead;
    }
  }

  lemma {:induction false} TrimRightKeeps(l: Label) returns (tail: Label)
    ensures l == TrimRight(l) + tail && Blank(tail)
  {
    tail := [];
    if l != [] && l[|l| - 1].Space? {
      tail := TrimRightKeeps(l[..|l| - 1]);
      tail := tail + [l[|l| - 1]];
    }
  }

  /** `kept` is the printable text `p` but for blanks before it, blanks after it, and what follows those
      where text and blanks come to the maximum length. */
  ghost predicate Excerpt(kept: Label, p: Label, lead: Label, gap: Label, rest: Label) {
    && p == lead + kept + gap + rest && Blank(lead) && Blank(gap)
    && (rest != [] ==> kept != [] && |kept| + |gap| == LABEL_MAX_LEN)
  }

  /** Normalising loses nothing but unprintable characters, blanks at either end, and what is beyond the
      maximum length. */
  lemma NormalizeKeepsTheText(title: Label)
    ensures Plain(NormalizeLabel(title))
    ensures exists lead, gap, rest :: Excerpt(NormalizeLabel(title), Printable(title), lead, gap, rest)
  {
    NormalizedIsPlain(title);
    var p := Printable(title);
    TrimLeftDrops(p);
    var lead := TrimLeftKeeps(p);
    var tail := TrimRightKeeps(TrimLeft(p));
    TrimRightDrops(TrimLeft(p));
    var cleaned := TrimRight(TrimLeft(p));
    hide TrimLeft, TrimRight, Printable, Blank, Plain;
    assert p == lead + cleaned + tail;
    if |cleaned| > LABEL_MAX_LEN {
      CutIsExcerpt(cleaned, p, lead, tail);
    } else {
      NothingIsCut(cleaned, p, lead, tail);
    }
  }

  lemma NothingIsCut(cleaned: Label, p: Label, lead: Label, tail: Label)
    requires p == lead + cleaned + tail && Blank(lead) && Blank(tail)
    ensures Excerpt(cleaned, p, lead, tail, [])
  {}

  lemma CutIsExcerpt(cleaned: Label, p: Label, lead: Label, tail: Label)
    requires p == lead + cleaned + tail && Blank(lead) && |cleaned| > LABEL_MAX_LEN && !cleaned[0].Space?
    ensures exists gap, rest :: Excerpt(TrimRight(cleaned[..LABEL_MAX_LEN]), p, lead, gap, rest)
  {
    var cut := cleaned[..LABEL_MAX_LEN];
    var gap := TrimRightKeeps(cut);
    FirstGlyphStays(cut);
    hide TrimRight, Blank;
    assert cleaned == cut + cleaned[LABEL_MAX_LEN..];
    assert Excerpt(TrimRight(cut), p, lead, gap, cleaned[LABEL_MAX_LEN..] + tail);
  }

  lemma {:induction false} FirstGlyphStays(l: Label)
    requires l != [] && !l[0].Space?
    ensures TrimRight(l) != []
  {
    if l[|l| - 1].Space? { FirstGlyphStays(l[..|l| - 1]); }
  }

  lemma PlainIsUnchanged(title: Label)
    requires Plain(title)
    ensures NormalizeLabel(title) == title
  {
    PrintableOnly(title);
  }

  /** Normalising is idempotent, so the bound data can be rebuilt from a re-normalised label. */
  lemma NormalizeIsIdempotent(title: Label)
    ensures NormalizeLabel(NormalizeLabel(title)) == NormalizeLabel(title)
  {
    NormalizedIsPlain(title);
    PlainIsUnchanged(NormalizeLabel(title));
  }

  // ---------------------------------------------------------------- metadata and envelope

  datatype ProbeResult = Fresh | Stale | Uncertain | Failed

  datatype Saver = Agent | Human

  datatype Probe = Probe(url: string, selector: Option<string>, loggedOutPrefix: Option<string>)

  datatype Meta = Meta(
    jarId: JarId, title: Label, origins: seq<Origin>, allowlist: seq<Origin>, owner: Option<string>, mode: StorageMode,
    generation: int, invalidatedAt: Option<int>, lastProbeAt: Option<int>, lastProbeResult: Option<ProbeResult>,
    containsSession: bool, updatedAt: int, ttlAnchor: Option<int>,
    version: int, createdAt: int, lastLoadedAt: Option<int>, savedBy: Saver, stats: FilterStats)

  /** The associated data. The two origin lists are bound in sorted order, so as multisets. */
  datatype Bound = Bound(
    jarId: JarId, title: Label, origins: multiset<Origin>, allowlist: multiset<Origin>, owner: Option<string>, mode: StorageMode,
    generation: int, invalidatedAt: Option<int>, lastProbeAt: Option<int>, lastProbeResult: Option<ProbeResult>,
    containsSession: bool, updatedAt: int, ttlAnchor: Option<int>, key: Key)

  function BoundOf(m: Meta, key: Key): Bound {
    Bound(m.jarId, m.title, multiset(m.origins), multiset(m.allowlist), m.owner, m.mode, m.generation, m.invalidatedAt,
          m.lastProbeAt, m.lastProbeResult, m.containsSession, m.updatedAt, m.ttlAnchor, key)
  }

  datatype Payload = Payload(state: StorageState, probe: Probe)

  datatype Blob = Sealed(key: Key, payload: Payload, bound: Bound) | Garbled(text: nat)

  /** What is found at a jar's path: something that cannot be read or parsed, JSON whose metadata is
      invalid, or a record. */
  datatype JarFile = Unreadable | BadMeta(jarId: JarId) | Record(meta: Meta, keyId: Key, blob: Blob)

  datatype JarError = Disabled | NotFound | Invalid | Revoked | Rotation | Corruption | Interrupted

  datatype Result<+T> = Ok(value: T) | Err(error: JarError)

  datatype Opened = Opened(meta: Meta, payload: Payload)

  function MetaFromRecord(f: JarFile): Result<Meta> {
    if f.Record? then Ok(f.meta.(title := NormalizeLabel(f.meta.title))) else Err(Corruption)
  }

  function Decrypt(keys: seq<Key>, meta: Meta, f: JarFile): Result<Payload>
    requires f.Record?
  {
    if f.keyId !in keys then Err(Rotation)
    else if f.blob.Sealed? && f.blob.key == f.keyId && f.blob.bound == BoundOf(meta, f.keyId) then Ok(f.blob.payload)
    else Err(Corruption)
  }

  function Open(keys: seq<Key>, f: JarFile): Result<Opened> {
    var meta := MetaFromRecord(f);
    if meta.Err? then Err(meta.error)
    else
      var payload := Decrypt(keys, meta.value, f);
      if payload.Err? then Err(payload.error) else Ok(Opened(meta.value, payload.value))
  }

  function Seal(key: Key, meta: Meta, payload: Payload): JarFile {
    Record(meta, key, Sealed(key, payload, BoundOf(meta, key)))
  }

  /** A record the store seals opens again, to the metadata and payload that went in. */
  lemma SealThenOpen(keys: seq<Key>, meta: Meta, payload: Payload)
    requires keys != []
    ensures Open(keys, Seal(keys[0], meta.(title := NormalizeLabel(meta.title)), payload))
            == Ok(Opened(meta.(title := NormalizeLabel(meta.title)), payload))
  {
    NormalizeIsIdempotent(meta.title);
  }

  /** Opening a file whose blob was sealed over `sealedMeta` succeeds exactly when every bound field
      is as it was sealed, up to the order of the two origin lists and label normalisation. */
  lemma OpenDetectsTampering(keys: seq<Key>, key: Key, sealedMeta: Meta, payload: Payload, found: JarFile)
    requires found.Record? && key in keys && Plain(sealedMeta.title)
    requires found.blob == Sealed(key, payload, BoundOf(sealedMeta, key))
    ensures Open(keys, found).Ok? <==>
      && found.keyId == key
      && found.meta.jarId == sealedMeta.jarId
      && NormalizeLabel(found.meta.title) == sealedMeta.title
      && multiset(found.meta.origins) == multiset(sealedMeta.origins)
      && multiset(found.meta.allowlist) == multiset(sealedMeta.allowlist)
      && found.meta.owner == sealedMeta.owner && found.meta.mode == sealedMeta.mode
      && found.meta.generation == sealedMeta.generation && found.meta.invalidatedAt == sealedMeta.invalidatedAt
      && found.meta.lastProbeAt == sealedMeta.lastProbeAt && found.meta.lastProbeResult == sealedMeta.lastProbeResult
      && found.meta.containsSession == sealedMeta.containsSession
      && found.meta.updatedAt == sealedMeta.updatedAt && found.meta.ttlAnchor == sealedMeta.ttlAnchor
    ensures Open(keys, found).Ok? ==> Open(keys, found).value.payload == payload
  {
    PlainIsUnchanged(sealedMeta.title);
  }
}
