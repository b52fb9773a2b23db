/** What a jar may hold: which cookies and storage entries survive the declared origins, and how a
    refresh may narrow those origins. */
module CookieScope {
  import opened Tombstones
  import opened Numerals

  datatype Scheme = Http | Https

  /** A normalised web origin. A raw origin is `None` where normalisation rejects the text. */
  datatype Origin = Origin(scheme: Scheme, host: string, port: nat)

  type RawOrigin = Option<Origin>

  /** `expires` is in seconds; absent or negative marks a browser-session cookie. */
  datatype Cookie = Cookie(name: string, value: string, domain: string, secure: bool, expires: Option<int>)

  datatype StorageEntry = StorageEntry(origin: RawOrigin, items: seq<string>)

  datatype StorageState = StorageState(cookies: seq<Cookie>, origins: seq<StorageEntry>)

  datatype StorageMode = All | CookiesOnly

  /** The last second of year 9999, beyond which no date can be formed. */
  const MAX_TIMESTAMP: int := 253402300799

  // ---------------------------------------------------------------- domain matching

  function Lower(s: string): (r: string)
    ensures |r| == |s|
  {
    if s == "" then ""
    else [if 'A' <= s[0] <= 'Z' then (s[0] as int + 32) as char else s[0]] + Lower(s[1..])
  }

  function StripDots(s: string): string {
    if s != "" && s[0] == '.' then StripDots(s[1..]) else s
  }

  /** The domain as it is compared: without its leading dots and in lower case, otherwise as it stands. */
  lemma {:induction false} LowerIsPerChar(s: string, k: nat)
    requires k < |s|
    ensures Lower(s)[k] == if 'A' <= s[k] <= 'Z' then (s[k] as int + 32) as char else s[k]
  {
    if k > 0 { LowerIsPerChar(s[1..], k - 1); }
  }

  lemma {:induction false} StripDotsDrops(s: string) returns (n: nat)
    ensures n <= |s| && StripDots(s) == s[n..] && (forall k | 0 <= k < n :: s[k] == '.') && (n < |s| ==> s[n] != '.')
  {
    n := 0;
    if s != "" && s[0] == '.' {
      n := StripDotsDrops(s[1..]);
      n := n + 1;
      assert forall k | 0 < k < n :: s[k] == s[1..][k - 1];
    }
  }

  lemma ComparedDomain(domain: string)
    ensures var d := StripDots(Lower(domain));
      exists n :: 0 <= n <= |domain| && |d| == |domain| - n && (n < |domain| ==> domain[n] != '.')
        && (forall k | 0 <= k < n :: domain[k] == '.')
        && (forall k | n <= k < |domain| :: d[k - n] == if 'A' <= domain[k] <= 'Z' then (domain[k] as int + 32) as char else domain[k])
  {
    forall k | 0 <= k < |domain| ensures Lower(domain)[k] == if 'A' <= domain[k] <= 'Z' then (domain[k] as int + 32) as char else domain[k] {
      LowerIsPerChar(domain, k);
    }
    var n := StripDotsDrops(Lower(domain));
    assert n < |domain| ==> domain[n] != '.';
  }

  predicate EndsWith(s: string, suffix: string) {
    |suffix| <= |s| && s[|s| - |suffix|..] == suffix
  }

  predicate SentTo(c: Cookie, o: Origin) {
    var domain := StripDots(Lower(c.domain));
    && domain != ""
    && (if c.domain == "" || c.domain[0] != '.' then domain == o.host
        else o.host == domain || EndsWith(o.host, "." + domain))
    && (c.secure ==> o.scheme.Https?)
  }

  /** The labels of a host name, left to right. */
  function Labels(s: string): (r: seq<string>)
    ensures r != []
  {
    if s == "" then [""]
    else
      var rest := Labels(s[1..]);
      if s[0] == '.' then [""] + rest else [[s[0]] + rest[0]] + rest[1..]
  }

  function Dotted(labels: seq<string>): string
    requires labels != []
  {
    if |labels| == 1 then labels[0] else labels[0] + "." + Dotted(labels[1..])
  }

  lemma {:induction false} DottedLabels(s: string)
    ensures Dotted(Labels(s)) == s
  {
    if s != "" {
      DottedLabels(s[1..]);
      var rest := Labels(s[1..]);
      if s[0] == '.' {
        assert ([""] + rest)[1..] == rest;
      } else {
        var l := Labels(s);
        assert l[1..] == rest[1..];
        if |rest| > 1 { assert Dotted(l) == l[0] + "." + Dotted(rest[1..]); }
      }
      assert s == [s[0]] + s[1..];
    }
  }

  lemma LabelsStep(c: char, t: string)
    ensures Labels([c] + t) == if c == '.' then [""] + Labels(t) else [[c] + Labels(t)[0]] + Labels(t)[1..]
  {
    assert ([c] + t)[1..] == t;
  }

  lemma {:induction false} LabelsAfterDot(p: string, d: string)
    ensures Labels(p + "." + d) == Labels(p) + Labels(d)
  {
    if p == "" {
      assert p + "." + d == ['.'] + d;
      LabelsStep('.', d);
    } else {
      var t := p[1..] + "." + d;
      assert p + "." + d == [p[0]] + t;
      LabelsStep(p[0], t);
      LabelsAfterDot(p[1..], d);
      assert [p[0]] + p[1..] == p;
      LabelsStep(p[0], p[1..]);
      HeadThenRest(p[0], Labels(p[1..]), Labels(d));
    }
  }

  lemma HeadThenRest(c: char, l: seq<string>, r: seq<string>)
    requires l != []
    ensures [""] + (l + r) == ([""] + l) + r
    ensures [[c] + (l + r)[0]] + (l + r)[1..] == ([[c] + l[0]] + l[1..]) + r
  {
    assert (l + r)[0] == l[0] && (l + r)[1..] == l[1..] + r;
  }

  lemma {:induction false} DottedSplit(ls: seq<string>, k: nat)
    requires 0 < k < |ls|
    ensures Dotted(ls) == Dotted(ls[..k]) + "." + Dotted(ls[k..])
  {
    if k > 1 {
      DottedSplit(ls[1..], k - 1);
      assert ls[1..][..k - 1] == ls[..k][1..];
      assert ls[1..][k - 1..] == ls[k..];
    }
  }

  ghost predicate LabelSuffix(host: string, domain: string) {
    exists k | 0 <= k < |Labels(host)| :: Labels(host)[k..] == Labels(domain)
  }

  lemma TextMatchIsLabelSuffix(host: string, domain: string)
    requires host == domain || EndsWith(host, "." + domain)
    ensures LabelSuffix(host, domain)
  {
    var hl, dl := Labels(host), Labels(domain);
    if host == domain {
      assert hl[0..] == dl;
    } else {
      var p := host[..|host| - |domain| - 1];
      assert host == p + "." + domain;
      LabelsAfterDot(p, domain);
      assert hl[|Labels(p)|..] == dl;
    }
  }

  lemma LabelSuffixIsTextMatch(host: string, domain: string, k: nat)
    requires k < |Labels(host)| && Labels(host)[k..] == Labels(domain)
    ensures host == domain || EndsWith(host, "." + domain)
  {
    var hl := Labels(host);
    DottedLabels(host);
    DottedLabels(domain);
    if k == 0 {
      assert hl[0..] == hl;
    } else {
      DottedSplit(hl, k);
      var p := Dotted(hl[..k]);
      assert host == p + "." + domain;
      assert host[|host| - |domain| - 1..] == "." + domain;
    }
  }

  /** The textual test is a suffix test by labels. */
  lemma DomainMatchIsLabelSuffix(host: string, domain: string)
    ensures (host == domain || EndsWith(host, "." + domain)) <==> LabelSuffix(host, domain)
  {
    if host == domain || EndsWith(host, "." + domain) { TextMatchIsLabelSuffix(host, domain); }
    if LabelSuffix(host, domain) {
      var k :| 0 <= k < |Labels(host)| && Labels(host)[k..] == Labels(domain);
      LabelSuffixIsTextMatch(host, domain, k);
    }
  }

  // ---------------------------------------------------------------- hosts that are addresses

  predicate Digits(s: string) { s != "" && forall k | 0 <= k < |s| :: '0' <= s[k] <= '9' }

  /** A number up to 255 without leading zeros. */
  predicate Octet(s: string) {
    && Digits(s) && |s| <= 3 && (|s| > 1 ==> s[0] != '0')
    && (|s| == 3 ==> s[0] == '1' || (s[0] == '2' && (s[1] < '5' || (s[1] == '5' && s[2] <= '5'))))
  }

  /** The host is an IP address (section 3.2.2 of RFC 3986): four octets, or, brackets dropped, one that
      holds a colon. */
  predicate IsAddress(host: string) {
    ':' in host || (|Labels(host)| == 4 && forall l <- Labels(host) :: Octet(l))
  }

  ghost predicate ProperSuffix(host: string, domain: string) {
    exists k | 0 < k < |Labels(host)| :: Labels(host)[k..] == Labels(domain)
  }

  /** Domain matching as section 5.1.3 of RFC 6265 has it, by labels: the host itself, or a domain above
      it where the host is a name. */
  ghost predicate DomainMatches(host: string, domain: string) {
    host == domain || (ProperSuffix(host, domain) && !IsAddress(host))
  }

  lemma ProperSuffixIsShorter(host: string, domain: string)
    ensures ProperSuffix(host, domain) ==> host != domain
    ensures LabelSuffix(host, domain) <==> host == domain || ProperSuffix(host, domain)
  {
    if k :| 0 <= k < |Labels(host)| && Labels(host)[k..] == Labels(domain) {
      DottedLabels(host);
      DottedLabels(domain);
      if k == 0 { assert Labels(host)[0..] == Labels(host); }
    }
    if host == domain { assert Labels(host)[0..] == Labels(domain); }
  }

  /** The textual test agrees with that section exactly unless the host is an address and the domain a
      proper suffix of it; there the test succeeds and the section forbids the match. */
  lemma DomainMatchUnlessAddress(host: string, domain: string)
    ensures var matched := host == domain || EndsWith(host, "." + domain);
      && ((matched <==> DomainMatches(host, domain)) <==> !(IsAddress(host) && ProperSuffix(host, domain)))
      && (IsAddress(host) && ProperSuffix(host, domain) ==> matched)
  {
    DomainMatchIsLabelSuffix(host, domain);
    ProperSuffixIsShorter(host, domain);
    hide IsAddress, Labels, EndsWith;
  }

  /** What a browser sends to the origin: the domain attribute matches the host, or equals it where the
      cookie is host-only, and Secure needs https. */
  ghost predicate BrowserSends(c: Cookie, o: Origin) {
    var domain := StripDots(Lower(c.domain));
    && domain != ""
    && (c.secure ==> o.scheme.Https?)
    && (if c.domain[0] == '.' then DomainMatches(o.host, domain) else o.host == domain)
  }

  /** A dotted domain that is the tail of the origin's address. */
  ghost predicate TailOfAddress(c: Cookie, o: Origin) {
    var domain := StripDots(Lower(c.domain));
    && domain != "" && c.domain[0] == '.'
    && (c.secure ==> o.scheme.Https?)
    && IsAddress(o.host) && ProperSuffix(o.host, domain)
  }

  lemma SentUnlessAddress(c: Cookie, o: Origin)
    ensures SentTo(c, o) <==> BrowserSends(c, o) || TailOfAddress(c, o)
    ensures TailOfAddress(c, o) ==> !BrowserSends(c, o)
  {
    var domain := StripDots(Lower(c.domain));
    assert c.domain == "" ==> domain == "";
    DomainMatchUnlessAddress(o.host, domain);
    ProperSuffixIsShorter(o.host, domain);
    hide IsAddress, Labels, EndsWith, StripDots, ProperSuffix;
  }

  lemma {:induction false} OneLabel(s: string)
    requires '.' !in s
    ensures Labels(s) == [s]
  {
    if s != "" {
      OneLabel(s[1..]);
      assert s == [s[0]] + s[1..];
    }
  }

  lemma LabelsOfTheTail()
    ensures Labels("0.0.1") == ["0", "0", "1"] && Labels("10.0.0.1") == ["10", "0", "0", "1"]
  {
    assert "0.0.1" == "0" + "." + "0.1" && "0.1" == "0" + "." + "1" && "10.0.0.1" == "10" + "." + "0.0.1";
    LabelsAfterDot("10", "0.0.1");
    LabelsAfterDot("0", "0.1");
    LabelsAfterDot("0", "1");
    OneLabel("10");
    OneLabel("0");
    OneLabel("1");
    hide Labels;
  }

  /** A cookie for the tail of an address: no browser sends it to 10.0.0.1, and it is kept. */
  lemma AddressTailIsSent(c: Cookie, o: Origin)
    requires c.domain == ".0.0.1" && !c.secure && o.host == "10.0.0.1"
    ensures SentTo(c, o) && TailOfAddress(c, o) && !BrowserSends(c, o)
  {
    hide Labels, Lower, StripDots, SentTo, BrowserSends;
    TailIsStripped();
    LabelsOfTheTail();
    SentUnlessAddress(c, o);
    assert Labels(o.host)[1..] == Labels("0.0.1");
  }

  lemma TailIsStripped()
    ensures StripDots(Lower(".0.0.1")) == "0.0.1"
  {
    assert Lower("1") == "1";
    assert Lower(".1") == ".1";
    assert Lower("0.1") == "0.1";
    assert Lower(".0.1") == ".0.1";
    assert Lower("0.0.1") == "0.0.1";
    assert Lower(".0.0.1") == ".0.0.1";
  }

  // ---------------------------------------------------------------- filtering

  predicate SentToAny(c: Cookie, os: seq<Origin>) {
    exists o <- os :: SentTo(c, o)
  }

  function SiftCookies(cs: seq<Cookie>, os: seq<Origin>): seq<Cookie> {
    if cs == [] then []
    else
      var front := SiftCookies(cs[..|cs| - 1], os);
      if SentToAny(cs[|cs| - 1], os) then front + [cs[|cs| - 1]] else front
  }

  predicate Declared(e: StorageEntry, os: seq<Origin>) {
    e.origin.Some? && e.origin.value in os
  }

  function SiftStorage(es: seq<StorageEntry>, os: seq<Origin>): seq<StorageEntry> {
    if es == [] then []
    else
      var front := SiftStorage(es[..|es| - 1], os);
      if Declared(es[|es| - 1], os) then front + [es[|es| - 1]] else front
  }

  function Filtered(raw: StorageState, os: seq<Origin>, mode: StorageMode): StorageState {
    StorageState(SiftCookies(raw.cookies, os), if mode.All? then SiftStorage(raw.origins, os) else [])
  }

  function Valid(raws: seq<RawOrigin>): seq<Origin> {
    if raws == [] then []
    else Valid(raws[..|raws| - 1]) + (if raws[|raws| - 1].Some? then [raws[|raws| - 1].value] else [])
  }

  lemma {:induction false} ValidMembers(raws: seq<RawOrigin>)
    ensures forall o :: o in Valid(raws) <==> Some(o) in raws
  {
    if raws != [] {
      ValidMembers(raws[..|raws| - 1]);
      assert raws == raws[..|raws| - 1] + [raws[|raws| - 1]];
    }
  }

  /** What is no origin is passed over; order and repetitions stay. */
  lemma {:induction false} ValidIsPerOrigin(a: seq<RawOrigin>, b: seq<RawOrigin>)
    ensures Valid(a + b) == Valid(a) + Valid(b)
    decreases |b|
  {
    if b == [] {
      assert a + b == a;
    } else {
      assert (a + b)[..|a + b| - 1] == a + b[..|b| - 1];
      ValidIsPerOrigin(a, b[..|b| - 1]);
    }
  }

  predicate IsSession(c: Cookie) { c.expires.None? || c.expires.value < 0 }

  predicate Dated(c: Cookie) { c.expires.Some? && 0 <= c.expires.value <= MAX_TIMESTAMP }

  datatype FilterStats = FilterStats(
    cookieCount: nat, originStorageCount: nat, earliest: Option<int>, sessionOnly: bool, containsSession: bool)

  function Earliest(kept: seq<Cookie>): Option<int> {
    if kept == [] then None
    else
      var front, c := Earliest(kept[..|kept| - 1]), kept[|kept| - 1];
      if Dated(c) && (front.None? || c.expires.value < front.value) then c.expires else front
  }

  function StatsOf(kept: StorageState): FilterStats {
    FilterStats(|kept.cookies|, |kept.origins|, Earliest(kept.cookies),
                kept.cookies != [] && forall c <- kept.cookies :: IsSession(c),
                exists c <- kept.cookies :: IsSession(c))
  }

  /** The earliest expiry is attained by a kept cookie and undercut by none. */
  lemma {:induction false} EarliestIsLeast(kept: seq<Cookie>)
    ensures Earliest(kept).None? <==> forall c <- kept :: !Dated(c)
    ensures Earliest(kept).Some? ==>
              && (forall c <- kept :: Dated(c) ==> Earliest(kept).value <= c.expires.value)
              && (exists c <- kept :: Dated(c) && c.expires == Earliest(kept))
  {
    if kept != [] {
      var front, c := kept[..|kept| - 1], kept[|kept| - 1];
      EarliestIsLeast(front);
      assert forall x :: x in kept <==> x in front || x == c;
    }
  }

  method FilterStorageState(raw: StorageState, origins: seq<RawOrigin>, mode: StorageMode)
    returns (filtered: StorageState, stats: FilterStats)
    ensures filtered == Filtered(raw, Valid(origins), mode)
    ensures stats == StatsOf(filtered)
  {
    var parsed: seq<Origin> := [];
    for i := 0 to |origins|
      invariant parsed == Valid(origins[..i])
    {
      assert origins[..i + 1][..i] == origins[..i];
      if origins[i].None? { continue; }
      parsed := parsed + [origins[i].value];
    }
    assert origins[..|origins|] == origins;

    var kept, earliest, containsSession, persistent := KeepSent(raw.cookies, parsed);
    var storage: seq<StorageEntry> := [];
    if mode.All? { storage := KeepDeclared(raw.origins, parsed); }
    filtered := StorageState(kept, storage);
    stats := FilterStats(|kept|, |storage|, earliest, |kept| > 0 && persistent == 0, containsSession);
  }

  method KeepSent(cookies: seq<Cookie>, os: seq<Origin>)
    returns (kept: seq<Cookie>, earliest: Option<int>, containsSession: bool, persistent: nat)
    ensures kept == SiftCookies(cookies, os) && earliest == Earliest(kept)
    ensures containsSession <==> exists c <- kept :: IsSession(c)
    ensures persistent == 0 <==> forall c <- kept :: IsSession(c)
  {
    kept, earliest, containsSession, persistent := [], None, false, 0;
    for i := 0 to |cookies|
      invariant kept == SiftCookies(cookies[..i], os) && earliest == Earliest(kept)
      invariant containsSession <==> exists c <- kept :: IsSession(c)
      invariant persistent == 0 <==> forall c <- kept :: IsSession(c)
    {
      var cookie := cookies[i];
      assert cookies[..i + 1][..i] == cookies[..i];
      var sent := MatchesAny(cookie, os);
      if !sent { continue; }
      assert (kept + [cookie])[..|kept|] == kept;
      assert forall c :: c in kept + [cookie] <==> c in kept || c == cookie;
      kept := kept + [cookie];
      if IsSession(cookie) {
        containsSession := true;
      } else {
        persistent := persistent + 1;
        if Dated(cookie) && (earliest.None? || cookie.expires.value < earliest.value) { earliest := cookie.expires; }
      }
    }
    assert cookies[..|cookies|] == cookies;
  }

  method MatchesAny(c: Cookie, os: seq<Origin>) returns (sent: bool)
    ensures sent <==> SentToAny(c, os)
  {
    for j := 0 to |os|
      invariant forall o <- os[..j] :: !SentTo(c, o)
    {
      if SentTo(c, os[j]) { return true; }
    }
    sent := false;
  }

  method KeepDeclared(es: seq<StorageEntry>, os: seq<Origin>) returns (kept: seq<StorageEntry>)
    ensures kept == SiftStorage(es, os)
  {
    kept := [];
    for i := 0 to |es|
      invariant kept == SiftStorage(es[..i], os)
    {
      assert es[..i + 1][..i] == es[..i];
      if Declared(es[i], os) { kept := kept + [es[i]]; }
    }
    assert es[..|es|] == es;
  }

  /** Kept are exactly the cookies a browser would send to some declared origin and, where an origin is
      an address, those for a tail of it. */
  lemma KeptCookies(cs: seq<Cookie>, os: seq<Origin>, c: Cookie)
    ensures c in SiftCookies(cs, os) <==> c in cs && exists o <- os :: BrowserSends(c, o) || TailOfAddress(c, o)
    ensures (forall o <- os :: !IsAddress(o.host)) ==>
              (c in SiftCookies(cs, os) <==> c in cs && exists o <- os :: BrowserSends(c, o))
  {
    SiftMembers(cs, os, c);
    forall o: Origin ensures SentTo(c, o) <==> BrowserSends(c, o) || TailOfAddress(c, o) { SentUnlessAddress(c, o); }
    hide SentTo, BrowserSends, IsAddress;
  }

  /** Whether a cookie is kept depends on it alone; order and repetitions stay. */
  lemma {:induction false} SiftIsPerCookie(a: seq<Cookie>, b: seq<Cookie>, os: seq<Origin>)
    ensures SiftCookies(a + b, os) == SiftCookies(a, os) + SiftCookies(b, os)
    decreases |b|
  {
    if b == [] {
      assert a + b == a;
    } else {
      assert (a + b)[..|a + b| - 1] == a + b[..|b| - 1];
      SiftIsPerCookie(a, b[..|b| - 1], os);
    }
  }

  lemma {:induction false} SiftMembers(cs: seq<Cookie>, os: seq<Origin>, c: Cookie)
    ensures c in SiftCookies(cs, os) <==> c in cs && SentToAny(c, os)
  {
    if cs != [] {
      SiftMembers(cs[..|cs| - 1], os, c);
      assert cs == cs[..|cs| - 1] + [cs[|cs| - 1]];
    }
  }

  lemma {:induction false} StorageMembers(es: seq<StorageEntry>, os: seq<Origin>, e: StorageEntry)
    ensures e in SiftStorage(es, os) <==> e in es && Declared(e, os)
  {
    if es != [] {
      StorageMembers(es[..|es| - 1], os, e);
      assert es == es[..|es| - 1] + [es[|es| - 1]];
    }
  }

  lemma {:induction false} StorageIsPerEntry(a: seq<StorageEntry>, b: seq<StorageEntry>, os: seq<Origin>)
    ensures SiftStorage(a + b, os) == SiftStorage(a, os) + SiftStorage(b, os)
    decreases |b|
  {
    if b == [] {
      assert a + b == a;
    } else {
      assert (a + b)[..|a + b| - 1] == a + b[..|b| - 1];
      StorageIsPerEntry(a, b[..|b| - 1], os);
    }
  }

  /** Exactly the storage of declared origins is kept, none at all where only cookies are wanted. */
  lemma KeptStorage(raw: StorageState, os: seq<Origin>, mode: StorageMode, e: StorageEntry)
    ensures e in Filtered(raw, os, mode).origins <==> mode == All && e in raw.origins && exists o <- os :: e.origin == Some(o)
  {
    StorageMembers(raw.origins, os, e);
  }

  /** The statistics match the kept state: the two counts, whether a cookie that ends with the browser is
      in it or only such ones are, and the earliest date on which a dated cookie ends. */
  lemma StatisticsMatch(raw: StorageState, os: seq<Origin>, mode: StorageMode)
    ensures var kept, stats := Filtered(raw, os, mode), StatsOf(Filtered(raw, os, mode));
      && stats.cookieCount == |kept.cookies| && stats.originStorageCount == |kept.origins|
      && (stats.containsSession <==> exists c <- kept.cookies :: c.expires.None? || c.expires.value < 0)
      && (stats.sessionOnly <==> kept.cookies != [] && forall c <- kept.cookies :: c.expires.None? || c.expires.value < 0)
      && (stats.earliest.None? <==> forall c <- kept.cookies | c.expires.Some? :: c.expires.value < 0 || c.expires.value > 253402300799)
      && (stats.earliest.Some? ==>
            && (exists c <- kept.cookies :: c.expires == stats.earliest && 0 <= c.expires.value <= 253402300799)
            && (forall c <- kept.cookies | c.expires.Some? && c.expires.value >= 0 :: stats.earliest.value <= c.expires.value))
  {
    hide SiftCookies, SiftStorage;
    EarliestIsLeast(Filtered(raw, os, mode).cookies);
  }

  /** Nothing in the state reaches beyond the declared origins. */
  ghost predicate Contained(state: StorageState, os: set<Origin>, mode: StorageMode) {
    && (forall c <- state.cookies :: exists o <- os :: SentTo(c, o))
    && (forall e <- state.origins :: e.origin.Some? && e.origin.value in os)
    && (mode.CookiesOnly? ==> state.origins == [])
  }

  lemma FilteredIsContained(raw: StorageState, os: seq<Origin>, all: set<Origin>, mode: StorageMode)
    requires forall o <- os :: o in all
    ensures Contained(Filtered(raw, os, mode), all, mode)
  {
    forall c <- Filtered(raw, os, mode).cookies ensures exists o <- all :: SentTo(c, o) { SiftMembers(raw.cookies, os, c); }
    forall e <- Filtered(raw, os, mode).origins ensures Declared(e, os) { StorageMembers(raw.origins, os, e); }
  }

  lemma {:induction false} SiftNested(cs: seq<Cookie>, wide: seq<Origin>, narrow: seq<Origin>)
    requires forall o <- narrow :: o in wide
    ensures SiftCookies(SiftCookies(cs, wide), narrow) == SiftCookies(cs, narrow)
  {
    if cs != [] {
      var front, c := cs[..|cs| - 1], cs[|cs| - 1];
      SiftNested(front, wide, narrow);
      var w := SiftCookies(front, wide);
      if SentToAny(c, wide) { assert (w + [c])[..|w|] == w; }
    }
  }

  lemma {:induction false} SiftStorageNested(es: seq<StorageEntry>, wide: seq<Origin>, narrow: seq<Origin>)
    requires forall o <- narrow :: o in wide
    ensures SiftStorage(SiftStorage(es, wide), narrow) == SiftStorage(es, narrow)
  {
    if es != [] {
      var front, e := es[..|es| - 1], es[|es| - 1];
      SiftStorageNested(front, wide, narrow);
      var w := SiftStorage(front, wide);
      if Declared(e, wide) { assert (w + [e])[..|w|] == w; }
    }
  }

  predicate NoWider(narrow: StorageMode, wide: StorageMode) { narrow.CookiesOnly? || wide.All? }

  /** Filtering composes: first to a wider scope, then to a narrower one, is the narrower one. */
  lemma FilteringComposes(raw: StorageState, wide: seq<Origin>, wideMode: StorageMode, narrow: seq<Origin>, mode: StorageMode)
    requires forall o <- narrow :: o in wide
    requires NoWider(mode, wideMode)
    ensures Filtered(Filtered(raw, wide, wideMode), narrow, mode) == Filtered(raw, narrow, mode)
  {
    SiftNested(raw.cookies, wide, narrow);
    SiftStorageNested(raw.origins, wide, narrow);
  }

  // ---------------------------------------------------------------- the scope of a refresh

  datatype Scope = Scope(origins: seq<Origin>, allowlist: seq<Origin>, mode: StorageMode)

  datatype ScopeResult = Resolved(scope: Scope) | Rejected

  predicate TextBefore(a: string, b: string) {
    if a == "" then b != "" else b != "" && (a[0] < b[0] || (a[0] == b[0] && TextBefore(a[1..], b[1..])))
  }

  /** The origin as it is written: an address with colons in brackets, the port where it is not the
      scheme's own. */
  function Written(o: Origin): string {
    (if o.scheme.Http? then "http" else "https") + "://" + (if ':' in o.host then "[" + o.host + "]" else o.host)
    + (if o.port == (if o.scheme.Http? then 80 else 443) then "" else ":" + Decimal(o.port))
  }

  predicate Before(a: Origin, b: Origin) { TextBefore(Written(a), Written(b)) }

  function InsertUnique(o: Origin, sorted: seq<Origin>): (r: seq<Origin>)
    ensures forall x :: x in r <==> x == o || x in sorted
  {
    if o in sorted then sorted
    else if sorted == [] then [o]
    else if Before(o, sorted[0]) then [o] + sorted
    else [sorted[0]] + InsertUnique(o, sorted[1..])
  }

  /** `sorted(set(xs))`. */
  function SortedSet(xs: seq<Origin>): (r: seq<Origin>)
    ensures forall x :: x in r <==> x in xs
  {
    if xs == [] then [] else InsertUnique(xs[0], SortedSet(xs[1..]))
  }

  lemma {:induction false} NotBeforeIsTransitive(a: string, b: string, c: string)
    requires !TextBefore(b, a) && !TextBefore(c, b)
    ensures !TextBefore(c, a)
  {
    if a != "" && b != "" && c != "" && a[0] == b[0] == c[0] { NotBeforeIsTransitive(a[1..], b[1..], c[1..]); }
  }

  lemma {:induction false} BeforeIsOneWay(a: string, b: string)
    requires TextBefore(a, b)
    ensures !TextBefore(b, a)
  {
    if a != "" && a[0] == b[0] { BeforeIsOneWay(a[1..], b[1..]); }
  }

  /** Each origin once, in the order of their texts. */
  ghost predicate Ascending(os: seq<Origin>) {
    forall i, j | 0 <= i < j < |os| :: os[i] != os[j] && !Before(os[j], os[i])
  }

  lemma {:induction false} InsertAscends(o: Origin, sorted: seq<Origin>)
    requires Ascending(sorted)
    ensures Ascending(InsertUnique(o, sorted))
  {
    if o in sorted || sorted == [] {
    } else if Before(o, sorted[0]) {
      BeforeIsOneWay(Written(o), Written(sorted[0]));
      forall j | 0 <= j < |sorted| ensures !Before(sorted[j], o) {
        if j > 0 { NotBeforeIsTransitive(Written(o), Written(sorted[0]), Written(sorted[j])); }
      }
    } else {
      InsertAscends(o, sorted[1..]);
      var rest := InsertUnique(o, sorted[1..]);
      forall j | 0 <= j < |rest| ensures sorted[0] != rest[j] && !Before(rest[j], sorted[0]) {
        assert rest[j] == o || rest[j] in sorted[1..];
      }
    }
  }

  lemma {:induction false} SortedSetAscends(xs: seq<Origin>)
    ensures Ascending(SortedSet(xs))
  {
    if xs != [] {
      SortedSetAscends(xs[1..]);
      InsertAscends(xs[0], SortedSet(xs[1..]));
    }
  }

  predicate Within(a: seq<Origin>, b: seq<Origin>) { forall o <- a :: o in b }

  function ResolveOrigins(stored: seq<Origin>, requested: seq<RawOrigin>): Option<seq<Origin>> {
    if requested == [] then Some(stored)
    else
      var valid := Valid(requested);
      if valid == [] || !Within(valid, stored) then None else Some(SortedSet(valid))
  }

  function ResolveAllowlist(stored: seq<Origin>, requested: Option<seq<RawOrigin>>): Option<seq<Origin>> {
    if requested.None? then Some(stored)
    else
      var valid := Valid(requested.value);
      if (requested.value != [] && valid == []) || !Within(valid, stored) then None else Some(SortedSet(valid))
  }

  function ResolveRefreshScope(stored: Scope, origins: seq<RawOrigin>, nav: Option<seq<RawOrigin>>, mode: Option<StorageMode>)
    : ScopeResult
  {
    var os := ResolveOrigins(stored.origins, origins);
    var al := ResolveAllowlist(stored.allowlist, nav);
    if os.None? || al.None? then Rejected
    else if mode == Some(All) && stored.mode.CookiesOnly? then Rejected
    else Resolved(Scope(os.value, al.value, if mode.None? then stored.mode else mode.value))
  }

  predicate Narrows(a: Scope, b: Scope) {
    Within(a.origins, b.origins) && Within(a.allowlist, b.allowlist) && NoWider(a.mode, b.mode)
  }

  /** A refresh succeeds exactly when every request that was made names something valid and stays
      inside the stored scope, and then yields the request where one was made, the storage mode included,
      and what is stored where none was. */
  lemma RefreshOnlyNarrows(stored: Scope, origins: seq<RawOrigin>, nav: Option<seq<RawOrigin>>, mode: Option<StorageMode>)
    ensures var r := ResolveRefreshScope(stored, origins, nav, mode);
      && (r.Resolved? <==>
            && (origins == [] || exists o :: Some(o) in origins)
            && (nav.None? || nav.value == [] || exists o :: Some(o) in nav.value)
            && (forall o :: Some(o) in origins ==> o in stored.origins)
            && (nav.Some? ==> forall o :: Some(o) in nav.value ==> o in stored.allowlist)
            && !(mode == Some(All) && stored.mode == CookiesOnly))
      && (r.Resolved? ==>
            && Narrows(r.scope, stored)
            && (forall o :: o in r.scope.origins <==> if origins == [] then o in stored.origins else Some(o) in origins)
            && (forall o :: o in r.scope.allowlist <==> if nav.None? then o in stored.allowlist else Some(o) in nav.value)
            && (stored.origins != [] ==> r.scope.origins != [])
            && r.scope.mode == (if mode.Some? then mode.value else stored.mode))
  {
    ValidMembers(origins);
    if nav.Some? { ValidMembers(nav.value); }
    var valid := Valid(origins);
    if valid != [] { assert Some(valid[0]) in origins; }
    if nav.Some? && Valid(nav.value) != [] { assert Some(Valid(nav.value)[0]) in nav.value; }
    if origins != [] && valid != [] { assert valid[0] in SortedSet(valid); }
  }

  /** Requested origins come out each once and in the order of their texts, stored ones as they are. */
  lemma RefreshListsAreSorted(stored: Scope, origins: seq<RawOrigin>, nav: Option<seq<RawOrigin>>, mode: Option<StorageMode>)
    requires ResolveRefreshScope(stored, origins, nav, mode).Resolved?
    ensures var scope := ResolveRefreshScope(stored, origins, nav, mode).scope;
      && (if origins == [] then scope.origins == stored.origins else Ascending(scope.origins))
      && (if nav.None? then scope.allowlist == stored.allowlist else Ascending(scope.allowlist))
  {
    SortedSetAscends(Valid(origins));
    if nav.Some? { SortedSetAscends(Valid(nav.value)); }
    hide Ascending, SortedSet;
  }

  lemma NarrowsIsTransitive(a: Scope, b: Scope, c: Scope)
    requires Narrows(a, b) && Narrows(b, c)
    ensures Narrows(a, c)
  {}
}
