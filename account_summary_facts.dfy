/**
 * What `_parse_account_summary` promises about its output as a whole: tanks
 * come out in source order, site by site, one for each object entry of a
 * well-formed site; malformed shapes only remove tanks; and a well-formed
 * entry is read back field for field.
 */
module AccountSummaryFacts {
  import opened Wrappers
  import opened Json
  import opened Api
  import opened AccountSummary

  /** The place of a tank entry in the payload: (site index, index in that site's `IPSummary`). */
  type Position = (nat, nat)

  /** The entry at (i, j) is one the parser turns into a tank. */
  predicate IsTankEntry(sites: seq<Json>, i: nat, j: nat)
  {
    i < |sites| && j < |EntriesOf(sites[i])| && EntriesOf(sites[i])[j].JObject?
  }

  /** The tank the entry at (i, j) becomes. */
  function TankAt(sites: seq<Json>, i: nat, j: nat, parseDateTime: DateTimeParser, parseDate: DateParser): TankData
    requires IsTankEntry(sites, i, j)
  {
    var site := sites[i].entries;
    var siteId := SiteId(i, site);
    TankFromEntry(siteId, SiteName(site, siteId), j, EntriesOf(sites[i])[j].entries, parseDateTime, parseDate)
  }

  /** Lexicographic order on positions: site first, then entry. */
  predicate Before(a: Position, b: Position)
  {
    a.0 < b.0 || (a.0 == b.0 && a.1 < b.1)
  }

  /** The positions of the tank entries among the first `m` entries of site `i`. */
  function EntryPositions(sites: seq<Json>, i: nat, m: nat): seq<Position>
    requires i < |sites| && m <= |EntriesOf(sites[i])|
  {
    if m == 0 then []
    else EntryPositions(sites, i, m - 1) + (if EntriesOf(sites[i])[m - 1].JObject? then [(i, m - 1)] else [])
  }

  /** The positions of the tank entries of the first `n` sites. */
  function Positions(sites: seq<Json>, n: nat): seq<Position>
    requires n <= |sites|
  {
    if n == 0 then []
    else Positions(sites, n - 1) + EntryPositions(sites, n - 1, |EntriesOf(sites[n - 1])|)
  }

  /** Every position names an entry the parser turns into a tank. */
  ghost predicate OnlyTankEntries(sites: seq<Json>, pos: seq<Position>)
  {
    forall p :: 0 <= p < |pos| ==> IsTankEntry(sites, pos[p].0, pos[p].1)
  }

  /** Positions strictly increase: source order, site by site. */
  ghost predicate Increasing(pos: seq<Position>)
  {
    forall p, q :: 0 <= p < q < |pos| ==> Before(pos[p], pos[q])
  }

  /** Every tank entry of the first `n` sites has its position listed. */
  ghost predicate CoversSites(sites: seq<Json>, pos: seq<Position>, n: nat)
  {
    forall i: nat, j: nat :: i < n && IsTankEntry(sites, i, j) ==> (i, j) in pos
  }

  /** The k-th tank is the parse of the entry at the k-th position. */
  ghost predicate ParsesAt(sites: seq<Json>, tanks: seq<TankData>, pos: seq<Position>,
                     parseDateTime: DateTimeParser, parseDate: DateParser)
  {
    && |tanks| == |pos|
    && OnlyTankEntries(sites, pos)
    && forall p :: 0 <= p < |pos| ==>
         IsTankEntry(sites, pos[p].0, pos[p].1) &&
         tanks[p] == TankAt(sites, pos[p].0, pos[p].1, parseDateTime, parseDate)
  }

  /** The entry positions of one site name only its tank entries, in increasing order, and all of them. */
  lemma {:induction false} EntryPositionsExact(sites: seq<Json>, i: nat, m: nat)
    requires i < |sites| && m <= |EntriesOf(sites[i])|
    ensures OnlyTankEntries(sites, EntryPositions(sites, i, m))
    ensures forall p :: 0 <= p < |EntryPositions(sites, i, m)| ==>
      EntryPositions(sites, i, m)[p].0 == i && EntryPositions(sites, i, m)[p].1 < m
    ensures Increasing(EntryPositions(sites, i, m))
    ensures forall j: nat :: j < m && IsTankEntry(sites, i, j) ==> (i, j) in EntryPositions(sites, i, m)
  {
    if m > 0 {
      EntryPositionsExact(sites, i, m - 1);
    }
  }

  /** The positions of the first `n` sites name only tank entries, in increasing order, and all of them. */
  lemma {:induction false} PositionsExact(sites: seq<Json>, n: nat)
    requires n <= |sites|
    ensures OnlyTankEntries(sites, Positions(sites, n))
    ensures forall p :: 0 <= p < |Positions(sites, n)| ==> Positions(sites, n)[p].0 < n
    ensures Increasing(Positions(sites, n))
    ensures CoversSites(sites, Positions(sites, n), n)
  {
    if n > 0 {
      PositionsExact(sites, n - 1);
      var i := n - 1;
      EntryPositionsExact(sites, i, |EntriesOf(sites[i])|);
      var prev := Positions(sites, i);
      var here := EntryPositions(sites, i, |EntriesOf(sites[i])|);
      var pos := prev + here;
      assert pos == Positions(sites, n);
      forall p | 0 <= p < |pos|
        ensures pos[p].0 < n && IsTankEntry(sites, pos[p].0, pos[p].1)
      {
        if p < |prev| {
          assert pos[p] == prev[p];
        } else {
          assert pos[p] == here[p - |prev|];
        }
      }
      forall p, q | 0 <= p < q < |pos|
        ensures Before(pos[p], pos[q])
      {
        if q < |prev| {
          assert pos[p] == prev[p] && pos[q] == prev[q];
        } else if p < |prev| {
          assert pos[p] == prev[p] && pos[q] == here[q - |prev|];
        } else {
          assert pos[p] == here[p - |prev|] && pos[q] == here[q - |prev|];
        }
      }
      forall i': nat, j: nat | i' < n && IsTankEntry(sites, i', j)
        ensures (i', j) in pos
      {
        if i' < i {
          assert (i', j) in prev;
        } else {
          assert (i', j) in here;
        }
      }
    }
  }

  /** The tanks of one site are the parses of the entries at its positions. */
  lemma {:induction false} EntryTanksAtPositions(sites: seq<Json>, i: nat, m: nat,
                                                  parseDateTime: DateTimeParser, parseDate: DateParser)
    requires i < |sites| && sites[i].JObject? && m <= |EntriesOf(sites[i])|
    ensures ParsesAt(sites,
                     EntryTanks(SiteId(i, sites[i].entries), SiteName(sites[i].entries, SiteId(i, sites[i].entries)),
                                EntriesOf(sites[i]), m, parseDateTime, parseDate),
                     EntryPositions(sites, i, m), parseDateTime, parseDate)
  {
    EntryPositionsExact(sites, i, m);
    if m > 0 {
      EntryTanksAtPositions(sites, i, m - 1, parseDateTime, parseDate);
      var siteId := SiteId(i, sites[i].entries);
      var siteName := SiteName(sites[i].entries, siteId);
      var entries := EntriesOf(sites[i]);
      var prevTanks := EntryTanks(siteId, siteName, entries, m - 1, parseDateTime, parseDate);
      var prev := EntryPositions(sites, i, m - 1);
      if entries[m - 1].JObject? {
        assert EntryPositions(sites, i, m) == prev + [(i, m - 1)];
        assert EntryTanks(siteId, siteName, entries, m, parseDateTime, parseDate)
            == prevTanks + [TankAt(sites, i, m - 1, parseDateTime, parseDate)];
      } else {
        assert EntryPositions(sites, i, m) == prev;
      }
    }
  }

  /** The tanks of the first `n` sites are the parses of the entries at their positions. */
  lemma {:induction false} SitesTanksAtPositions(sites: seq<Json>, n: nat,
                                                  parseDateTime: DateTimeParser, parseDate: DateParser)
    requires n <= |sites|
    ensures ParsesAt(sites, SitesTanks(sites, n, parseDateTime, parseDate), Positions(sites, n), parseDateTime, parseDate)
  {
    if n > 0 {
      SitesTanksAtPositions(sites, n - 1, parseDateTime, parseDate);
      var i := n - 1;
      var m := |EntriesOf(sites[i])|;
      var prevTanks := SitesTanks(sites, i, parseDateTime, parseDate);
      var prev := Positions(sites, i);
      var here := EntryPositions(sites, i, m);
      var hereTanks := SiteTanks(i, sites[i], parseDateTime, parseDate);
      if sites[i].JObject? {
        EntryTanksAtPositions(sites, i, m, parseDateTime, parseDate);
      } else {
        assert m == 0 && here == [] && hereTanks == [];
      }
      ParsesAtAppend(sites, prevTanks, prev, hereTanks, here, parseDateTime, parseDate);
      assert prevTanks + hereTanks == SitesTanks(sites, n, parseDateTime, parseDate);
      assert prev + here == Positions(sites, n);
    }
  }

  /** Parses at positions concatenate: tanks after tanks at positions after positions. */
  lemma ParsesAtAppend(sites: seq<Json>, tanks1: seq<TankData>, pos1: seq<Position>,
                       tanks2: seq<TankData>, pos2: seq<Position>,
                       parseDateTime: DateTimeParser, parseDate: DateParser)
    requires ParsesAt(sites, tanks1, pos1, parseDateTime, parseDate)
    requires ParsesAt(sites, tanks2, pos2, parseDateTime, parseDate)
    ensures ParsesAt(sites, tanks1 + tanks2, pos1 + pos2, parseDateTime, parseDate)
  {
    var tanks := tanks1 + tanks2;
    var pos := pos1 + pos2;
    forall p | 0 <= p < |pos|
      ensures IsTankEntry(sites, pos[p].0, pos[p].1)
      ensures tanks[p] == TankAt(sites, pos[p].0, pos[p].1, parseDateTime, parseDate)
    {
      if p < |pos1| {
        assert pos[p] == pos1[p] && tanks[p] == tanks1[p];
      } else {
        assert pos[p] == pos2[p - |pos1|] && tanks[p] == tanks2[p - |pos1|];
      }
    }
  }

  /**
   * Tanks come out in source order, site by site: the k-th tank is the parse
   * of the k-th object entry of a well-formed site, positions strictly
   * increase, and no object entry of a well-formed site is dropped.
   */
  lemma TanksInSourceOrder(accountId: string, payload: seq<(string, Json)>,
                           parseDateTime: DateTimeParser, parseDate: DateParser)
    ensures ParsesAt(SiteList(payload), ParsedAccount(accountId, payload, parseDateTime, parseDate).tanks,
                     Positions(SiteList(payload), |SiteList(payload)|), parseDateTime, parseDate)
    ensures Increasing(Positions(SiteList(payload), |SiteList(payload)|))
    ensures CoversSites(SiteList(payload), Positions(SiteList(payload), |SiteList(payload)|), |SiteList(payload)|)
  {
    var sites := SiteList(payload);
    PositionsExact(sites, |sites|);
    SitesTanksAtPositions(sites, |sites|, parseDateTime, parseDate);
  }

  /** Every parsed tank has a non-empty identity and no delivery attached. */
  lemma ParsedTanksHaveIdentity(accountId: string, payload: seq<(string, Json)>,
                                parseDateTime: DateTimeParser, parseDate: DateParser)
    ensures forall t :: t in ParsedAccount(accountId, payload, parseDateTime, parseDate).tanks ==>
      t.installedProductId != "" && t.lastDelivery.None?
  {
    TanksInSourceOrder(accountId, payload, parseDateTime, parseDate);
  }

  /** A `SiteSummary` that is not a list yields no tanks. */
  lemma NonListSiteSummaryYieldsNoTanks(accountId: string, payload: seq<(string, Json)>,
                                        parseDateTime: DateTimeParser, parseDate: DateParser)
    requires !GetOr(payload, "SiteSummary", JArray([])).JArray?
    ensures ParsedAccount(accountId, payload, parseDateTime, parseDate).tanks == []
  {
  }

  /** A site that is not an object, or whose `IPSummary` is not a list, contributes no tanks. */
  lemma MalformedSiteContributesNothing(sites: seq<Json>, i: nat, parseDateTime: DateTimeParser, parseDate: DateParser)
    requires i < |sites|
    requires !sites[i].JObject? || !GetOr(sites[i].entries, "IPSummary", JArray([])).JArray?
    ensures SitesTanks(sites, i + 1, parseDateTime, parseDate) == SitesTanks(sites, i, parseDateTime, parseDate)
  {
    if sites[i].JObject? {
      assert EntriesOf(sites[i]) == [];
    }
  }

  /**
   * The fallback identity uses the raw index in `IPSummary`, skipped entries
   * included: at site "S1", the object at index 2 is "S1_2".
   */
  lemma FallbackIdCountsSkippedEntries(parseDateTime: DateTimeParser, parseDate: DateParser)
    ensures
      var site := JObject([("SiteId", JString("S1")), ("IPSummary", JArray([JNull, JObject([]), JObject([])]))]);
      var tanks := SiteTanks(0, site, parseDateTime, parseDate);
      |tanks| == 2 && tanks[0].installedProductId == "S1_1" && tanks[1].installedProductId == "S1_2"
  {
    var entries := [JNull, JObject([]), JObject([])];
    var site := JObject([("SiteId", JString("S1")), ("IPSummary", JArray(entries))]);
    assert "SiteId"[0] != "IPSummary"[0];
    LookupAt(site.entries, 1);
    assert EntriesOf(site) == entries;
    assert SiteId(0, site.entries) == "S1";
    assert NatToString(1) == "1" && NatToString(2) == "2";
    var siteName := SiteName(site.entries, "S1");
    var first := TankFromEntry("S1", siteName, 1, [], parseDateTime, parseDate);
    var second := TankFromEntry("S1", siteName, 2, [], parseDateTime, parseDate);
    assert EntryTanks("S1", siteName, entries, 1, parseDateTime, parseDate) == [];
    assert EntryTanks("S1", siteName, entries, 2, parseDateTime, parseDate) == [first];
    assert EntryTanks("S1", siteName, entries, 3, parseDateTime, parseDate) == [first, second];
    assert SiteTanks(0, site, parseDateTime, parseDate) == [first, second];
    assert first.installedProductId == "S1" + "_" + "1";
    assert second.installedProductId == "S1" + "_" + "2";
  }

  /** The parser does not deduplicate: two entries with one identity both come out. */
  lemma DuplicateIdentitiesAreKept(parseDateTime: DateTimeParser, parseDate: DateParser)
    ensures
      var tank := JObject([("InstalledProductId", JString("A"))]);
      var site := JObject([("IPSummary", JArray([tank, tank]))]);
      var tanks := SiteTanks(0, site, parseDateTime, parseDate);
      |tanks| == 2 && tanks[0].installedProductId == tanks[1].installedProductId == "A"
  {
  }

  /** A number as it appears in the payload: its value, with `repr` giving its text. */
  function NumberJson(x: Option<real>, repr: real -> string): Json
  {
    if x.Some? then JFloat(x.value, repr(x.value)) else JNull
  }

  /** The tank entry a well-formed payload holds for tank `t`; its timestamp is written as `dateText`. */
  function EncodeTank(t: TankData, dateText: string, repr: real -> string): seq<(string, Json)>
  {
    [ ("InstalledProductId", JString(t.installedProductId)),
      ("ProductDescription", JString(t.productDescription)),
      ("ProductId", if t.productId.Some? then JString(t.productId.value) else JNull),
      ("FullCapacity", NumberJson(t.fullCapacity, repr)),
      ("FillCapacity", NumberJson(t.fillCapacity, repr)),
      ("EstCurrPct", NumberJson(t.estCurrPct, repr)),
      ("EstimatedPercentageDate", if t.estimatedPercentageDate.Some? then JString(dateText) else JNull) ]
  }

  /**
   * Round trip: a well-formed tank entry is read back exactly. The record
   * must have a non-empty identity and description, an aware timestamp that
   * `dateText` parses to, and no delivery.
   */
  lemma TankRoundTrip(t: TankData, tankIndex: nat, dateText: string, repr: real -> string,
                      parseDateTime: DateTimeParser, parseDate: DateParser)
    requires t.installedProductId != "" && t.productDescription != "" && t.lastDelivery.None?
    requires t.estimatedPercentageDate.Some? ==>
      dateText != "" && t.estimatedPercentageDate.value.tz.Some? && parseDateTime(dateText) == t.estimatedPercentageDate
    ensures TankFromEntry(t.siteId, t.siteName, tankIndex, EncodeTank(t, dateText, repr), parseDateTime, parseDate) == t
  {
    var e := EncodeTank(t, dateText, repr);
    assert "InstalledProductId"[0] != "ProductDescription"[0];
    assert "InstalledProductId"[0] != "ProductId"[0];
    assert |"ProductDescription"| != |"ProductId"|;
    assert "FullCapacity"[1] != "FillCapacity"[1];
    assert |"EstCurrPct"| != |"EstimatedPercentageDate"|;
    LookupAt(e, 0);
    LookupAt(e, 1);
    LookupAt(e, 2);
    LookupAt(e, 3);
    LookupAt(e, 4);
    LookupAt(e, 5);
    LookupAt(e, 6);
  }
}
