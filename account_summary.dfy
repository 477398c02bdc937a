/**
 * `_parse_account_summary`: the walk over `SiteSummary[*].IPSummary[*]` that
 * turns the provider's loosely typed account JSON into an `AccountData`.
 * The functions below specify the result site by site and tank by tank; the
 * method is the source's nested loop, proved to build exactly that result.
 */
module AccountSummary {
  import opened Wrappers
  import opened Json
  import opened Api

  /** The balance: present exactly when `FinancialSummary` is an object whose `Balance` is a number. */
  function Balance(payload: seq<(string, Json)>): (r: Option<real>)
    ensures r.Some? <==>
      Get(payload, "FinancialSummary").JObject? && IsNumber(Get(Get(payload, "FinancialSummary").entries, "Balance"))
    ensures r.Some? ==> r == ToFloat(Get(Get(payload, "FinancialSummary").entries, "Balance"))
  {
    var financialSummary := Get(payload, "FinancialSummary");
    if financialSummary.JObject? then ToFloat(Get(financialSummary.entries, "Balance")) else None
  }

  /** The account name: `str` of `Name` when that key is present (even as null), else the account id. */
  function AccountName(accountId: string, payload: seq<(string, Json)>): (r: string)
    ensures Lookup(payload, "Name").None? ==> r == accountId
    ensures Lookup(payload, "Name").Some? ==> r == Str(Lookup(payload, "Name").value)
  {
    Str(GetOr(payload, "Name", JString(accountId)))
  }

  /** The sites: `SiteSummary` when it is a list (absent reads as empty), else none. */
  function SiteList(payload: seq<(string, Json)>): seq<Json>
  {
    var siteSummary := GetOr(payload, "SiteSummary", JArray([]));
    if siteSummary.JArray? then siteSummary.items else []
  }

  /** The site id: `str(SiteId)` when truthy, else `site_{index}`. */
  function SiteId(siteIndex: nat, site: seq<(string, Json)>): (r: string)
    ensures Truthy(Get(site, "SiteId")) ==> r == Str(Get(site, "SiteId"))
    ensures !Truthy(Get(site, "SiteId")) ==> r == "site_" + NatToString(siteIndex)
  {
    var siteId := Get(site, "SiteId");
    Str(if Truthy(siteId) then siteId else JString("site_" + NatToString(siteIndex)))
  }

  /** The site name: the first truthy of `SiteName`, `Address1`, else the site id. */
  function SiteName(site: seq<(string, Json)>, siteId: string): (r: string)
    ensures Truthy(Get(site, "SiteName")) ==> r == Str(Get(site, "SiteName"))
    ensures !Truthy(Get(site, "SiteName")) && Truthy(Get(site, "Address1")) ==> r == Str(Get(site, "Address1"))
    ensures !Truthy(Get(site, "SiteName")) && !Truthy(Get(site, "Address1")) ==> r == siteId
  {
    var siteName := Get(site, "SiteName");
    var address := Get(site, "Address1");
    Str(if Truthy(siteName) then siteName else if Truthy(address) then address else JString(siteId))
  }

  /** The raw tank entries of a site: its `IPSummary` list, or none when the site or that list is malformed. */
  function EntriesOf(site: Json): seq<Json>
  {
    if site.JObject? then
      var ipSummary := GetOr(site.entries, "IPSummary", JArray([]));
      if ipSummary.JArray? then ipSummary.items else []
    else []
  }

  /**
   * The tank's identity: a non-empty string `InstalledProductId` as given,
   * otherwise `{site_id}_{tank_index}`; never empty.
   */
  function InstalledProductId(siteId: string, tankIndex: nat, tank: seq<(string, Json)>): (r: string)
    ensures r != ""
    ensures Get(tank, "InstalledProductId").JString? && Get(tank, "InstalledProductId").s != "" ==>
      r == Get(tank, "InstalledProductId").s
    ensures !(Get(tank, "InstalledProductId").JString? && Get(tank, "InstalledProductId").s != "") ==>
      r == siteId + "_" + NatToString(tankIndex)
  {
    var installedProductId := Get(tank, "InstalledProductId");
    if installedProductId.JString? && installedProductId.s != "" then installedProductId.s
    else siteId + "_" + NatToString(tankIndex)
  }

  /** The product description: `str(ProductDescription)` when truthy, else the generic label. */
  function ProductDescription(tank: seq<(string, Json)>): (r: string)
    ensures Truthy(Get(tank, "ProductDescription")) ==> r == Str(Get(tank, "ProductDescription"))
    ensures !Truthy(Get(tank, "ProductDescription")) ==> r == DefaultProductDescription
  {
    var description := Get(tank, "ProductDescription");
    Str(if Truthy(description) then description else JString(DefaultProductDescription))
  }

  /** The product id: absent for a missing or null `ProductId`, a string as given, anything else as its `str()`. */
  function ProductId(tank: seq<(string, Json)>): (r: Option<string>)
    ensures r.None? <==> Get(tank, "ProductId").JNull?
    ensures Get(tank, "ProductId").JString? ==> r == Some(Get(tank, "ProductId").s)
    ensures !Get(tank, "ProductId").JNull? && !Get(tank, "ProductId").JString? ==> r == Some(Str(Get(tank, "ProductId")))
  {
    var productId := Get(tank, "ProductId");
    if productId.JNull? then None
    else if productId.JString? then Some(productId.s)
    else Some(Str(productId))
  }

  /** The record built for the tank entry at `tankIndex` of a site; the parser leaves `last_delivery` absent. */
  function TankFromEntry(siteId: string, siteName: string, tankIndex: nat, tank: seq<(string, Json)>,
                         parseDateTime: DateTimeParser, parseDate: DateParser): TankData
  {
    TankData(
      installedProductId := InstalledProductId(siteId, tankIndex, tank),
      siteId := siteId,
      siteName := siteName,
      productDescription := ProductDescription(tank),
      productId := ProductId(tank),
      fullCapacity := ToFloat(Get(tank, "FullCapacity")),
      fillCapacity := ToFloat(Get(tank, "FillCapacity")),
      estCurrPct := ToFloat(Get(tank, "EstCurrPct")),
      estimatedPercentageDate := ParseDatetime(Get(tank, "EstimatedPercentageDate"), parseDateTime, parseDate),
      lastDelivery := None)
  }

  /** The tanks of the first `n` entries of one site; non-object entries are skipped but still counted in the index. */
  function EntryTanks(siteId: string, siteName: string, entries: seq<Json>, n: nat,
                      parseDateTime: DateTimeParser, parseDate: DateParser): seq<TankData>
    requires n <= |entries|
  {
    if n == 0 then []
    else
      EntryTanks(siteId, siteName, entries, n - 1, parseDateTime, parseDate) +
      (if entries[n - 1].JObject?
       then [TankFromEntry(siteId, siteName, n - 1, entries[n - 1].entries, parseDateTime, parseDate)]
       else [])
  }

  /** The tanks of the site at `siteIndex`. */
  function SiteTanks(siteIndex: nat, site: Json, parseDateTime: DateTimeParser, parseDate: DateParser): seq<TankData>
  {
    if site.JObject? then
      var siteId := SiteId(siteIndex, site.entries);
      var entries := EntriesOf(site);
      EntryTanks(siteId, SiteName(site.entries, siteId), entries, |entries|, parseDateTime, parseDate)
    else []
  }

  /** The tanks of the first `n` sites, site by site. */
  function SitesTanks(sites: seq<Json>, n: nat, parseDateTime: DateTimeParser, parseDate: DateParser): seq<TankData>
    requires n <= |sites|
  {
    if n == 0 then []
    else SitesTanks(sites, n - 1, parseDateTime, parseDate) + SiteTanks(n - 1, sites[n - 1], parseDateTime, parseDate)
  }

  /** The account data `_parse_account_summary` builds. */
  function ParsedAccount(accountId: string, payload: seq<(string, Json)>,
                         parseDateTime: DateTimeParser, parseDate: DateParser): AccountData
  {
    var sites := SiteList(payload);
    AccountData(accountId, AccountName(accountId, payload), Balance(payload),
                SitesTanks(sites, |sites|, parseDateTime, parseDate))
  }

  /** `_parse_account_summary`: the nested loop over sites and their tank entries. It never fails. */
  method ParseAccountSummary(accountId: string, payload: seq<(string, Json)>,
                             parseDateTime: DateTimeParser, parseDate: DateParser)
    returns (data: AccountData)
    ensures data == ParsedAccount(accountId, payload, parseDateTime, parseDate)
  {
    var balance := Balance(payload);
    var accountName := AccountName(accountId, payload);

    var tanks: seq<TankData> := [];
    var siteSummary := GetOr(payload, "SiteSummary", JArray([]));
    if !siteSummary.JArray? {
      siteSummary := JArray([]);
    }
    var sites := siteSummary.items;
    assert sites == SiteList(payload);

    for siteIndex := 0 to |sites|
      invariant tanks == SitesTanks(sites, siteIndex, parseDateTime, parseDate)
    {
      var site := sites[siteIndex];
      assert SitesTanks(sites, siteIndex + 1, parseDateTime, parseDate)
          == tanks + SiteTanks(siteIndex, site, parseDateTime, parseDate);
      if !site.JObject? {
        continue;
      }

      var siteId := SiteId(siteIndex, site.entries);
      var siteName := SiteName(site.entries, siteId);

      var ipSummary := GetOr(site.entries, "IPSummary", JArray([]));
      if !ipSummary.JArray? {
        continue;
      }
      var entries := ipSummary.items;
      assert entries == EntriesOf(site);
      ghost var before := tanks;

      for tankIndex := 0 to |entries|
        invariant tanks == before + EntryTanks(siteId, siteName, entries, tankIndex, parseDateTime, parseDate)
      {
        var tank := entries[tankIndex];
        if !tank.JObject? {
          continue;
        }

        var parsed := ParseTank(siteId, siteName, tankIndex, tank.entries, parseDateTime, parseDate);
        tanks := tanks + [parsed];
        assert tanks == before + (EntryTanks(siteId, siteName, entries, tankIndex, parseDateTime, parseDate) + [parsed]);
      }
    }

    data := AccountData(accountId, accountName, balance, tanks);
  }

  /**
   * The body of the inner loop: the record for one tank entry of a site,
   * with the identity and product id reassigned step by step as the source
   * does; it builds the record the field functions specify.
   */
  method ParseTank(siteId: string, siteName: string, tankIndex: nat, tank: seq<(string, Json)>,
                   parseDateTime: DateTimeParser, parseDate: DateParser)
    returns (parsed: TankData)
    ensures parsed == TankFromEntry(siteId, siteName, tankIndex, tank, parseDateTime, parseDate)
  {
    var installedProductId := Get(tank, "InstalledProductId");
    var id: string;
    if installedProductId.JString? && installedProductId.s != "" {
      id := installedProductId.s;
    } else {
      id := siteId + "_" + NatToString(tankIndex);
    }

    var productDescription := ProductDescription(tank);

    var productIdValue := Get(tank, "ProductId");
    var productId: Option<string> := None;
    if !productIdValue.JNull? {
      productId := Some(if productIdValue.JString? then productIdValue.s else Str(productIdValue));
    }

    var fullCapacity := ToFloat(Get(tank, "FullCapacity"));
    var fillCapacity := ToFloat(Get(tank, "FillCapacity"));
    var estCurrPct := ToFloat(Get(tank, "EstCurrPct"));

    var estimatedPercentageDate :=
      ParseDatetime(Get(tank, "EstimatedPercentageDate"), parseDateTime, parseDate);

    parsed := TankData(
      installedProductId := id,
      siteId := siteId,
      siteName := siteName,
      productDescription := productDescription,
      productId := productId,
      fullCapacity := fullCapacity,
      fillCapacity := fillCapacity,
      estCurrPct := estCurrPct,
      estimatedPercentageDate := estimatedPercentageDate,
      lastDelivery := None);
  }
}
