/**
 * The redirection resolver: given the pool table, a pool identifier, a path,
 * a raw query string and the client address, it either fails with one of two
 * messages or yields a target URL and the pool's custom headers. Every call
 * emits exactly one structured log record.
 *
 * The clock reading (`now`) and the uniform random draw (`draw`) are
 * parameters; the module-level logger is an explicit `Logger` object.
 */
module RedirectLogic {
  import opened Options
  import opened PoolConfig
  import opened WeightedChoice

  const PoolNotFoundMessage: string := "Pool not found"
  const NoDomainsMessage: string := "No domains available for redirection"

  /** The fields every log record of a call shares. */
  datatype CommonLogData = CommonLogData(
    poolId: string,
    requestedPath: string,
    clientIp: string,
    datetime: string)

  /** The event-specific part of a log record. */
  datatype LogEvent =
    | ErrorEvent(errorMessage: string)
    | RedirectEvent(redirectedTo: string, customHeaders: map<string, string>)

  /** One structured log record (a JSON object with the common keys plus `event`). */
  datatype LogRecord = LogRecord(common: CommonLogData, event: LogEvent)

  datatype Severity = Info | Error

  /** One emission on the logger: its severity and its record. */
  datatype Emission = Emission(severity: Severity, record: LogRecord)

  /** The `redirect_service` logger, seen as the sequence of what it has emitted. */
  class Logger {
    var emitted: seq<Emission>

    constructor ()
      ensures emitted == []
    {
      emitted := [];
    }

    /** `logger.error(...)`: appends one error-level record. */
    method LogError(record: LogRecord)
      modifies this
      ensures emitted == old(emitted) + [Emission(Error, record)]
    {
      emitted := emitted + [Emission(Error, record)];
    }

    /** `logger.info(...)`: appends one info-level record. */
    method LogInfo(record: LogRecord)
      modifies this
      ensures emitted == old(emitted) + [Emission(Info, record)]
    {
      emitted := emitted + [Emission(Info, record)];
    }
  }

  /** The log fields of one call; `now` is the ISO-8601 UTC clock reading. */
  function ConstructLogData(poolId: string, path: string, clientIp: string, now: string): (d: CommonLogData)
    ensures d.poolId == poolId && d.requestedPath == path && d.clientIp == clientIp
    ensures d.datetime == now
  {
    CommonLogData(poolId, path, clientIp, now)
  }

  /**
   * The redirect target `https://{domain}/{path}`, followed by `?{query}`
   * exactly when the query string is non-empty; nothing is re-encoded.
   */
  function BuildUrl(domain: string, path: string, queryParams: string): (url: string)
    ensures |url| >= 9 + |domain| + |path|
    ensures url[..8] == "https://"
    ensures url[8..8 + |domain|] == domain && url[8 + |domain|] == '/'
    ensures url[9 + |domain|..9 + |domain| + |path|] == path
    ensures queryParams == [] <==> |url| == 9 + |domain| + |path|
    ensures queryParams != [] ==>
      url[9 + |domain| + |path|] == '?' && url[10 + |domain| + |path|..] == queryParams
  {
    var base := "https://" + domain + "/" + path;
    if queryParams != [] then base + "?" + queryParams else base
  }

  /** A built URL starts with the scheme and the chosen domain. */
  lemma UrlStartsWithDomain(domain: string, path: string, queryParams: string)
    ensures StartsWith(BuildUrl(domain, path, queryParams), "https://" + domain)
  {
    var url := BuildUrl(domain, path, queryParams);
    assert url[..8 + |domain|] == url[..8] + url[8..8 + |domain|];
  }

  /** The result triple `(new_url, custom_headers, error_message)`. */
  datatype Resolution = Resolution(
    newUrl: Option<string>,
    customHeaders: Option<map<string, string>>,
    errorMessage: Option<string>)

  /** `domain_pools.get(pool_id)` yields a non-empty entry. */
  predicate PoolFound(pools: PoolTable, poolId: string)
    ensures PoolFound(pools, poolId) <==>
      poolId in pools && pools[poolId] != PoolEntry(None, None, None, {})
  {
    poolId in pools && !pools[poolId].IsEmpty()
  }

  /**
   * The draw lies below the total weight of the candidate list that a weighted
   * choice would be made from (and so that total is positive). Nothing is
   * demanded when resolution fails before the choice.
   */
  predicate DrawInRange(pools: PoolTable, poolId: string, path: string, draw: nat) {
    PoolFound(pools, poolId) && SelectCandidates(pools[poolId], path) != [] ==>
      draw < TotalWeight(SelectCandidates(pools[poolId], path))
  }

  /**
   * The outcome of resolving one request for a given draw: exactly one of a
   * URL with headers, or one of the two error messages.
   */
  function Resolve(pools: PoolTable, poolId: string, path: string, queryParams: string, draw: nat): (res: Resolution)
    requires DrawInRange(pools, poolId, path, draw)
    ensures res.newUrl.Some? <==> res.errorMessage.None?
    ensures res.customHeaders.Some? <==> res.errorMessage.None?
    ensures res.errorMessage.Some? ==>
      res.errorMessage.value == PoolNotFoundMessage || res.errorMessage.value == NoDomainsMessage
  {
    if !PoolFound(pools, poolId) then
      Resolution(None, None, Some(PoolNotFoundMessage))
    else
      var entry := pools[poolId];
      var candidates := SelectCandidates(entry, path);
      if candidates == [] then
        Resolution(None, None, Some(NoDomainsMessage))
      else
        var domain := candidates[Pick(candidates, draw)].domain;
        Resolution(Some(BuildUrl(domain, path, queryParams)), Some(entry.Headers()), None)
  }

  /**
   * The `for ... break ... else` search over `path_based_domains`: the list of
   * the first rule whose prefix starts the path, else the default list.
   */
  method SelectDomains(poolConfig: PoolEntry, path: string) returns (selectedDomains: seq<Candidate>)
    ensures selectedDomains == SelectCandidates(poolConfig, path)
  {
    var rules := poolConfig.Rules();
    var i := 0;
    while i < |rules|
      invariant i <= |rules|
      invariant forall j :: 0 <= j < i ==> !StartsWith(path, rules[j].prefix)
    {
      if StartsWith(path, rules[i].prefix) {
        FirstMatchingRuleWins(poolConfig, path, i);
        return rules[i].candidates;
      }
      i := i + 1;
    }
    NoMatchingRuleFallsBack(poolConfig, path);
    selectedDomains := poolConfig.DefaultCandidates();
  }

  /**
   * One redirection request: returns what `Resolve` describes for the draw and
   * appends exactly one record to the logger, an error record carrying the
   * returned message or an info record carrying the returned URL and headers.
   */
  method PerformRedirection(
    poolId: string, path: string, queryParams: string, clientIp: string,
    pools: PoolTable, now: string, draw: nat, logger: Logger)
    returns (newUrl: Option<string>, customHeaders: Option<map<string, string>>, errorMessage: Option<string>)
    requires DrawInRange(pools, poolId, path, draw)
    modifies logger
    ensures Resolution(newUrl, customHeaders, errorMessage) == Resolve(pools, poolId, path, queryParams, draw)
    ensures logger.emitted == old(logger.emitted) + [
      var common := ConstructLogData(poolId, path, clientIp, now);
      if errorMessage.Some? then
        Emission(Error, LogRecord(common, ErrorEvent(errorMessage.value)))
      else
        Emission(Info, LogRecord(common, RedirectEvent(newUrl.value, customHeaders.value)))]
  {
    var poolConfig := if poolId in pools then Some(pools[poolId]) else None;
    var commonLogData := ConstructLogData(poolId, path, clientIp, now);

    if poolConfig.None? || poolConfig.value.IsEmpty() {
      logger.LogError(LogRecord(commonLogData, ErrorEvent(PoolNotFoundMessage)));
      return None, None, Some(PoolNotFoundMessage);
    }

    var entry := poolConfig.value;
    var selectedDomains := SelectDomains(entry, path);

    if selectedDomains == [] {
      logger.LogError(LogRecord(commonLogData, ErrorEvent(NoDomainsMessage)));
      return None, None, Some(NoDomainsMessage);
    }

    var i := ChooseIndex(selectedDomains, draw);
    OwnerIsUnique(selectedDomains, i, Pick(selectedDomains, draw), draw);
    var url := BuildUrl(selectedDomains[i].domain, path, queryParams);
    var headers := entry.Headers();

    logger.LogInfo(LogRecord(commonLogData, RedirectEvent(url, headers)));
    return Some(url), Some(headers), None;
  }

  /** "Pool not found" is returned exactly for an absent or empty pool entry. */
  lemma PoolNotFoundIff(pools: PoolTable, poolId: string, path: string, queryParams: string, draw: nat)
    requires DrawInRange(pools, poolId, path, draw)
    ensures Resolve(pools, poolId, path, queryParams, draw) == Resolution(None, None, Some(PoolNotFoundMessage))
      <==> !PoolFound(pools, poolId)
  {
    assert PoolNotFoundMessage != NoDomainsMessage by {
      assert |PoolNotFoundMessage| != |NoDomainsMessage|;
    }
  }

  /**
   * "No domains available for redirection" is returned exactly when the pool
   * exists and the selected candidate list is empty.
   */
  lemma NoDomainsIff(pools: PoolTable, poolId: string, path: string, queryParams: string, draw: nat)
    requires DrawInRange(pools, poolId, path, draw)
    ensures Resolve(pools, poolId, path, queryParams, draw) == Resolution(None, None, Some(NoDomainsMessage))
      <==> PoolFound(pools, poolId) && SelectCandidates(pools[poolId], path) == []
  {
    assert PoolNotFoundMessage != NoDomainsMessage by {
      assert |PoolNotFoundMessage| != |NoDomainsMessage|;
    }
  }

  /**
   * A matching prefix whose own list is empty yields the no-domains error,
   * whatever the default list holds: there is no fall-back once a prefix matches.
   */
  lemma MatchedEmptyRuleHasNoFallback(pools: PoolTable, poolId: string, path: string, queryParams: string, draw: nat, i: nat)
    requires PoolFound(pools, poolId)
    requires i < |pools[poolId].Rules()| && StartsWith(path, pools[poolId].Rules()[i].prefix)
    requires forall j :: 0 <= j < i ==> !StartsWith(path, pools[poolId].Rules()[j].prefix)
    requires pools[poolId].Rules()[i].candidates == []
    ensures DrawInRange(pools, poolId, path, draw)
    ensures Resolve(pools, poolId, path, queryParams, draw).errorMessage == Some(NoDomainsMessage)
  {
    FirstMatchingRuleWins(pools[poolId], path, i);
  }

  /**
   * On success the URL targets a candidate of the selected list with a positive
   * weight, the headers are the pool's custom headers, and there is no error.
   */
  lemma RedirectTargetsCandidate(pools: PoolTable, poolId: string, path: string, queryParams: string, draw: nat)
    requires DrawInRange(pools, poolId, path, draw)
    requires PoolFound(pools, poolId) && SelectCandidates(pools[poolId], path) != []
    ensures var res := Resolve(pools, poolId, path, queryParams, draw);
      var candidates := SelectCandidates(pools[poolId], path);
      && res.errorMessage.None?
      && res.customHeaders == Some(pools[poolId].Headers())
      && exists i :: 0 <= i < |candidates| && candidates[i].weight > 0
           && res.newUrl == Some(BuildUrl(candidates[i].domain, path, queryParams))
  {
    var candidates := SelectCandidates(pools[poolId], path);
    var i := Pick(candidates, draw);
    assert candidates[i].weight > 0;
  }

  /** Every candidate of the selected list with a positive weight is the target for some draw. */
  lemma EveryWeightedCandidateReachable(pools: PoolTable, poolId: string, path: string, queryParams: string, i: nat)
    requires PoolFound(pools, poolId)
    requires i < |SelectCandidates(pools[poolId], path)|
    requires SelectCandidates(pools[poolId], path)[i].weight > 0
    ensures var candidates := SelectCandidates(pools[poolId], path);
      var draw := WeightBefore(candidates, i);
      && DrawInRange(pools, poolId, path, draw)
      && Resolve(pools, poolId, path, queryParams, draw).newUrl
           == Some(BuildUrl(candidates[i].domain, path, queryParams))
  {
    PositiveWeightIsReachable(SelectCandidates(pools[poolId], path), i);
  }
}
