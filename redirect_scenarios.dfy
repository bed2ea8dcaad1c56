/**
 * The fixture pools of the resolver's tests, and what the model says about
 * the requests those tests make.
 */
module RedirectScenarios {
  import opened Options
  import opened PoolConfig
  import opened WeightedChoice
  import opened RedirectLogic

  const Pool1: PoolEntry := PoolEntry(
    Some([Candidate("domain-a.xyz", 2), Candidate("domain-b.xyz", 1)]),
    Some([
      PathRule("news/", [Candidate("domain-c.xyz", 2), Candidate("domain-d.xyz", 1)]),
      PathRule("contact/", [Candidate("domain-e.xyz", 2), Candidate("domain-f.xyz", 1)])]),
    Some(map["X-Custom-Header" := "Value"]),
    {})

  const Pool2: PoolEntry := PoolEntry(
    Some([Candidate("domain-g.xyz", 2), Candidate("domain-h.xyz", 1)]),
    None, None, {})

  const TestPools: PoolTable := map["pool1" := Pool1, "pool2" := Pool2]

  /** A path under `news/` selects the `news/` list, not the default one. */
  lemma NewsPathUsesNewsDomains()
    ensures SelectCandidates(Pool1, "news/article1")
      == [Candidate("domain-c.xyz", 2), Candidate("domain-d.xyz", 1)]
  {
    assert StartsWith("news/article1", "news/");
    FirstMatchingRuleWins(Pool1, "news/article1", 0);
  }

  /** So a `news/` request redirects to one of the two `news/` domains, with the pool's header. */
  lemma NewsRequestRedirectsToNewsDomain(draw: nat)
    requires draw < 3
    ensures DrawInRange(TestPools, "pool1", "news/article1", draw)
    ensures var res := Resolve(TestPools, "pool1", "news/article1", "", draw);
      && res.errorMessage.None?
      && (StartsWith(res.newUrl.value, "https://" + "domain-c.xyz")
          || StartsWith(res.newUrl.value, "https://" + "domain-d.xyz"))
      && res.customHeaders == Some(map["X-Custom-Header" := "Value"])
  {
    NewsPathUsesNewsDomains();
    var c := [Candidate("domain-c.xyz", 2), Candidate("domain-d.xyz", 1)];
    assert TestPools["pool1"] == Pool1 && !Pool1.IsEmpty();
    assert TotalWeight(c) == 3;
    RedirectTargetsCandidate(TestPools, "pool1", "news/article1", "", draw);
    var res := Resolve(TestPools, "pool1", "news/article1", "", draw);
    var i :| 0 <= i < |c| && res.newUrl == Some(BuildUrl(c[i].domain, "news/article1", ""));
    UrlStartsWithDomain(c[i].domain, "news/article1", "");
  }

  /** A path under `contact/` skips the non-matching `news/` rule and uses the `contact/` list. */
  lemma ContactPathUsesContactDomains()
    ensures SelectCandidates(Pool1, "contact/info")
      == [Candidate("domain-e.xyz", 2), Candidate("domain-f.xyz", 1)]
  {
    assert !StartsWith("contact/info", "news/") by {
      assert "contact/info"[0] != "news/"[0];
    }
    assert StartsWith("contact/info", "contact/");
    FirstMatchingRuleWins(Pool1, "contact/info", 1);
  }

  /** A path matching no prefix uses the default list. */
  lemma OtherPathUsesDefaultDomains()
    ensures SelectCandidates(Pool1, "other/path")
      == [Candidate("domain-a.xyz", 2), Candidate("domain-b.xyz", 1)]
  {
    assert !StartsWith("other/path", "news/") by {
      assert "other/path"[0] != "news/"[0];
    }
    assert !StartsWith("other/path", "contact/") by {
      assert "other/path"[0] != "contact/"[0];
    }
    NoMatchingRuleFallsBack(Pool1, "other/path");
  }

  /** So a `contact/` request redirects to one of the two `contact/` domains, with the pool's header. */
  lemma ContactRequestRedirectsToContactDomain(draw: nat)
    requires draw < 3
    ensures DrawInRange(TestPools, "pool1", "contact/info", draw)
    ensures var res := Resolve(TestPools, "pool1", "contact/info", "", draw);
      && res.errorMessage.None?
      && (StartsWith(res.newUrl.value, "https://" + "domain-e.xyz")
          || StartsWith(res.newUrl.value, "https://" + "domain-f.xyz"))
      && res.customHeaders == Some(map["X-Custom-Header" := "Value"])
  {
    ContactPathUsesContactDomains();
    var c := [Candidate("domain-e.xyz", 2), Candidate("domain-f.xyz", 1)];
    assert TestPools["pool1"] == Pool1 && !Pool1.IsEmpty();
    assert TotalWeight(c) == 3;
    RedirectTargetsCandidate(TestPools, "pool1", "contact/info", "", draw);
    var res := Resolve(TestPools, "pool1", "contact/info", "", draw);
    var i :| 0 <= i < |c| && res.newUrl == Some(BuildUrl(c[i].domain, "contact/info", ""));
    UrlStartsWithDomain(c[i].domain, "contact/info", "");
  }

  /** So a request matching no prefix redirects to one of the default domains, with the pool's header. */
  lemma OtherRequestRedirectsToDefaultDomain(draw: nat)
    requires draw < 3
    ensures DrawInRange(TestPools, "pool1", "other/path", draw)
    ensures var res := Resolve(TestPools, "pool1", "other/path", "", draw);
      && res.errorMessage.None?
      && (StartsWith(res.newUrl.value, "https://" + "domain-a.xyz")
          || StartsWith(res.newUrl.value, "https://" + "domain-b.xyz"))
      && res.customHeaders == Some(map["X-Custom-Header" := "Value"])
  {
    OtherPathUsesDefaultDomains();
    var c := [Candidate("domain-a.xyz", 2), Candidate("domain-b.xyz", 1)];
    assert TestPools["pool1"] == Pool1 && !Pool1.IsEmpty();
    assert TotalWeight(c) == 3;
    RedirectTargetsCandidate(TestPools, "pool1", "other/path", "", draw);
    var res := Resolve(TestPools, "pool1", "other/path", "", draw);
    var i :| 0 <= i < |c| && res.newUrl == Some(BuildUrl(c[i].domain, "other/path", ""));
    UrlStartsWithDomain(c[i].domain, "other/path", "");
  }

  /**
   * A request to pool2, which has no `custom_headers`, redirects to one of its
   * default domains with an empty header map.
   */
  lemma PoolWithoutHeadersReturnsEmptyHeaders(draw: nat)
    requires draw < 3
    ensures DrawInRange(TestPools, "pool2", "some/path", draw)
    ensures var res := Resolve(TestPools, "pool2", "some/path", "", draw);
      && res.errorMessage.None?
      && (StartsWith(res.newUrl.value, "https://" + "domain-g.xyz")
          || StartsWith(res.newUrl.value, "https://" + "domain-h.xyz"))
      && res.customHeaders == Some(map[])
  {
    var c := [Candidate("domain-g.xyz", 2), Candidate("domain-h.xyz", 1)];
    assert TestPools["pool2"] == Pool2 && !Pool2.IsEmpty();
    assert SelectCandidates(Pool2, "some/path") == c;
    assert TotalWeight(c) == 3;
    RedirectTargetsCandidate(TestPools, "pool2", "some/path", "", draw);
    var res := Resolve(TestPools, "pool2", "some/path", "", draw);
    var i :| 0 <= i < |c| && res.newUrl == Some(BuildUrl(c[i].domain, "some/path", ""));
    UrlStartsWithDomain(c[i].domain, "some/path", "");
  }

  /** An unknown pool identifier yields "Pool not found". */
  lemma UnknownPoolIsNotFound(path: string, queryParams: string, draw: nat)
    ensures DrawInRange(TestPools, "pool3", path, draw)
    ensures Resolve(TestPools, "pool3", path, queryParams, draw)
      == Resolution(None, None, Some("Pool not found"))
  {
    assert "pool3" !in TestPools by {
      assert "pool3" != "pool1" by { assert "pool3"[4] != "pool1"[4]; }
      assert "pool3" != "pool2" by { assert "pool3"[4] != "pool2"[4]; }
    }
  }

  /** With weights 2 and 1, the first domain is picked for two of the three draws and the second for one. */
  lemma WeightsTwoToOne()
    ensures var c := Pool2.DefaultCandidates();
      && |set r | r in DrawRange(0, TotalWeight(c)) && Pick(c, r) == 0| == 2
      && |set r | r in DrawRange(0, TotalWeight(c)) && Pick(c, r) == 1| == 1
  {
    DrawsOwnedByCandidate(Pool2.DefaultCandidates(), 0);
    DrawsOwnedByCandidate(Pool2.DefaultCandidates(), 1);
  }

  /** A one-domain pool redirects `x` with no query to `https://a.com/x` with no headers. */
  lemma SingleDomainPool()
    ensures var pools := map["p" := PoolEntry(Some([Candidate("a.com", 1)]), None, None, {})];
      && DrawInRange(pools, "p", "x", 0)
      && Resolve(pools, "p", "x", "", 0) == Resolution(Some("https://a.com/x"), Some(map[]), None)
  {
    assert Pick([Candidate("a.com", 1)], 0) == 0;
    assert BuildUrl("a.com", "x", "") == "https://a.com/x";
  }
}
