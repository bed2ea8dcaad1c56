/**
 * The pool table the redirect service reads: one entry per pool identifier,
 * each with a default candidate list, ordered path-prefix overrides and
 * custom response headers.
 */
module PoolConfig {
  import opened Options

  /** One `[domain, weight]` pair of a candidate list. */
  datatype Candidate = Candidate(domain: string, weight: nat)

  /** One entry of `path_based_domains`: a path prefix and the candidate list it selects. */
  datatype PathRule = PathRule(prefix: string, candidates: seq<Candidate>)

  /**
   * A pool entry as a dictionary: each of the three keys the resolver reads is
   * present or absent, and `otherKeys` holds any further keys the entry carries.
   * `path_based_domains` keeps the configured (insertion) order as a sequence.
   */
  datatype PoolEntry = PoolEntry(
    domains: Option<seq<Candidate>>,
    pathBasedDomains: Option<seq<PathRule>>,
    customHeaders: Option<map<string, string>>,
    otherKeys: set<string>)
  {
    /** Python truthiness of the entry: a dictionary with no key at all is falsy. */
    predicate IsEmpty()
      ensures IsEmpty() <==> this == PoolEntry(None, None, None, {})
    {
      domains.None? && pathBasedDomains.None? && customHeaders.None? && otherKeys == {}
    }

    /** `pool_config.get("domains", [])` */
    function DefaultCandidates(): (c: seq<Candidate>)
      ensures domains.Some? ==> c == domains.value
      ensures domains.None? ==> c == []
    {
      domains.GetOr([])
    }

    /** `pool_config.get("path_based_domains", {})`, in configured order */
    function Rules(): (rules: seq<PathRule>)
      ensures pathBasedDomains.Some? ==> rules == pathBasedDomains.value
      ensures pathBasedDomains.None? ==> rules == []
    {
      pathBasedDomains.GetOr([])
    }

    /** `pool_config.get("custom_headers", {})` */
    function Headers(): (h: map<string, string>)
      ensures customHeaders.Some? ==> h == customHeaders.value
      ensures customHeaders.None? ==> h == map[]
    {
      customHeaders.GetOr(map[])
    }
  }

  /** The whole configuration: pool identifier to pool entry. */
  type PoolTable = map<string, PoolEntry>

  /** Python's `s.startswith(prefix)`: a literal, character-wise prefix test. */
  predicate StartsWith(s: string, prefix: string)
    ensures StartsWith(s, prefix) <==>
      |prefix| <= |s| && forall k :: 0 <= k < |prefix| ==> s[k] == prefix[k]
  {
    |prefix| <= |s| && s[..|prefix|] == prefix
  }

  /**
   * The index of the first rule, in configured order, whose prefix starts
   * `path`, or None when no prefix does.
   */
  function FirstMatch(rules: seq<PathRule>, path: string): (m: Option<nat>)
    ensures m.Some? ==> m.value < |rules| && StartsWith(path, rules[m.value].prefix)
    ensures m.Some? ==> forall j :: 0 <= j < m.value ==> !StartsWith(path, rules[j].prefix)
    ensures m.None? ==> forall j :: 0 <= j < |rules| ==> !StartsWith(path, rules[j].prefix)
  {
    if rules == [] then None
    else if StartsWith(path, rules[0].prefix) then Some(0)
    else
      match FirstMatch(rules[1..], path)
      case None => None
      case Some(k) => Some(k + 1)
  }

  /**
   * The candidate list a request path selects: the list of the first matching
   * path rule, or else the default list. A matching rule with an empty list
   * still wins.
   */
  function SelectCandidates(entry: PoolEntry, path: string): (c: seq<Candidate>)
    ensures (forall j :: 0 <= j < |entry.Rules()| ==> !StartsWith(path, entry.Rules()[j].prefix))
      ==> c == entry.DefaultCandidates()
    ensures (exists j :: 0 <= j < |entry.Rules()| && StartsWith(path, entry.Rules()[j].prefix))
      ==> exists i :: 0 <= i < |entry.Rules()| && StartsWith(path, entry.Rules()[i].prefix)
            && c == entry.Rules()[i].candidates
  {
    match FirstMatch(entry.Rules(), path)
    case Some(i) => entry.Rules()[i].candidates
    case None => entry.DefaultCandidates()
  }

  /** The first rule, in order, whose prefix matches decides the candidate list. */
  lemma FirstMatchingRuleWins(entry: PoolEntry, path: string, i: nat)
    requires i < |entry.Rules()| && StartsWith(path, entry.Rules()[i].prefix)
    requires forall j :: 0 <= j < i ==> !StartsWith(path, entry.Rules()[j].prefix)
    ensures SelectCandidates(entry, path) == entry.Rules()[i].candidates
  {
  }

  /** With no matching prefix, the default list is used (empty when `domains` is absent). */
  lemma NoMatchingRuleFallsBack(entry: PoolEntry, path: string)
    requires forall j :: 0 <= j < |entry.Rules()| ==> !StartsWith(path, entry.Rules()[j].prefix)
    ensures SelectCandidates(entry, path) == entry.DefaultCandidates()
    ensures entry.domains.None? ==> SelectCandidates(entry, path) == []
  {
  }
}
