# Redirect service resolver, in Dafny

This project models the redirection resolver of a small redirect service. The
resolver's job is `perform_redirection`. It takes a table of domain pools, a
pool identifier, a request path, a raw query string and the client address, and
returns a triple `(new_url, custom_headers, error_message)`. It does this in five steps:

1. It looks up the pool. An absent or empty entry fails with "Pool not found".
2. It chooses a candidate list. The first `path_based_domains` prefix, in
   configured order, that literally starts the path wins. Otherwise the
   default `domains` list is used.
3. It rejects an empty list with "No domains available for redirection".
4. It picks a domain by weight.
5. It builds `https://{domain}/{path}`, adding `?{query}` only when the query is non-empty.

The result carries the pool's custom headers. Every call emits exactly one
structured log record: an error record on either failure, or an info record
with the URL and the headers on success.

Files:

- `options.dfy` (module `Options`): the optional value used for missing keys and for the result triple.
- `pool_config.dfy` (module `PoolConfig`): holds the following.
  - Pool entries. Each of the three keys the resolver reads is present or absent, and any other keys are kept as a set. `path_based_domains` is an ordered sequence, because the dictionary's insertion order decides precedence.
  - The literal `startswith` test.
  - The first-match search and the candidate-list selection.
- `weighted_choice.dfy` (module `WeightedChoice`): the weighted choice.
  - The uniform random source is an explicit integer draw `r` with `0 <= r < total weight`.
  - Candidate `i` owns the draws in `[w_0 + ... + w_{i-1}, w_0 + ... + w_i)`. This is what `random.choices` computes with its cumulative weights and `bisect_right`.
  - For integer weights, the integer draw `floor(random() * total)` selects the same index as the real-valued draw does.
- `redirect_logic.dfy` (module `RedirectLogic`): holds the following.
  - The two messages and the log-record datatypes.
  - A `Logger` class whose `emitted` sequence is what the logger has written.
  - `ConstructLogData` and `BuildUrl`.
  - The specification function `Resolve`.
  - The methods `SelectDomains` (the `for ... break ... else` loop) and `PerformRedirection`.
  - Lemmas about `Resolve`.
- `redirect_scenarios.dfy` (module `RedirectScenarios`): the test fixture's pools, and what the model says about the requests the tests make.

Parameters that replace hidden inputs:

- The clock reading is the parameter `now`.
- The random draw is the parameter `draw`.
- The module-level logger is the `Logger` object passed in.

## Model

| member | source | states |
|---|---|---|
| `PoolConfig.PoolEntry.IsEmpty` | app/redirect_logic.py:63 | An entry is falsy exactly when it is the dictionary with no key at all. |
| `PoolConfig.PoolEntry.DefaultCandidates` | app/redirect_logic.py:81 | `pool_config.get("domains", [])` gives the configured list when the key is present, and `[]` when it is absent. |
| `PoolConfig.PoolEntry.Rules` | app/redirect_logic.py:75 | `pool_config.get("path_based_domains", {})` gives the configured rules, in order, when the key is present, and no rules when it is absent. |
| `PoolConfig.PoolEntry.Headers` | app/redirect_logic.py:105 | `pool_config.get("custom_headers", {})` gives the configured headers when the key is present, and `{}` when it is absent. |
| `PoolConfig.StartsWith` | app/redirect_logic.py:77 | `path.startswith(path_key)` holds exactly when the key is no longer than the path and agrees with it character by character. |
| `PoolConfig.FirstMatch` | app/redirect_logic.py:75-81 | The result is the index of a rule whose prefix starts the path, and no earlier rule's prefix does. None means that no rule's prefix starts the path. |
| `PoolConfig.SelectCandidates` | app/redirect_logic.py:75-81 | With no matching prefix the result is the default list. When some prefix matches, the result is the list of a rule whose prefix matches. `FirstMatchingRuleWins` pins down which rule. |
| `PoolConfig.FirstMatchingRuleWins` | app/redirect_logic.py:76-79 | If rule `i` matches and no earlier rule does, the selected list is rule `i`'s list. |
| `PoolConfig.NoMatchingRuleFallsBack` | app/redirect_logic.py:80-81 | If no prefix matches, the selected list is `domains`. It is empty when `domains` is absent. |
| `WeightedChoice.WeightBeforeBounds` | app/redirect_logic.py:95-99 | The cumulative weight of the first `n` candidates is at least each of their weights, and it is zero exactly when all of them weigh zero. |
| `WeightedChoice.TotalWeight` | app/redirect_logic.py:95-99 | The total weight is at least every candidate's weight. It is positive exactly when some candidate has a positive weight, which is the case in which `random.choices` does not raise. |
| `WeightedChoice.PickFrom` | app/redirect_logic.py:95-99 | A search from index `k` returns an index at or after `k` that owns the draw. That candidate's weight is positive. |
| `WeightedChoice.Pick` | app/redirect_logic.py:95-99 | The chosen index owns the draw. A zero-weight candidate is never chosen. |
| `WeightedChoice.ChooseIndex` | app/redirect_logic.py:95-99 | The cumulative-weight scan returns the index whose interval contains the draw. |
| `WeightedChoice.PickIffOwns` | app/redirect_logic.py:95-99 | Candidate `i` is picked for a draw if and only if it owns that draw. |
| `WeightedChoice.OwnerIsUnique` | app/redirect_logic.py:95-99 | The candidates' draw intervals do not overlap, so at most one candidate owns a given draw. |
| `WeightedChoice.DrawsOwnedByCandidate` | app/redirect_logic.py:95-99 | `Pick` returns candidate `i` for exactly `weight_i` of the `total` equally likely draws, so its probability is `weight_i / total`. |
| `WeightedChoice.PositiveWeightIsReachable` | app/redirect_logic.py:95-99 | Every candidate with a positive weight is chosen for some draw. |
| `RedirectLogic.Logger.constructor` | app/redirect_logic.py:10-16 | A fresh logger has emitted nothing. |
| `RedirectLogic.Logger.LogError` | app/redirect_logic.py:64-72 | An error-level emission appends exactly one record and changes nothing else. |
| `RedirectLogic.Logger.LogInfo` | app/redirect_logic.py:107-116 | An info-level emission appends exactly one record and changes nothing else. |
| `RedirectLogic.ConstructLogData` | app/redirect_logic.py:19-36 | The common log fields are the pool id, the requested path and the client IP from the inputs, plus the clock reading. |
| `RedirectLogic.BuildUrl` | app/redirect_logic.py:101-103 | The URL is `https://`, then the domain, then `/`, then the path, all unchanged. A `?` and the unchanged query follow if and only if the query is non-empty. |
| `RedirectLogic.UrlStartsWithDomain` | app/redirect_logic.py:101-103 | A built URL starts with `https://` followed by the chosen domain. |
| `RedirectLogic.PoolFound` | app/redirect_logic.py:60-63 | The lookup succeeds exactly when the pool id is in the table and its entry is not the empty dictionary. |
| `RedirectLogic.Resolve` | app/redirect_logic.py:60-118 | A URL is present if and only if there is no error. The same holds for the headers. Any error message is one of the two constants. |
| `RedirectLogic.SelectDomains` | app/redirect_logic.py:75-81 | The search loop returns exactly the list `SelectCandidates` specifies: first match in order, else the default list. |
| `RedirectLogic.PerformRedirection` | app/redirect_logic.py:39-118 | The returned triple is `Resolve`'s outcome for the draw. The logger gains exactly one record, and the common fields come from the inputs. The record is error-level with the returned message on failure, or info-level with the returned URL and headers on success. |
| `RedirectLogic.PoolNotFoundIff` | app/redirect_logic.py:60-73 | The result is `(None, None, "Pool not found")` if and only if the pool id is absent or its entry is empty. |
| `RedirectLogic.NoDomainsIff` | app/redirect_logic.py:83-93 | The result is `(None, None, "No domains available for redirection")` if and only if the pool exists and the selected list is empty. |
| `RedirectLogic.MatchedEmptyRuleHasNoFallback` | app/redirect_logic.py:75-93 | A first-matching prefix with an empty list gives the no-domains error whatever `domains` holds. |
| `RedirectLogic.RedirectTargetsCandidate` | app/redirect_logic.py:95-118 | On success there is no error. The headers are the pool's `custom_headers`, or empty when absent. The URL is built from a positive-weight domain of the selected list. |
| `RedirectLogic.EveryWeightedCandidateReachable` | app/redirect_logic.py:95-103 | Every positive-weight domain of the selected list is the redirect target for some admissible draw. |
| `RedirectScenarios.NewsPathUsesNewsDomains` | tests/test_redirect_logic.py:51-57 | `news/article1` in pool1 selects the `news/` list. |
| `RedirectScenarios.NewsRequestRedirectsToNewsDomain` | tests/test_redirect_logic.py:82-95 | That request redirects to `https://domain-c.xyz...` or `https://domain-d.xyz...` with the custom header and no error. |
| `RedirectScenarios.ContactPathUsesContactDomains` | tests/test_redirect_logic.py:58-64 | `contact/info` skips the non-matching `news/` rule and selects the `contact/` list. |
| `RedirectScenarios.ContactRequestRedirectsToContactDomain` | tests/test_redirect_logic.py:58-64 | That request gives no error, a URL starting with `https://domain-e.xyz` or `https://domain-f.xyz`, and the custom header, as the assertions at lines 89-95 require. |
| `RedirectScenarios.OtherPathUsesDefaultDomains` | tests/test_redirect_logic.py:65-71 | A path matching no prefix selects the default list. |
| `RedirectScenarios.OtherRequestRedirectsToDefaultDomain` | tests/test_redirect_logic.py:65-71 | That request gives no error, a URL starting with `https://domain-a.xyz` or `https://domain-b.xyz`, and the custom header, as the assertions at lines 89-95 require. |
| `RedirectScenarios.PoolWithoutHeadersReturnsEmptyHeaders` | tests/test_redirect_logic.py:72-78 | A pool2 request gives no error, a URL starting with `https://domain-g.xyz` or `https://domain-h.xyz`, and empty headers, since pool2 has no `custom_headers`. |
| `RedirectScenarios.UnknownPoolIsNotFound` | tests/test_redirect_logic.py:79 | `pool3` yields `(None, None, "Pool not found")`. |
| `RedirectScenarios.WeightsTwoToOne` | tests/test_redirect_logic.py:98-117 | With weights 2 and 1, the first domain is picked for two of the three draws and the second domain for one. |
| `RedirectScenarios.SingleDomainPool` | app/redirect_logic.py:95-105 | A pool with the single domain `a.com` redirects path `x` with no query to `https://a.com/x`, with empty headers and no error. |

## Left out

- The HTTP layer: the FastAPI router, the 302/404 mapping, copying headers onto the response, the health check and application startup (`app/routers/redirect.py`, `app/routers/health_check.py`, `app/main.py`).
- Loading `app/config.json` from disk. The pool table is an input.
- Logger and handler configuration, and the `json.dumps` serialisation. Log records are datatypes, not JSON text, and a record's level is kept beside it as `Severity`.
- `datetime.now(UTC).isoformat()` is a clock read. It is the opaque string parameter `now`.
- The random source. `random.choices` is replaced by the explicit draw `draw`. The statistical 100,000-run ratio test becomes the exact count in `DrawsOwnedByCandidate` and `WeightsTwoToOne`.
- `RedirectLogic.PerformRedirection` requires, through `DrawInRange`, that the selected list's total weight be positive and the draw below it. On a list whose weights sum to zero, `random.choices` raises `ValueError`, an unhandled exception rather than the no-domains error. The model excludes that input instead of inventing an error branch.
- Weights are natural numbers. Floating-point and negative weights, and `[domain, weight]` pairs of the wrong shape, are not modelled.
- Configuration values of the wrong JSON type are not modelled: a pool that is not an object, or a key present with value `null`. Of Python's falsy values, only the empty pool object is modelled.
- Header maps are unordered `map`s, so the order in which headers were configured is not kept.
