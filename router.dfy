/** The routing decision: the ordered rule table, the first-match search over
    it (`findMapping`) and the forwarded URL a matched rule produces. */
module Router {
  import opened Wrappers
  import opened Pattern

  /** The `route` object handed to the forwarding library. */
  datatype Route = Route(target: string)

  /** One entry of the mappings table.  Every field but `route` is optional,
      as in the table literal: `None` is an absent property. */
  datatype Rule = Rule(
    host: Option<string>,
    pathregex: Option<PathPattern>,
    pathreplace: Option<string>,
    route: Route)

  /** What the handler does with a request: answer 404 itself, or hand the
      request to the forwarder for `target` with the (possibly rewritten) URL. */
  datatype Outcome = NotFound | Forward(target: string, url: string)

  /** The host check: a rule with a truthy host other than `*` admits only a
      request whose `Host` header is that exact string; a missing header
      differs from every host. */
  predicate HostAdmits(rule: Rule, host: Option<string>)
  {
    !(Truthy(rule.host) && rule.host.value != "*" && host != rule.host)
  }

  /** The path check: the rule has a pattern and it matches the URL. */
  predicate PathAdmits(rule: Rule, url: string)
  {
    rule.pathregex.Some? && MatchSpan(rule.pathregex.value, url).Some?
  }

  /** The rule passes both checks for a request. */
  predicate Selects(rule: Rule, host: Option<string>, url: string)
  {
    HostAdmits(rule, host) && PathAdmits(rule, url)
  }

  /** The index of the first rule of `table` that selects the request. */
  function FirstMatch(table: seq<Rule>, host: Option<string>, url: string): (r: Option<nat>)
    ensures r.Some? ==>
              && r.value < |table|
              && Selects(table[r.value], host, url)
              && forall j :: 0 <= j < r.value ==> !Selects(table[j], host, url)
    ensures r.None? ==> forall j :: 0 <= j < |table| ==> !Selects(table[j], host, url)
  {
    if table == [] then None
    else if Selects(table[0], host, url) then Some(0)
    else
      match FirstMatch(table[1..], host, url)
      case None => None
      case Some(k) => Some(k + 1)
  }

  /** The URL forwarded for a request that `rule` matched: rewritten with the
      rule's own pattern when its `pathreplace` is truthy, unchanged otherwise. */
  function Rewrite(rule: Rule, url: string): (r: string)
    requires rule.pathregex.Some?
    ensures !Truthy(rule.pathreplace) ==> r == url
    ensures Truthy(rule.pathreplace) && MatchSpan(rule.pathregex.value, url).Some? ==>
              var sp := MatchSpan(rule.pathregex.value, url).value;
              r == url[..sp.start] + rule.pathreplace.value + url[sp.end..]
  {
    if Truthy(rule.pathreplace) then Replace(url, rule.pathregex.value, rule.pathreplace.value)
    else url
  }

  /** The whole routing decision for one request. */
  function Dispatch(table: seq<Rule>, host: Option<string>, url: string): Outcome
  {
    match FirstMatch(table, host, url)
    case None => NotFound
    case Some(i) => Forward(table[i].route.target, Rewrite(table[i], url))
  }

  /** `findMapping`: walk the table in order, skip a rule whose host check
      fails, and return the first rule whose pattern matches the URL. */
  method FindMapping(table: seq<Rule>, host: Option<string>, url: string) returns (found: Option<nat>)
    ensures found.Some? ==>
              && found.value < |table|
              && Selects(table[found.value], host, url)
              && forall j :: 0 <= j < found.value ==> !Selects(table[j], host, url)
    ensures found.None? ==> forall j :: 0 <= j < |table| ==> !Selects(table[j], host, url)
    ensures found == FirstMatch(table, host, url)
  {
    var i := 0;
    while i < |table|
      invariant 0 <= i <= |table|
      invariant forall j :: 0 <= j < i ==> !Selects(table[j], host, url)
    {
      var um := table[i];
      if um.host.Some? && um.host.value != "" && um.host.value != "*" && Some(um.host.value) != host {
        i := i + 1;
        continue;
      }
      if um.pathregex.Some? && MatchSpan(um.pathregex.value, url).Some? {
        FirstMatchUnique(table, host, url, i);
        return Some(i);
      }
      i := i + 1;
    }
    return None;
  }

  /** The first-match characterisation determines the index. */
  lemma FirstMatchUnique(table: seq<Rule>, host: Option<string>, url: string, i: nat)
    requires i < |table| && Selects(table[i], host, url)
    requires forall j :: 0 <= j < i ==> !Selects(table[j], host, url)
    ensures FirstMatch(table, host, url) == Some(i)
  {
  }

  /** First match wins: a request is forwarded to the target of the lowest
      rule that selects it, with that rule's rewrite, whatever follows it. */
  lemma DispatchFirstMatchWins(table: seq<Rule>, host: Option<string>, url: string, i: nat)
    requires i < |table| && Selects(table[i], host, url)
    requires forall j :: 0 <= j < i ==> !Selects(table[j], host, url)
    ensures Dispatch(table, host, url) == Forward(table[i].route.target, Rewrite(table[i], url))
  {
  }

  /** A request is answered 404 exactly when no rule selects it. */
  lemma DispatchNotFound(table: seq<Rule>, host: Option<string>, url: string)
    ensures Dispatch(table, host, url) == NotFound <==>
              forall j :: 0 <= j < |table| ==> !Selects(table[j], host, url)
  {
  }

  /** A forwarded request goes to the matched rule's target, with the URL
      unchanged when the rule has no truthy `pathreplace`, and otherwise with
      the span that the rule's own pattern matched replaced by `pathreplace`. */
  lemma DispatchForward(table: seq<Rule>, host: Option<string>, url: string)
    requires Dispatch(table, host, url).Forward?
    ensures exists i :: 0 <= i < |table| && FirstMatch(table, host, url) == Some(i)
    ensures var i := FirstMatch(table, host, url).value;
            var out := Dispatch(table, host, url);
            && out.target == table[i].route.target
            && table[i].pathregex.Some?
            && MatchSpan(table[i].pathregex.value, url).Some?
            && (!Truthy(table[i].pathreplace) ==> out.url == url)
            && (Truthy(table[i].pathreplace) ==>
                  var sp := MatchSpan(table[i].pathregex.value, url).value;
                  out.url == url[..sp.start] + table[i].pathreplace.value + url[sp.end..])
  {
  }

  /** A rule whose truthy host is not `*` and differs from the request's
      `Host` header is never chosen, whatever its pattern. */
  lemma HostFilterExcludes(table: seq<Rule>, host: Option<string>, url: string, i: nat)
    requires i < |table|
    requires Truthy(table[i].host) && table[i].host.value != "*" && host != table[i].host
    ensures FirstMatch(table, host, url) != Some(i)
  {
  }

  /** A rule without a pattern is never chosen. */
  lemma NoPatternNeverMatches(table: seq<Rule>, host: Option<string>, url: string, i: nat)
    requires i < |table| && table[i].pathregex.None?
    ensures FirstMatch(table, host, url) != Some(i)
  {
  }

  /** A table whose rules all have host `*` or no host routes independently
      of the `Host` header. */
  lemma WildcardTableIgnoresHost(table: seq<Rule>, h1: Option<string>, h2: Option<string>, url: string)
    requires forall j :: 0 <= j < |table| ==> !Truthy(table[j].host) || table[j].host.value == "*"
    ensures FirstMatch(table, h1, url) == FirstMatch(table, h2, url)
  {
  }

  /** The index the search returns depends only on the table up to and
      including it: appending rules never changes a match that was found. */
  lemma {:induction false} FirstMatchAppend(table: seq<Rule>, more: seq<Rule>, host: Option<string>, url: string)
    requires FirstMatch(table, host, url).Some?
    ensures FirstMatch(table + more, host, url) == FirstMatch(table, host, url)
  {
    var i := FirstMatch(table, host, url).value;
    assert (table + more)[i] == table[i];
    FirstMatchUnique(table + more, host, url, i);
  }
}
