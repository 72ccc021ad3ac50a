// The rule chain of `BrowserslistUseragent::Resolver#call`: an already
// parsed user agent becomes a `{family, version}` pair named the way the
// caniuse database names browsers.
module Resolution {
  import opened Wrappers
  import opened Text

  /** What the user-agent parser reports: browser family and version, OS family and version (versions as `.to_s` gives them). */
  datatype Agent = Agent(family: string, version: string, osFamily: string, osVersion: string)

  /** The hash `call` returns. */
  datatype Resolved = Resolved(family: string, version: string)

  /** `VersionNormalizer.new(x).call`; `None` stands for `x == nil`. Its internals are not modelled. */
  type Normalizer = Option<string> -> string

  /** `UserAgentParser::Parser#parse`, treated as a black box. */
  type Parser = string -> Agent

  /** How an alias line tests the parser's family: `include?` or `==`. */
  datatype Guard = Includes(needle: string) | Is(name: string)

  /** One alias line: when the guard holds, the family becomes `canonical`. */
  datatype AliasRule = AliasRule(guard: Guard, canonical: string)

  predicate Holds(g: Guard, family: string) {
    match g
    case Includes(needle) => Contains(family, needle)
    case Is(name) => family == name
  }

  /** The alias lines, in source order. */
  const AliasRules: seq<AliasRule> := [
    AliasRule(Includes("Chrome Mobile"), "Chrome"),
    AliasRule(Is("HeadlessChrome"), "Chrome"),
    AliasRule(Is("Edge Mobile"), "Edge"),
    AliasRule(Is("IE"), "Explorer"),
    AliasRule(Is("IE Mobile"), "ExplorerMobile"),
    AliasRule(Is("Firefox Mobile"), "Firefox"),
    AliasRule(Is("Opera Mobile"), "OperaMobile"),
    AliasRule(Is("QQ Browser Mobile"), "QQAndroid"),
    AliasRule(Is("Samsung Internet"), "SamsungInternet"),
    AliasRule(Is("UC Browser"), "UCAndroid")
  ]

  /** In-app browsers that render with Chromium but report the app's name. */
  const InAppFamilies: set<string> := {"Facebook", "Instagram"}

  /** The literal the lookbehind on the raw user-agent string looks for. */
  const ChromeMarker: string := "Chrome/"

  /** Every family name the resolver itself can produce. */
  const CanonicalFamilies: set<string> := {
    "iOS", "Chrome", "Edge", "Explorer", "ExplorerMobile", "Firefox",
    "OperaMobile", "QQAndroid", "SamsungInternet", "UCAndroid"
  }

  /** The canonical name of some rule whose guard holds, if any guard holds. */
  function MatchingAlias(rules: seq<AliasRule>, family: string): (r: Option<string>)
    ensures r.None? <==> forall rule :: rule in rules ==> !Holds(rule.guard, family)
    ensures r.Some? ==> exists rule :: rule in rules && Holds(rule.guard, family) && rule.canonical == r.value
  {
    if |rules| == 0 then
      None
    else if Holds(rules[0].guard, family) then
      Some(rules[0].canonical)
    else
      assert forall rule :: rule in rules ==> rule == rules[0] || rule in rules[1..];
      MatchingAlias(rules[1..], family)
  }

  /** The family after the alias lines: the alias that applies, or the parser's family unchanged. */
  function AliasOf(family: string): (r: string)
    ensures r == family || r in CanonicalFamilies
  {
    AliasTableCanonical(family);
    match MatchingAlias(AliasRules, family)
    case Some(canonical) => canonical
    case None => family
  }

  /** Whatever alias the table yields for a family is a canonical name. */
  lemma AliasTableCanonical(family: string)
    ensures MatchingAlias(AliasRules, family).Some? ==> MatchingAlias(AliasRules, family).value in CanonicalFamilies
  {
    AliasTargetsCanonical();
  }

  /** The token after the first `Chrome/` in the raw string, up to the next space or the end; `None` when `Chrome/` does not occur. */
  function ExtractAfterChrome(ua: string): (r: Option<string>)
    ensures r.None? <==> !Contains(ua, ChromeMarker)
    ensures r.Some? ==> exists i: nat :: FirstAt(ua, ChromeMarker, i) && MaximalRun(ua[i + |ChromeMarker|..], r.value)
  {
    match IndexOf(ua, ChromeMarker)
    case None => None
    case Some(i) =>
      var t := SpanNonSpace(ua[i + |ChromeMarker|..]);
      assert FirstAt(ua, ChromeMarker, i) && MaximalRun(ua[i + |ChromeMarker|..], t);
      Some(t)
  }

  /** The resolved pair as a decision: iOS first, then the in-app browsers, then the aliases. */
  function ResolveSpec(agent: Agent, ua: string, normalize: Normalizer): Resolved {
    if agent.osFamily == "iOS" then
      Resolved("iOS", normalize(Some(agent.osVersion)))
    else if agent.family in InAppFamilies then
      Resolved("Chrome", normalize(ExtractAfterChrome(ua)))
    else
      Resolved(AliasOf(agent.family), normalize(Some(agent.version)))
  }

  /** `BrowserslistUseragent::Resolver`. */
  class Resolver {
    const userAgentString: string

    constructor (userAgentString: string)
      ensures this.userAgentString == userAgentString
    {
      this.userAgentString := userAgentString;
    }

    /** `Resolver#call`, with the parser and the version normalizer passed in. */
    method Call(parse: Parser, normalize: Normalizer) returns (result: Resolved)
      ensures result == ResolveSpec(parse(userAgentString), userAgentString, normalize)
    {
      var agent := parse(userAgentString);

      var family := agent.family;
      var version := normalize(Some(agent.version));

      // Case A: Safari-like families on iOS
      if Contains(agent.family, "Safari") && agent.osFamily == "iOS" {
        family := "iOS";
      }

      // Case B: on iOS the OS version stands in for the browser version
      if agent.osFamily == "iOS" {
        return Resolved("iOS", normalize(Some(agent.osVersion)));
      }

      // Case C: minor browsers become their desktop counterparts
      AliasOfCases(agent.family);
      ExactNamesLackChromeMobile();
      if Contains(agent.family, "Chrome Mobile") { family := "Chrome"; }
      if agent.family == "HeadlessChrome" { family := "Chrome"; }
      if agent.family == "Edge Mobile" { family := "Edge"; }
      if agent.family == "IE" { family := "Explorer"; }
      if agent.family == "IE Mobile" { family := "ExplorerMobile"; }
      if agent.family == "Firefox Mobile" { family := "Firefox"; }
      if agent.family == "Opera Mobile" { family := "OperaMobile"; }
      if agent.family == "QQ Browser Mobile" { family := "QQAndroid"; }
      if agent.family == "Samsung Internet" { family := "SamsungInternet"; }
      if agent.family == "UC Browser" { family := "UCAndroid"; }

      // Case D: in-app browsers report the app, but embed a Chrome version
      if agent.family in InAppFamilies {
        return Resolved("Chrome", normalize(ExtractAfterChrome(userAgentString)));
      }

      return Resolved(family, version);
    }
  }

  /** A string none of whose possible match positions holds the needle's first character does not contain it. */
  lemma LacksFirstChar(s: string, sub: string)
    requires |sub| > 0
    requires forall k :: 0 <= k <= |s| - |sub| ==> s[k] != sub[0]
    ensures !Contains(s, sub)
  {
    forall i | 0 <= i <= |s| - |sub|
      ensures !StartsWith(s[i..], sub)
    {
      assert s[i..][0] == s[i];
    }
  }

  /** None of the families compared with `==`, nor the in-app families, contains "Chrome Mobile". */
  lemma ExactNamesLackChromeMobile()
    ensures !Contains("HeadlessChrome", "Chrome Mobile")
    ensures !Contains("Edge Mobile", "Chrome Mobile")
    ensures !Contains("IE", "Chrome Mobile")
    ensures !Contains("IE Mobile", "Chrome Mobile")
    ensures !Contains("Firefox Mobile", "Chrome Mobile")
    ensures !Contains("Opera Mobile", "Chrome Mobile")
    ensures !Contains("QQ Browser Mobile", "Chrome Mobile")
    ensures !Contains("Samsung Internet", "Chrome Mobile")
    ensures !Contains("UC Browser", "Chrome Mobile")
    ensures !Contains("Facebook", "Chrome Mobile")
    ensures !Contains("Instagram", "Chrome Mobile")
  {
    LacksFirstChar("HeadlessChrome", "Chrome Mobile");
    LacksFirstChar("Edge Mobile", "Chrome Mobile");
    LacksFirstChar("IE", "Chrome Mobile");
    LacksFirstChar("IE Mobile", "Chrome Mobile");
    LacksFirstChar("Firefox Mobile", "Chrome Mobile");
    LacksFirstChar("Opera Mobile", "Chrome Mobile");
    LacksFirstChar("QQ Browser Mobile", "Chrome Mobile");
    LacksFirstChar("Samsung Internet", "Chrome Mobile");
    LacksFirstChar("UC Browser", "Chrome Mobile");
    LacksFirstChar("Facebook", "Chrome Mobile");
    LacksFirstChar("Instagram", "Chrome Mobile");
  }

  /** At most one alias guard holds for any family. */
  lemma AliasGuardsExclusive(family: string, i: nat, j: nat)
    requires i < |AliasRules| && j < |AliasRules| && i != j
    requires Holds(AliasRules[i].guard, family)
    ensures !Holds(AliasRules[j].guard, family)
  {
    ExactNamesLackChromeMobile();
  }

  /** When an alias guard holds, the family becomes that line's alias. */
  lemma AliasOfHit(family: string, i: nat)
    requires i < |AliasRules| && Holds(AliasRules[i].guard, family)
    ensures AliasOf(family) == AliasRules[i].canonical
  {
    var rule :| rule in AliasRules && Holds(rule.guard, family) && rule.canonical == AliasOf(family);
    var j :| 0 <= j < |AliasRules| && AliasRules[j] == rule;
    if j != i {
      AliasGuardsExclusive(family, i, j);
    }
  }

  /** When no alias guard holds, the family is left as the parser reported it. */
  lemma AliasOfMiss(family: string)
    requires forall i :: 0 <= i < |AliasRules| ==> !Holds(AliasRules[i].guard, family)
    ensures AliasOf(family) == family
  {
  }

  /** The alias lines written out as one decision. */
  lemma AliasOfCases(family: string)
    ensures AliasOf(family) ==
      if Contains(family, "Chrome Mobile") then "Chrome"
      else if family == "HeadlessChrome" then "Chrome"
      else if family == "Edge Mobile" then "Edge"
      else if family == "IE" then "Explorer"
      else if family == "IE Mobile" then "ExplorerMobile"
      else if family == "Firefox Mobile" then "Firefox"
      else if family == "Opera Mobile" then "OperaMobile"
      else if family == "QQ Browser Mobile" then "QQAndroid"
      else if family == "Samsung Internet" then "SamsungInternet"
      else if family == "UC Browser" then "UCAndroid"
      else family
  {
    if Contains(family, "Chrome Mobile") {
      AliasOfHit(family, 0);
    } else if family == "HeadlessChrome" {
      AliasOfHit(family, 1);
    } else if family == "Edge Mobile" {
      AliasOfHit(family, 2);
    } else if family == "IE" {
      AliasOfHit(family, 3);
    } else if family == "IE Mobile" {
      AliasOfHit(family, 4);
    } else if family == "Firefox Mobile" {
      AliasOfHit(family, 5);
    } else if family == "Opera Mobile" {
      AliasOfHit(family, 6);
    } else if family == "QQ Browser Mobile" {
      AliasOfHit(family, 7);
    } else if family == "Samsung Internet" {
      AliasOfHit(family, 8);
    } else if family == "UC Browser" {
      AliasOfHit(family, 9);
    } else {
      AliasOfMiss(family);
    }
  }

  /** The token is exactly the maximal space-free run after the first `Chrome/`. */
  lemma ExtractAfterChromeCharacterised(ua: string, i: nat, t: string)
    requires FirstAt(ua, ChromeMarker, i)
    requires MaximalRun(ua[i + |ChromeMarker|..], t)
    ensures ExtractAfterChrome(ua) == Some(t)
  {
    assert Contains(ua, ChromeMarker);
    var j: nat :| FirstAt(ua, ChromeMarker, j) && MaximalRun(ua[j + |ChromeMarker|..], ExtractAfterChrome(ua).value);
    FirstAtUnique(ua, ChromeMarker, i, j);
    MaximalRunUnique(ua[i + |ChromeMarker|..], t);
    MaximalRunUnique(ua[i + |ChromeMarker|..], ExtractAfterChrome(ua).value);
  }

  /** On iOS the result is "iOS" with the OS version, whatever the browser family (Case A is subsumed). */
  lemma IosOverride(agent: Agent, ua: string, normalize: Normalizer)
    requires agent.osFamily == "iOS"
    ensures ResolveSpec(agent, ua, normalize) == Resolved("iOS", normalize(Some(agent.osVersion)))
  {
  }

  /** Off iOS, families containing "Chrome Mobile" and "HeadlessChrome" resolve to Chrome with the browser's own version. */
  lemma ChromeAliases(agent: Agent, ua: string, normalize: Normalizer)
    requires agent.osFamily != "iOS"
    requires Contains(agent.family, "Chrome Mobile") || agent.family == "HeadlessChrome"
    ensures ResolveSpec(agent, ua, normalize) == Resolved("Chrome", normalize(Some(agent.version)))
  {
    ExactNamesLackChromeMobile();
    AliasOfCases(agent.family);
  }

  /** Off iOS, each family compared with `==` resolves to its alias with the browser's own version. */
  lemma ExactAliases(agent: Agent, ua: string, normalize: Normalizer)
    requires agent.osFamily != "iOS"
    ensures agent.family == "Edge Mobile" ==> ResolveSpec(agent, ua, normalize) == Resolved("Edge", normalize(Some(agent.version)))
    ensures agent.family == "IE" ==> ResolveSpec(agent, ua, normalize) == Resolved("Explorer", normalize(Some(agent.version)))
    ensures agent.family == "IE Mobile" ==> ResolveSpec(agent, ua, normalize) == Resolved("ExplorerMobile", normalize(Some(agent.version)))
    ensures agent.family == "Firefox Mobile" ==> ResolveSpec(agent, ua, normalize) == Resolved("Firefox", normalize(Some(agent.version)))
    ensures agent.family == "Opera Mobile" ==> ResolveSpec(agent, ua, normalize) == Resolved("OperaMobile", normalize(Some(agent.version)))
    ensures agent.family == "QQ Browser Mobile" ==> ResolveSpec(agent, ua, normalize) == Resolved("QQAndroid", normalize(Some(agent.version)))
    ensures agent.family == "Samsung Internet" ==> ResolveSpec(agent, ua, normalize) == Resolved("SamsungInternet", normalize(Some(agent.version)))
    ensures agent.family == "UC Browser" ==> ResolveSpec(agent, ua, normalize) == Resolved("UCAndroid", normalize(Some(agent.version)))
  {
    if agent.family == "Edge Mobile" {
      AliasOfHit(agent.family, 2);
    } else if agent.family == "IE" {
      AliasOfHit(agent.family, 3);
    } else if agent.family == "IE Mobile" {
      AliasOfHit(agent.family, 4);
    } else if agent.family == "Firefox Mobile" {
      AliasOfHit(agent.family, 5);
    } else if agent.family == "Opera Mobile" {
      AliasOfHit(agent.family, 6);
    } else if agent.family == "QQ Browser Mobile" {
      AliasOfHit(agent.family, 7);
    } else if agent.family == "Samsung Internet" {
      AliasOfHit(agent.family, 8);
    } else if agent.family == "UC Browser" {
      AliasOfHit(agent.family, 9);
    }
  }

  /** Two rule lists with the same rules give the same alias when every rule that fires agrees on it. */
  lemma SameRulesSameAlias(rules: seq<AliasRule>, table: seq<AliasRule>, family: string)
    requires forall rule :: rule in rules <==> rule in table
    requires forall a, b :: a in table && b in table && Holds(a.guard, family) && Holds(b.guard, family) ==> a.canonical == b.canonical
    ensures MatchingAlias(rules, family) == MatchingAlias(table, family)
  {
  }

  /** All alias lines that fire for a family agree on its alias. */
  lemma AliasRulesAgree(family: string)
    ensures forall a, b :: a in AliasRules && b in AliasRules && Holds(a.guard, family) && Holds(b.guard, family) ==> a.canonical == b.canonical
  {
    forall a, b | a in AliasRules && b in AliasRules && Holds(a.guard, family) && Holds(b.guard, family)
      ensures a.canonical == b.canonical
    {
      var i :| 0 <= i < |AliasRules| && AliasRules[i] == a;
      var j :| 0 <= j < |AliasRules| && AliasRules[j] == b;
      if i != j {
        AliasGuardsExclusive(family, i, j);
      }
    }
  }

  /** Reordering the alias lines does not change the family they produce. */
  lemma AliasOrderIrrelevant(rules: seq<AliasRule>, family: string)
    requires multiset(rules) == multiset(AliasRules)
    ensures (match MatchingAlias(rules, family) case Some(c) => c case None => family) == AliasOf(family)
  {
    forall rule
      ensures rule in rules <==> rule in AliasRules
    {
      assert rule in rules <==> rule in multiset(rules);
    }
    AliasRulesAgree(family);
    SameRulesSameAlias(rules, AliasRules, family);
  }

  /** Off iOS, Facebook and Instagram resolve to Chrome with the version after the first `Chrome/`. */
  lemma InAppBrowser(agent: Agent, ua: string, normalize: Normalizer, i: nat, t: string)
    requires agent.osFamily != "iOS" && agent.family in InAppFamilies
    requires FirstAt(ua, ChromeMarker, i) && MaximalRun(ua[i + |ChromeMarker|..], t)
    ensures ResolveSpec(agent, ua, normalize) == Resolved("Chrome", normalize(Some(t)))
  {
    ExtractAfterChromeCharacterised(ua, i, t);
  }

  /** Off iOS, Facebook and Instagram without a `Chrome/` token resolve to Chrome with the normalization of `nil`. */
  lemma InAppBrowserWithoutChrome(agent: Agent, ua: string, normalize: Normalizer)
    requires agent.osFamily != "iOS" && agent.family in InAppFamilies
    requires !Contains(ua, ChromeMarker)
    ensures ResolveSpec(agent, ua, normalize) == Resolved("Chrome", normalize(None))
  {
  }

  /** A non-iOS family that no rule mentions passes through with the browser's own version. */
  lemma PassThrough(agent: Agent, ua: string, normalize: Normalizer)
    requires agent.osFamily != "iOS"
    requires !Contains(agent.family, "Chrome Mobile")
    requires agent.family !in {"HeadlessChrome", "Edge Mobile", "IE", "IE Mobile", "Firefox Mobile", "Opera Mobile",
                               "QQ Browser Mobile", "Samsung Internet", "UC Browser", "Facebook", "Instagram"}
    ensures ResolveSpec(agent, ua, normalize) == Resolved(agent.family, normalize(Some(agent.version)))
  {
    AliasOfCases(agent.family);
  }

  /** Every alias line maps to a canonical name. */
  lemma AliasTargetsCanonical()
    ensures forall rule :: rule in AliasRules ==> rule.canonical in CanonicalFamilies
  {
  }

  /** The resolved family is the parser's family or one of the resolver's own canonical names. */
  lemma FamilyVocabulary(agent: Agent, ua: string, normalize: Normalizer)
    ensures var r := ResolveSpec(agent, ua, normalize); r.family == agent.family || r.family in CanonicalFamilies
  {
  }

  /** A raw user-agent string of the Facebook app on Android. */
  const FacebookUa: string := "FBAV Chrome/99.0.1234.56 Mobile"

  /** In `FacebookUa` the first `Chrome/` starts at position 5. */
  lemma FacebookUaFirstChrome()
    ensures FirstAt(FacebookUa, ChromeMarker, 5)
  {
    forall j | 0 <= j < 5
      ensures !StartsWith(FacebookUa[j..], ChromeMarker)
    {
      assert FacebookUa[j..][0] == FacebookUa[j];
    }
    assert FacebookUa[5..][..|ChromeMarker|] == ChromeMarker;
  }

  /** In `FacebookUa` the run after `Chrome/` is the version token. */
  lemma FacebookUaToken()
    ensures MaximalRun(FacebookUa[5 + |ChromeMarker|..], "99.0.1234.56")
  {
    assert FacebookUa[12..][..12] == "99.0.1234.56";
  }

  /** A Facebook in-app browser resolves to Chrome with the version its `Chrome/` token carries. */
  lemma FacebookExample(normalize: Normalizer)
    ensures ResolveSpec(Agent("Facebook", "350.0", "Android", "12"), FacebookUa, normalize)
         == Resolved("Chrome", normalize(Some("99.0.1234.56")))
  {
    FacebookUaFirstChrome();
    FacebookUaToken();
    InAppBrowser(Agent("Facebook", "350.0", "Android", "12"), FacebookUa, normalize, 5, "99.0.1234.56");
  }

  /** "Chrome Mobile" is matched as a substring, so a WebView family also becomes Chrome. */
  lemma ChromeMobileWebViewExample(ua: string, normalize: Normalizer)
    ensures ResolveSpec(Agent("Chrome Mobile WebView", "90.0", "Android", "11"), ua, normalize)
         == Resolved("Chrome", normalize(Some("90.0")))
  {
    assert "Chrome Mobile WebView"[0..][..13] == "Chrome Mobile";
    ChromeAliases(Agent("Chrome Mobile WebView", "90.0", "Android", "11"), ua, normalize);
  }

  /** Firefox on Windows matches no rule and passes through. */
  lemma FirefoxOnWindowsExample(ua: string, normalize: Normalizer)
    ensures ResolveSpec(Agent("Firefox", "120.0.1", "Windows", "10"), ua, normalize)
         == Resolved("Firefox", normalize(Some("120.0.1")))
  {
    LacksFirstChar("Firefox", "Chrome Mobile");
    PassThrough(Agent("Firefox", "120.0.1", "Windows", "10"), ua, normalize);
  }
}
