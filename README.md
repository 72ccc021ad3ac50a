# browserslist-useragent resolver, modelled in Dafny

`BrowserslistUseragent::Resolver#call` takes a raw User-Agent string, has
`UserAgentParser` parse it, and turns the parsed browser family and version
and OS family and version into a `{family, version}` pair that uses the
browser names of the caniuse database. This project models that rule chain:

- `wrappers.dfy` — `Option`, for the places where Ruby yields a string or `nil`.
- `text.dfy` — module `Text`: `String#include?` (`Contains`), the leftmost
  occurrence of a literal (`IndexOf`, `FirstAt`) and the greedy `[^ ]*` run
  (`SpanNonSpace`, `MaximalRun`), which together give the meaning of
  `user_agent_string[/(?<=Chrome\/)[^ ]*/]`.
- `resolver.dfy` — module `Resolution`: the parsed agent (`Agent`), the result
  (`Resolved`), the alias lines as a table (`AliasRules`), the `Chrome/` token
  (`ExtractAfterChrome`), the rule chain as one decision (`ResolveSpec`) and the
  class `Resolver`, whose `Call` method follows the Ruby method statement by
  statement (Case A, the early return for iOS, the ten alias assignments where
  the last one that fires wins, the early return for in-app browsers) and is
  proved equal to `ResolveSpec`.

The parser and `VersionNormalizer` are collaborators whose code is not part of
this model. `Call` receives them as function values: `parse: string -> Agent`
and `normalize: Option<string> -> string`, where `normalize(Some(s))` is
`VersionNormalizer.new(s).call` and `normalize(None)` is
`VersionNormalizer.new(nil).call`. The parser and the normalizer are assumed
to return normally (the normalizer returns a string for `nil` as for every
string); beyond that nothing is assumed about them, so every property below
holds for every total parser and every total normalizer.

Two details of the regex in `lib/browserslist_useragent/resolver.rb` line 59 that the model keeps exactly:
- the token after `Chrome/` ends at the next space character only (`[^ ]`),
  not at any whitespace character;
- when `Chrome/` does not occur the regex yields `nil`, not an empty string,
  and that `nil` is handed to the normalizer (`InAppBrowserWithoutChrome`);
  when `Chrome/` is followed directly by a space the token is the empty string.

## Model

| member | source | states |
|---|---|---|
| Text.IndexOf | lib/browserslist_useragent/resolver.rb:59 | the result is present exactly when the pattern occurs, and is then the start of its leftmost occurrence; when absent no position starts an occurrence |
| Text.FirstAtUnique | lib/browserslist_useragent/resolver.rb:59 | the leftmost occurrence of a literal is a single position |
| Text.SpanNonSpace | lib/browserslist_useragent/resolver.rb:59 | the greedy `[^ ]*` match: a prefix of the input with no space that ends at a space or at the end of the input |
| Text.MaximalRunUnique | lib/browserslist_useragent/resolver.rb:59 | any maximal space-free prefix equals the one `SpanNonSpace` computes, so the match is determined by the input |
| Resolution.ExtractAfterChrome | lib/browserslist_useragent/resolver.rb:59 | absent exactly when `Chrome/` does not occur; otherwise the maximal space-free run that follows the first `Chrome/` |
| Resolution.ExtractAfterChromeCharacterised | lib/browserslist_useragent/resolver.rb:59 | conversely, any string that is the maximal space-free run after the first `Chrome/` is the extracted token |
| Text.Contains | lib/browserslist_useragent/resolver.rb:41 | `String#include?`: the needle occurs at some position of the string (the empty needle everywhere) |
| Resolution.Holds | lib/browserslist_useragent/resolver.rb:41-50 | an alias guard holds: substring test for the "Chrome Mobile" line, `==` for every other line |
| Resolution.MatchingAlias | lib/browserslist_useragent/resolver.rb:41-50 | yields nothing exactly when no alias guard holds, and otherwise the alias of a line whose guard holds |
| Resolution.ExactNamesLackChromeMobile | lib/browserslist_useragent/resolver.rb:41-56 | none of the names compared with `==` on the alias lines, nor Facebook or Instagram, contains "Chrome Mobile" |
| Resolution.AliasGuardsExclusive | lib/browserslist_useragent/resolver.rb:41-50 | no two alias guards hold for the same family |
| Resolution.AliasOfHit | lib/browserslist_useragent/resolver.rb:41-50 | when an alias guard holds, the family becomes that line's alias |
| Resolution.AliasOfMiss | lib/browserslist_useragent/resolver.rb:41-50 | when no alias guard holds, the family stays as the parser reported it |
| Resolution.AliasOfCases | lib/browserslist_useragent/resolver.rb:41-50 | the alias lines as a single first-match decision, line by line |
| Resolution.AliasRulesAgree | lib/browserslist_useragent/resolver.rb:41-50 | all alias lines that fire for one family give it the same alias |
| Resolution.SameRulesSameAlias | lib/browserslist_useragent/resolver.rb:41-50 | two lists holding the same alias lines give the same result when the lines that fire agree |
| Resolution.AliasOrderIrrelevant | lib/browserslist_useragent/resolver.rb:41-50 | any reordering of the alias lines yields the same family |
| Resolution.AliasTargetsCanonical | lib/browserslist_useragent/resolver.rb:41-50 | every alias line maps to one of the canonical names |
| Resolution.AliasTableCanonical | lib/browserslist_useragent/resolver.rb:41-50 | whatever alias the table yields for a family is a canonical name |
| Resolution.AliasOf | lib/browserslist_useragent/resolver.rb:17-50 | the family after the alias lines is the parser's family or a canonical name |
| Resolution.ResolveSpec | lib/browserslist_useragent/resolver.rb:14-64 | the rule chain as one decision: iOS first, then Facebook/Instagram, then the alias table; Case A does not appear in it |
| Resolution.Resolver.constructor | lib/browserslist_useragent/resolver.rb:10-12 | the resolver keeps the raw user-agent string it is given |
| Resolution.Resolver.Call | lib/browserslist_useragent/resolver.rb:14-64 | the statement-by-statement chain (Case A assignment, iOS return, last-wins alias assignments, in-app return) computes `ResolveSpec` of the parsed agent; in particular the Case A assignment never reaches the output and the alias order does not matter |
| Resolution.IosOverride | lib/browserslist_useragent/resolver.rb:22-34 | on iOS the result is "iOS" with the normalized OS version, whatever the browser family, empty or not Safari-like |
| Resolution.ChromeAliases | lib/browserslist_useragent/resolver.rb:41-42 | off iOS, a family containing "Chrome Mobile" or equal to "HeadlessChrome" becomes "Chrome" with the normalized browser version, not the OS version |
| Resolution.ExactAliases | lib/browserslist_useragent/resolver.rb:43-50 | off iOS, Edge Mobile, IE, IE Mobile, Firefox Mobile, Opera Mobile, QQ Browser Mobile, Samsung Internet and UC Browser become Edge, Explorer, ExplorerMobile, Firefox, OperaMobile, QQAndroid, SamsungInternet and UCAndroid, with the normalized browser version |
| Resolution.InAppBrowser | lib/browserslist_useragent/resolver.rb:56-61 | off iOS, Facebook and Instagram become "Chrome" with the normalized token that follows the first `Chrome/` |
| Resolution.InAppBrowserWithoutChrome | lib/browserslist_useragent/resolver.rb:56-61 | off iOS, Facebook and Instagram without any `Chrome/` become "Chrome" with the normalization of `nil` |
| Resolution.PassThrough | lib/browserslist_useragent/resolver.rb:17-63 | off iOS, a family no rule mentions is returned unchanged with the normalized browser version |
| Resolution.FamilyVocabulary | lib/browserslist_useragent/resolver.rb:17-63 | the resolved family is the parser's family or one of iOS, Chrome, Edge, Explorer, ExplorerMobile, Firefox, OperaMobile, QQAndroid, SamsungInternet, UCAndroid |
| Resolution.FacebookExample | lib/browserslist_useragent/resolver.rb:56-61 | Facebook on Android with `FBAV Chrome/99.0.1234.56 Mobile` resolves to Chrome with the normalization of `99.0.1234.56` |
| Resolution.ChromeMobileWebViewExample | lib/browserslist_useragent/resolver.rb:41 | "Chrome Mobile WebView" is caught by the substring test and becomes Chrome |
| Resolution.FirefoxOnWindowsExample | lib/browserslist_useragent/resolver.rb:63 | Firefox on Windows passes through with its normalized version |

## Left out

- `Resolver.user_agent_parser` and its memoised `UserAgentParser::Parser` (lines 66-68): a foreign library held in process-wide state; `Call` takes the parser as a function parameter instead.
- The internals of `UserAgentParser` (its regex database, version objects, `.to_s`): versions enter the model as the strings `.to_s` yields.
- `VersionNormalizer`: its source is not part of this model, so it is a function parameter; it is assumed to return a string for `nil` as for every string, and what that string is stays open.
- Encodings: strings are sequences of characters, so the `ArgumentError` Ruby raises when the regex on line 59 meets a string with an invalid byte sequence is not modelled.
- General Ruby regular-expression semantics: only the one lookbehind search `(?<=Chrome\/)[^ ]*` is modelled, as leftmost occurrence plus greedy run.
- Ruby `nil` user-agent strings: the raw string is always a string here.
