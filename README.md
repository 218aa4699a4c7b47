# dmhy auto sign-in, modelled in Dafny

This project models the sign-in adapter for the dmhy (u2.dmhy.org) site, `ptsites/sites/dmhy.py`. The adapter works in four steps:

- It fills the per-run entry with the sign-in URL, the success pattern, the request headers and the extraction table (`build_sign_in`).
- It fetches the sign-in page and classifies it as signed in, not signed in, or blocked by the network check (`check_sign_in_state`). On success it records the last match of the success pattern, with its tags and `&shy;` entities removed, as the entry's result.
- When the page is not signed in, it builds an answer to the site's CAPTCHA (`build_data`). Each round fetches the image, has it read by OCR and matches the text against the answer buttons with a fuzzy scorer. It also copies the hidden `req`, `hash` and `form` fields. When no answer is accepted, it reloads the challenge and tries again. Retries are bounded by the instance's counter `times`, which is never reset.
- It posts the answer, checks the network state of the reply and fetches the page again for the final check (`sign_in`).

Files:

- `host.dfy` (module `Host`) holds what the adapter gets from its host:
  - the per-run `Entry`, a class whose fields the adapter assigns;
  - the site configuration;
  - `World`, a datatype of total functions standing for everything the adapter asks of the outside world: the network-state check, response decoding, OCR, the regular-expression searches, the partial-ratio scorer and the final check.

  The n-th request an instance issues gets `Response(n)`, so a `World` fixes every reply.
- `tagstrip.dfy` (module `TagStrip`) gives a concrete definition of the substitution `<.*?>|&shy;` → `""` applied to the result. Its lemmas state what that substitution guarantees.
- `matching.dfy` (module `Matching`) models two things:
  - the caption → button-name dictionary, which is insertion-ordered and where the last assignment wins;
  - the fuzzy library's `extractOne`: the highest score, with the earliest choice winning a tie.
- `dmhy_rules.dfy` (module `DmhyRules`) holds:
  - the adapter's constants;
  - the specification functions `CheckState`, `FieldSteps`, `RoundSpec`, `BuildSpec`, `SubmitSpec` and `SignInSpec`.

  `BuildSpec` is stated over any round function (`Player`) whose retries stop at the budget. `RoundOf` is the adapter's own round.
- `dmhy.dfy` (module `Dmhy`) is the adapter itself:
  - class `MainClass`, with the reload counter `times` and the log `sent` of every request the instance issued;
  - imperative methods for each step, each proved equal to the corresponding specification function.

  `build_data`'s recursive self-call stays a recursive method, bounded by `10 - times`.
- `dmhy_properties.dfy` (module `DmhyProperties`) holds what the adapter guarantees, stated over the specification functions.

Behaviours of the code worth noting:

- **The reload counter.** `times` is set to 0 only when the instance is created (dmhy.py:43) and is never reset. So the 10 reloads are shared by every run of an instance (`LifetimeReloads`).
- **Exhausted budget.** Once the counter has reached 10, an unresolved round does not fail. `build_data` returns a payload holding `message` plus whatever fields that round found (`ExhaustedBudgetStillPays`), and `sign_in` posts it (`PayloadIsPosted`). With a challenge that can never be answered, a run spends the remaining budget and then posts the `message`-only payload (`UnanswerablePostsComment`).
- **Missing image or reload link.** `.group()` on a failed search raises in Python (dmhy.py:78, 116). This is modelled as the `Raised` / `Crashed` outcome, not as a failure reported on the entry.
- **After a reload**, only the network-state check is applied to the response (dmhy.py:118-120). No success pattern is looked for.

## Model

| member | source | states |
|---|---|---|
| Dmhy.MainClass.constructor | ptsites/sites/dmhy.py:41-43 | A new instance starts with the reload counter at 0 and no request sent. |
| Dmhy.MainClass.BuildSignIn | ptsites/sites/dmhy.py:46-57 | The entry's `url`, `base_url` and `data` become the module constants. `succeed_regex` is the username pattern with the configured username (or `None`) filled in, followed by the success pattern. `headers` has exactly the keys cookie (site config), user-agent (host config) and referer (the site root). |
| DmhyRules.UsernameRegex | ptsites/sites/dmhy.py:49 | The configured username (or `None`) sits between `<bdo dir='ltr'>` and `</bdo>`, and nothing else is added. |
| DmhyRules.UrlJoin | ptsites/sites/dmhy.py:79 | The reference follows the site root unchanged: a path the page patterns matched, joined to the root. |
| Dmhy.MainClass.Fetch | ptsites/sites/dmhy.py:128 | A request's reply is the next response of the run. The instance's log grows by exactly that request. |
| Host.Entry.FailWithPrefix | ptsites/sites/dmhy.py:135 | Failing the entry appends the reason to its failures and changes nothing else. |
| Dmhy.MainClass.CheckSignInState | ptsites/sites/dmhy.py:145-157 | Returns the state and content `CheckState` gives. Leaves the entry's result as `CheckState` says: set on success, untouched otherwise. |
| DmhyRules.CheckState | ptsites/sites/dmhy.py:145-157 | A not-signed-in verdict always carries the decoded page, so `build_data` always has a page to work on. |
| DmhyProperties.CheckStateClassifies | ptsites/sites/dmhy.py:145-157 | A truthy network state is returned at once, with no content and the result untouched. Otherwise the page counts as signed in exactly when the success pattern matches; the caller's non-empty pattern replaces the entry's. On success the result is the last match with tags and `&shy;` removed. Otherwise the result is left as it was. |
| DmhyProperties.SignedInResultTagFree | ptsites/sites/dmhy.py:155 | The result recorded for a signed-in page holds no tag that closes on its own line. |
| TagStrip.Strip | ptsites/sites/dmhy.py:155 | The substitution of `<.*?>` and `&shy;` by nothing, in one left-to-right pass. It never lengthens the text. What it does to tags, newlines and plain text is stated by the lemmas below. |
| TagStrip.CloseOffset | ptsites/sites/dmhy.py:155 | The end found for an opened tag lies inside the text. |
| TagStrip.CloseOffsetFirst | ptsites/sites/dmhy.py:155 | The non-greedy `<.*?>` ends at the first `>`, and only when no newline comes first (`.` does not match a newline). |
| TagStrip.CloseOffsetCloses | ptsites/sites/dmhy.py:155 | A tag end is found exactly when some `>` comes before the next newline. |
| TagStrip.StripOnlyDrops | ptsites/sites/dmhy.py:155 | Stripping only removes characters: the result's multiset of characters is contained in the input's. |
| TagStrip.StripKeepsNewlines | ptsites/sites/dmhy.py:155 | Stripping never removes a newline. |
| TagStrip.StripKeepsUnclosed | ptsites/sites/dmhy.py:155 | Text in which no tag can close stays that way after stripping. |
| TagStrip.StripLeavesNoTag | ptsites/sites/dmhy.py:155 | After stripping, no `<` is followed by a `>` on the same line. |
| TagStrip.StripPlainText | ptsites/sites/dmhy.py:155 | Text with no `<` and no `&` comes through unchanged. |
| Matching.Put | ptsites/sites/dmhy.py:95 | `captcha_dict[value] = captcha` maps the caption to the new name and keeps every other entry. The keys afterwards are the old keys plus the caption. A new caption goes to the end of the labels; an existing one keeps its place. The ordered labels stay the keys, each listed once. |
| Matching.FirstAt | ptsites/sites/dmhy.py:94-95 | The index it gives is that of a pair carrying the caption, or the number of pairs when none does. |
| Matching.PutAllFirstOrder | ptsites/sites/dmhy.py:90-95 | From an empty dictionary, the labels are listed in the order in which each caption first occurs among the pairs, as a Python dict iterates its keys. |
| Matching.PutAll | ptsites/sites/dmhy.py:94-95 | Inserting all pairs of a search keeps the labels and the keys in step. |
| Matching.PutAllKeys | ptsites/sites/dmhy.py:90-95 | From an empty dictionary, the keys are exactly the captions of the pairs, each listed once. |
| Matching.PutAllLastWins | ptsites/sites/dmhy.py:94-95 | A caption carried by several buttons is mapped to the name of the last of them. |
| Matching.PutAllNonEmpty | ptsites/sites/dmhy.py:93-95 | A search with at least one match leaves the dictionary non-empty, so `extractOne` has a choice. |
| Matching.ExtractOne | ptsites/sites/dmhy.py:101 | The choice returned scores at least as high as every choice, and strictly higher than every earlier one. |
| DmhyRules.KeyStep | ptsites/sites/dmhy.py:92-104 | One candidate pattern keeps the dictionary consistent. It only adds keys to the payload, and never unsets `found`. |
| DmhyRules.KeySteps | ptsites/sites/dmhy.py:91-104 | Every candidate pattern, in order, keeps the dictionary consistent. Together they only add keys to the payload, and never unset `found`. |
| DmhyRules.FieldStep | ptsites/sites/dmhy.py:88-112 | One item of the table only adds keys to the payload and never unsets `found`. A hidden field that goes through is in the payload, and leaves `found` as it was. |
| DmhyRules.FieldSteps | ptsites/sites/dmhy.py:88-112 | When the whole table goes through, every hidden field of the table is a key of the payload. |
| DmhyRules.Extract | ptsites/sites/dmhy.py:86-87 | A round can only be resolved when OCR read more than four characters. |
| DmhyRules.KeyStepsSettled | ptsites/sites/dmhy.py:98-100 | Once a candidate pattern stops the round, the later patterns change nothing, because the adapter has returned. |
| DmhyRules.FieldStepsSettled | ptsites/sites/dmhy.py:88-112 | Once an item of the table stops or raises, the later items change nothing. |
| Dmhy.CollectChoices | ptsites/sites/dmhy.py:94-95 | The loop over one search's pairs builds the dictionary `PutAll` describes. |
| Dmhy.MatchRegexKeys | ptsites/sites/dmhy.py:89-104 | The loop over the candidate patterns yields the step `FieldStep` describes for the `regex_keys` item. |
| Dmhy.ExtractFields | ptsites/sites/dmhy.py:88-112 | The loop over the extraction table yields the step `FieldSteps` describes: the payload and whether an answer was accepted, or the stop or exception ending the round. |
| DmhyProperties.BestOfPairs | ptsites/sites/dmhy.py:94-103 | For the pairs of one search, the caption `extractOne` picks scores at least as high as every button's caption. The dictionary names it after the last button carrying it. |
| DmhyProperties.TieGoesToFirstInserted | ptsites/sites/dmhy.py:94-101 | When several captions share the top score, `extractOne` returns the one whose first button comes earliest on the page. It does this because the dictionary keeps first-insertion order and `max` keeps the first maximum. |
| DmhyProperties.KeyStepChoosesBest | ptsites/sites/dmhy.py:92-104 | With at least one button, the chosen caption is a top-scoring one, under the name of the last button carrying it. It enters the payload, and resolves the round, exactly when its score is above 10. Otherwise the round is unchanged. |
| DmhyProperties.MissingKeyStops | ptsites/sites/dmhy.py:98-100 | A candidate pattern with no match stops the round with the reason naming the pattern and the URL. |
| DmhyProperties.HiddenFieldStep | ptsites/sites/dmhy.py:107-112 | A hidden field whose pattern finds nothing stops the round with the reason naming the key and the URL. One that matches is copied from its first group. |
| DmhyProperties.FieldStepsGo | ptsites/sites/dmhy.py:107-109 | Appending a matching hidden field to a table that went through adds exactly that key to the payload. |
| DmhyProperties.CaptchaItemGoes | ptsites/sites/dmhy.py:89-104 | A `regex_keys` item with one pattern that finds buttons always goes through, with the round `KeyStep` chose. |
| DmhyProperties.TableExtraction | ptsites/sites/dmhy.py:106-109 | Three matching hidden fields after a first item copy their first groups into the payload, in order, and keep the round's resolution. |
| DmhyProperties.DataTableExtraction | ptsites/sites/dmhy.py:88-112 | The site's table, on a page with buttons and the `req`, `hash` and `form` fields, yields the accepted button (if any) plus those three fields. It is resolved exactly when a button was accepted. |
| DmhyProperties.ShortOcrExtractsNothing | ptsites/sites/dmhy.py:85-87 | OCR text that is missing or at most 4 characters long extracts nothing and leaves the round unresolved. |
| DmhyRules.RoundSpec | ptsites/sites/dmhy.py:114-122 | A round reloads the challenge only while the counter is below 10. |
| DmhyRules.RoundOf | ptsites/sites/dmhy.py:114 | The adapter's round never goes on once the counter has reached the budget. |
| DmhyRules.ReloadSpec | ptsites/sites/dmhy.py:116-122 | The reload step never yields a payload and leaves the counter as it found it. It sends at most the one GET of the reload link, and goes on exactly after that one request. |
| DmhyRules.BuildSpec | ptsites/sites/dmhy.py:77-125 | The reference definition of `build_data`: rounds until one finishes, each retry one count higher. It carries no contract of its own. Its guarantees are `ReloadBudget`, `PayloadCarriesMessage`, `BuildOnlyGets`, `UnansweredSpendsBudget`, `ExhaustedBudgetStillPays` and `AcceptedAnswerPays`. |
| Dmhy.MainClass.ReloadChallenge | ptsites/sites/dmhy.py:114-122 | Counts the round, then finds and fetches the reload link, as `ReloadSpec` says. The counter rises by one and stays within the budget. |
| Dmhy.MainClass.PlayRound | ptsites/sites/dmhy.py:77-125 | One round returns what `RoundSpec` says. Its requests are appended to the log. The counter rises by one when the round goes on. It also rises by one when the round ends at a blocked reload or at a missing reload link, because the count comes first (line 115). The entry is failed only with the round's stop reason. |
| Dmhy.MainClass.BuildData | ptsites/sites/dmhy.py:77-125 | Returns what `BuildSpec` gives for the adapter's round, from the instance's counter. The counter, the log and the entry's failures end as `BuildSpec` says. |
| Dmhy.MainClass.Submit | ptsites/sites/dmhy.py:133-143 | Does what `SubmitSpec` says with `build_data`'s result. None or an empty payload fails the entry with 'Cannot build_data'. A non-empty payload is posted. Unless the post is blocked, the page is fetched for the final check. |
| DmhyRules.SubmitSpec | ptsites/sites/dmhy.py:133-143 | Something is sent exactly when `build_data` gave a truthy result, a non-empty payload. The first request is the POST of that payload to the sign-in URL, and the only other is the GET for the final check. That GET is sent exactly when the post's network state is falsy. The run crashes exactly when `build_data` raised. A falsy result (None or an empty dict) fails the entry with exactly 'Cannot build_data'. A truthy network state on the post fails nothing more. Otherwise the final check's reason, if it gives one, is the only failure. |
| Dmhy.MainClass.SignIn | ptsites/sites/dmhy.py:127-143 | A sign-in run ends, and leaves the counter, the log, the entry's failures and its result, as `SignInSpec` says. The first response is kept as the entry's base response. |
| DmhyRules.SignInSpec | ptsites/sites/dmhy.py:127-143 | Every run starts with the GET of the sign-in page. The entry's result changes only when that page is found signed in. |
| DmhyProperties.RoundAccounting | ptsites/sites/dmhy.py:114-117 | A round raises the counter by at most one and keeps it within 10. It reloads exactly once when it goes on. A finished round reloaded once per count, except that a missing reload link raises after the increment. |
| DmhyProperties.RoundOnlyGets | ptsites/sites/dmhy.py:77-122 | A round only sends GET requests: the image and the reload link. |
| DmhyProperties.RoundPayloadCarriesMessage | ptsites/sites/dmhy.py:123-125 | Every payload a round returns holds `message` set to the site comment. |
| DmhyProperties.ReloadBudget | ptsites/sites/dmhy.py:114-122 | `build_data` from counter `times` ends with the counter between `times` and 10. It reloads at most once per count, and exactly once per count unless it ended by raising. |
| DmhyProperties.PayloadCarriesMessage | ptsites/sites/dmhy.py:123-125 | Any payload `build_data` returns holds `message` set to the site comment, so it is truthy. |
| DmhyProperties.BuildOnlyGets | ptsites/sites/dmhy.py:77-125 | `build_data` only sends GET requests. |
| DmhyProperties.UnansweredRound | ptsites/sites/dmhy.py:86-125 | With both links on the page, nothing read by OCR and the reload not blocked: a round reloads (two requests) while the budget lasts, and otherwise pays out `message` alone. |
| DmhyProperties.UnansweredRounds | ptsites/sites/dmhy.py:86-125 | In a world where the challenge can never be answered, every round below the budget reloads, and the round at the budget pays out `message` alone. |
| DmhyProperties.UnansweredSpendsBudget | ptsites/sites/dmhy.py:114-125 | With rounds that reload until the budget is spent, `build_data` plays every remaining round, sending 2 × (10 − times) + 1 requests, and then returns the `message`-only payload. |
| DmhyProperties.UnanswerableSpendsBudget | ptsites/sites/dmhy.py:114-125 | With an unanswerable challenge, `build_data` reloads exactly 10 − times times, leaves the counter at 10, and still returns a payload holding only `message`. |
| DmhyProperties.ExhaustedBudgetStillPays | ptsites/sites/dmhy.py:114-125 | Once the instance's counter is at 10, `build_data` plays one round and returns that round's payload with `message` added, whatever it extracted. |
| DmhyProperties.AcceptedAnswerPays | ptsites/sites/dmhy.py:78-125 | Take a page whose image is found, whose OCR text is longer than four characters, whose best button is accepted and which carries `req`, `hash` and `form`. At any counter within the budget, `build_data` then ends after the first round with no reload and no failure. Its payload is the accepted button plus `req`, `hash`, `form` and `message`. |
| DmhyProperties.BlockedReloadGivesNone | ptsites/sites/dmhy.py:118-120 | A reload whose network state is truthy ends `build_data` with None, after counting the round. |
| DmhyProperties.ExtractionStopEndsBuild | ptsites/sites/dmhy.py:98-112 | An extraction that stops ends `build_data` with None. The entry is failed with the reason, with no count and no reload. |
| DmhyProperties.SettledPageStops | ptsites/sites/dmhy.py:129-131 | A signed-in or blocked page ends `sign_in` after the single page GET, with the counter unchanged. The adapter's own code fails nothing there. A blocked page is reported by the host's network check, whose effect on the entry is not modelled. |
| DmhyProperties.NoPayloadNoPost | ptsites/sites/dmhy.py:133-136 | When `build_data` returns None, `sign_in` sends no POST. Its last failure is 'Cannot build_data'. |
| DmhyProperties.AtMostOnePost | ptsites/sites/dmhy.py:127-143 | `sign_in` sends at most one POST, and only after the page was found not signed in. It is the answer, sent to the sign-in URL, and its form holds `message` set to the site comment. |
| DmhyProperties.PayloadIsPosted | ptsites/sites/dmhy.py:133-138 | Whenever `build_data` returns a non-empty payload for a page that is not signed in, that payload is posted to the sign-in URL, right after the page request and `build_data`'s requests. |
| DmhyProperties.PostOutcome | ptsites/sites/dmhy.py:138-143 | After a non-empty payload is posted, a truthy network state on the post ends the run with the POST as the last request and no failure added. Otherwise one more GET of the page follows, and the final check's reason, if any, is the one failure added. |
| DmhyProperties.UnanswerablePostsComment | ptsites/sites/dmhy.py:114-138 | With an unanswerable challenge, a run on a page that is not signed in leaves the counter at 10 and posts the payload holding only `message`, as its request number 2 × (10 − times) + 2. |
| DmhyProperties.LifetimeReloads | ptsites/sites/dmhy.py:114-117 | Across every `sign_in` run of an instance, the reloads sent never exceed the counter, and the counter never exceeds 10. |

## Left out

- HTTP (`_request`), response decoding (`_decode`), `check_net_state` and `final_check` live in the host's base classes, which are not part of this model. They are oracles of `World`. Any effect they have on the entry is not modelled, except that the final check's reason fails it.
- Request headers are not carried in the modelled requests. `BuildSignIn` sets them on the entry, but the session that sends them is not part of this model.
- Baidu OCR, PIL image decoding and the `dmhy.png` debug write (lines 80-83) are foreign calls and file I/O. OCR is an oracle from the image response to its text.
- The fuzzywuzzy internals: `partial_ratio` and `extractOne`'s default string processing are one oracle into 0..100. Only the choice of the maximum and the floor of 10 are modelled.
- The regular-expression engine: searches and `findall` are oracles. The one substitution on the result, `<.*?>|&shy;`, is modelled concretely.
- `urljoin(BASE_URL, ref)` is modelled as concatenation. This is exact for the relative `image.php?...` references the page patterns match, and not for arbitrary URLs.
- `fail_with_prefix` records the reason. The prefix the host puts in front of it is not modelled.
- Exceptions raised by the host or the network (transport errors) are not modelled. Only the adapter's own `.group()` failures are, as the `Raised`/`Crashed` outcome.
- `build_selector` (lines 59-75) is static configuration merged by a base class that is not part of this model.
- Logging (lines 84, 96-97, 137) has no effect on the modelled state.
- The answer payload `data` (lines 85, 103, 109, 124) is a Python dict, which keeps insertion order and is posted as the form body. The model's `map` keeps the keys and values but not the order of the form fields.
- html_rss.py is not part of this model.
- Dmhy.MainClass.constructor: the class invariant `Valid` only bounds the counter by 10. The link between the counter and the reloads in the log is stated over the specification functions by `LifetimeReloads`, and holds for the log through `SignIn`'s postcondition.
