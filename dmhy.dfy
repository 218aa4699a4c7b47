/** The dmhy sign-in adapter: the site class with its instance-wide reload
    counter, and the steps of its CAPTCHA round. Every method is proved to
    do what the functions of module DmhyRules say. */
module Dmhy {
  import opened Host
  import opened Matching
  import opened DmhyRules
  import TagStrip

  /** Fills the candidate dictionary from the pairs one search found, in
      order. */
  method CollectChoices(c: Choices, pairs: seq<(string, string)>) returns (r: Choices)
    ensures r == PutAll(c, pairs)
  {
    r := c;
    for k := 0 to |pairs|
      invariant r == PutAll(c, pairs[..k])
    {
      var (name, caption) := pairs[k];
      assert pairs[..k + 1][..k] == pairs[..k];
      r := Put(r, name, caption);
    }
    assert pairs[..|pairs|] == pairs;
  }

  /** The `regex_keys` item of a round: for each candidate pattern, collect
      its buttons and accept the best-scoring caption if it scores above the
      floor; a pattern without matches stops the round. */
  method MatchRegexKeys(w: World, text: string, url: string, content: string, round: Round, patterns: seq<string>)
    returns (s: Step<Round>)
    ensures s == FieldStep(w, text, url, content, round, RegexKeys(patterns))
  {
    var choices := NoChoices;
    var form, found := round.form, round.found;
    for j := 0 to |patterns|
      invariant Consistent(choices)
      invariant KeySteps(w, text, url, content, Keys(NoChoices, round), patterns[..j]) == Go(Keys(choices, Round(form, found)))
    {
      assert patterns[..j + 1][..j] == patterns[..j];
      var pairs := w.findPairs(patterns[j], content);
      if |pairs| == 0 {
        KeyStepsSettled(w, text, url, content, Keys(NoChoices, round), patterns, j + 1);
        return Stop(MissingKeyReason(patterns[j], url));
      }
      choices := CollectChoices(choices, pairs);
      PutAllNonEmpty(choices, pairs);
      var best := choices.labels[ExtractOne(w.partialRatio, text, choices.labels)];
      if w.partialRatio(text, best) > SCORE_FLOOR {
        form := form[choices.names[best] := Some(best)];
        found := true;
      }
    }
    assert patterns[..|patterns|] == patterns;
    return Go(Round(form, found));
  }

  /** All items of the extraction table, in order, for one round whose OCR
      text is `text`. */
  method ExtractFields(w: World, text: string, url: string, content: string, fields: seq<DataField>)
    returns (s: Step<Round>)
    ensures s == FieldSteps(w, text, url, content, fields)
  {
    var form: map<string, Option<string>> := map[];
    var found := false;
    for i := 0 to |fields|
      invariant FieldSteps(w, text, url, content, fields[..i]) == Go(Round(form, found))
    {
      assert fields[..i + 1][..i] == fields[..i];
      match fields[i]
      case RegexKeys(patterns) =>
        var step := MatchRegexKeys(w, text, url, content, Round(form, found), patterns);
        if !step.Go? {
          FieldStepsSettled(w, text, url, content, fields, i + 1);
          return step;
        }
        form, found := step.value.form, step.value.found;
      case Field(key, pattern) =>
        var m := w.search(pattern, content);
        if m.None? {
          FieldStepsSettled(w, text, url, content, fields, i + 1);
          return Stop(MissingFieldReason(key, url));
        }
        if |m.value.groups| == 0 {
          FieldStepsSettled(w, text, url, content, fields, i + 1);
          return Raise(NO_GROUP_ERROR);
        }
        form := form[key := Some(m.value.groups[0])];
    }
    assert fields[..|fields|] == fields;
    return Go(Round(form, found));
  }

  /** The dmhy site. `times` counts unresolved CAPTCHA rounds over the whole
      life of the instance and is never reset; `sent` records every request
      the instance issued, oldest first. */
  class MainClass {
    const world: World
    var times: nat
    var sent: seq<Request>

    /** The counter stays within the budget. */
    ghost predicate Valid()
      reads this
    {
      times <= MAX_RELOADS
    }

    constructor (world: World)
      ensures Valid() && this.world == world
      ensures times == 0 && sent == []
    {
      this.world := world;
      times := 0;
      sent := [];
    }

    /** The CAPTCHA round this instance plays for an entry: the entry's
        extraction table and URL, and its site comment. */
    ghost function Play(entry: Entry): Player
      reads entry
    {
      RoundOf(world, Extractor(world, entry.data, entry.url), entry.siteConfig.comment)
    }

    /** Issues a request; its response is the next one in the run. */
    method Fetch(purpose: Purpose, verb: Verb, url: string, form: map<string, Option<string>>)
      returns (response: Response)
      modifies this`sent
      ensures response == Response(|old(sent)|)
      ensures sent == old(sent) + [Request(purpose, verb, url, form)]
    {
      response := Response(|sent|);
      sent := sent + [Request(purpose, verb, url, form)];
    }

    /** Fills the entry with the sign-in URL, the success pattern, the
        request headers and the extraction table. */
    static method BuildSignIn(entry: Entry, config: Config)
      modifies entry`url, entry`succeedRegex, entry`baseUrl, entry`headers, entry`data
      ensures entry.url == URL && entry.baseUrl == BASE_URL && entry.data == DATA
      ensures entry.succeedRegex == UsernameRegex(entry.siteConfig.username) + SUCCEED_REGEX
      ensures entry.headers.Keys == {"cookie", "user-agent", "referer"}
      ensures entry.headers["cookie"] == entry.siteConfig.cookie
      ensures entry.headers["user-agent"] == config.userAgent
      ensures entry.headers["referer"] == Some(BASE_URL)
    {
      var siteConfig := entry.siteConfig;
      entry.url := URL;
      entry.succeedRegex := UsernameRegex(siteConfig.username) + SUCCEED_REGEX;
      entry.baseUrl := BASE_URL;
      var headers := map["cookie" := siteConfig.cookie, "user-agent" := config.userAgent, "referer" := Some(BASE_URL)];
      entry.headers := headers;
      entry.data := DATA;
    }

    /** Classifies the response to a request for originalUrl and, on
        success, records the stripped last match as the entry's result. */
    method CheckSignInState(entry: Entry, response: Response, originalUrl: string, regex: Option<string>)
      returns (state: SignState, content: Option<string>)
      modifies entry`result
      ensures var c := CheckState(world, response, originalUrl, regex, entry.succeedRegex, old(entry.result));
              state == c.state && content == c.content && entry.result == c.result
    {
      var netState := world.netState(response, originalUrl);
      if netState.Some? {
        return NetworkError(netState.value), None;
      }
      var text := world.decode(response);
      var pattern := if regex.Some? && regex.value != "" then regex.value else entry.succeedRegex;
      var succeedList := world.findAll(pattern, text);
      if |succeedList| > 0 {
        entry.result := Some(TagStrip.Strip(succeedList[|succeedList| - 1]));
        return Succeed, Some(text);
      }
      return NoSignIn, Some(text);
    }

    /** The end of an unresolved round: count it, then find and fetch the
        reload link. */
    method ReloadChallenge(content: string) returns (turn: Turn)
      requires Valid() && times < MAX_RELOADS
      modifies this`times, this`sent
      ensures Valid()
      ensures turn == ReloadSpec(world, content, old(times) + 1, |old(sent)|)
      ensures times == old(times) + 1
      ensures turn.Finish? ==> turn.trace.times == times && sent == old(sent) + turn.trace.requests
      ensures turn.Retry? ==> sent == old(sent) + turn.requests
    {
      times := times + 1;
      var link := world.search(RELOAD_REGEX, content);
      if link.None? {
        return Finish(Trace(Raised(NO_MATCH_ERROR), times, [], []));
      }
      var reloadUrl := UrlJoin(BASE_URL, link.value.whole);
      var response := Fetch(Reload, Get, reloadUrl, map[]);
      if world.netState(response, reloadUrl).Some? {
        return Finish(Trace(NoPayload, times, [Request(Reload, Get, reloadUrl, map[])], []));
      }
      return Retry([Request(Reload, Get, reloadUrl, map[])], world.decode(response));
    }

    /** One round of build_data on page text `content`: fetch the CAPTCHA
        image and read it, extract the fields when the text is long enough,
        and, when no answer was accepted and the counter is below the budget,
        count the round and reload the challenge. */
    method PlayRound(entry: Entry, content: string) returns (turn: Turn)
      requires Valid()
      modifies this`times, this`sent, entry`failures
      ensures Valid()
      ensures turn == RoundSpec(world, Extractor(world, entry.data, entry.url), entry.siteConfig.comment, content, old(times), |old(sent)|)
      ensures turn.Finish? ==> times == turn.trace.times && sent == old(sent) + turn.trace.requests
                               && entry.failures == old(entry.failures) + turn.trace.failures
      ensures turn.Retry? ==> times == old(times) + 1 && sent == old(sent) + turn.requests
                              && entry.failures == old(entry.failures)
    {
      ghost var extract, comment := Extractor(world, entry.data, entry.url), entry.siteConfig.comment;
      ghost var count, serial := times, |sent|;
      var img := world.search(IMG_REGEX, content);
      if img.None? {
        return Finish(Trace(Raised(NO_MATCH_ERROR), times, [], []));
      }
      var image := Request(CaptchaImage, Get, UrlJoin(BASE_URL, img.value.whole), map[]);
      var imgResponse := Fetch(CaptchaImage, Get, UrlJoin(BASE_URL, img.value.whole), map[]);
      var text := world.ocr(imgResponse);
      ghost var extracted := extract(text, content);
      var round := Round(map[], false);
      if text.Some? && |text.value| > MIN_OCR_LENGTH {
        var step := ExtractFields(world, text.value, entry.url, content, entry.data);
        assert step == extracted;
        match step
        case Stop(reason) =>
          entry.FailWithPrefix(reason);
          return Finish(Trace(NoPayload, times, [image], [reason]));
        case Raise(error) =>
          return Finish(Trace(Raised(error), times, [image], []));
        case Go(r) =>
          round := r;
      }
      assert extracted == Go(round);
      if !round.found && times < MAX_RELOADS {
        ghost var before, reloadTimes := sent, times + 1;
        var rest := ReloadChallenge(content);
        RoundSpecReloads(world, extract, comment, content, count, serial, img.value, round, reloadTimes, |before|);
        match rest {
          case Finish(trace) => AppendAssoc(old(sent), [image], trace.requests);
          case Retry(requests, next) => AppendAssoc(old(sent), [image], requests);
        }
        return Preceded(image, rest);
      }
      RoundSpecResolved(world, extract, comment, content, count, serial, img.value, round);
      return Finish(Trace(Payload(round.form[MESSAGE := entry.siteConfig.comment]), times, [image], []));
    }

    /** Builds the answer payload from the page text `content`: plays a
        round and, when it reloaded the challenge, builds again from the
        reloaded page. */
    method BuildData(entry: Entry, content: string) returns (built: Built)
      requires Valid()
      modifies this`times, this`sent, entry`failures
      ensures Valid()
      ensures var t := BuildSpec(Play(entry), content, old(times), |old(sent)|);
              built == t.built && times == t.times && sent == old(sent) + t.requests
              && entry.failures == old(entry.failures) + t.failures
      decreases MAX_RELOADS - times
    {
      ghost var play := Play(entry);
      ghost var count, before := times, sent;
      var turn := PlayRound(entry, content);
      match turn
      case Finish(trace) =>
        BuildSpecFinish(play, content, count, |before|, trace);
        return trace.built;
      case Retry(requests, next) =>
        ghost var middle, nextTimes := sent, times;
        BuildSpecRetry(play, content, count, |before|, requests, next, nextTimes, |middle|);
        built := BuildData(entry, next);
        ghost var rest := BuildSpec(play, next, nextTimes, |middle|);
        PrependTwice(before, requests, rest);
    }

    /** What sign_in does with build_data's result. */
    method Submit(entry: Entry, built: Built) returns (exit: Exit)
      requires Valid()
      modifies this`sent, entry`failures
      ensures Valid()
      ensures var tail := SubmitSpec(world, entry.url, built, |old(sent)|);
              exit == tail.exit && sent == old(sent) + tail.requests && entry.failures == old(entry.failures) + tail.failures
    {
      match built
      case Raised(error) =>
        return Crashed(error);
      case NoPayload =>
        entry.FailWithPrefix(CANNOT_BUILD_DATA);
        return Completed;
      case Payload(form) =>
        if form == map[] {
          entry.FailWithPrefix(CANNOT_BUILD_DATA);
          return Completed;
        }
        var answerResponse := Fetch(Answer, Post, entry.url, form);
        if world.netState(answerResponse, entry.url).Some? {
          return Completed;
        }
        var response := Fetch(Verify, Get, entry.url, map[]);
        var verdict := world.finalCheck(response, entry.url);
        if verdict.Some? {
          entry.FailWithPrefix(verdict.value);
        } else {
          assert entry.failures == old(entry.failures) + [];
        }
        return Completed;
    }

    /** One sign-in run: check the page, build the answer, post it, check
        the network state, then fetch the page for the final check. */
    method SignIn(entry: Entry) returns (exit: Exit)
      requires Valid()
      modifies this`times, this`sent, entry`failures, entry`result, entry`baseResponse
      ensures Valid()
      ensures entry.baseResponse == Some(Response(|old(sent)|))
      ensures var run := SignInSpec(world, entry.url, entry.succeedRegex, Play(entry), old(entry.result), old(times), |old(sent)|);
              exit == run.exit && times == run.times && sent == old(sent) + run.requests
              && entry.failures == old(entry.failures) + run.failures && entry.result == run.result
    {
      ghost var url, succeedRegex, play := entry.url, entry.succeedRegex, Play(entry);
      ghost var result, count, before, failures := entry.result, times, sent, entry.failures;
      var baseResponse := Fetch(SignInPage, Get, entry.url, map[]);
      entry.baseResponse := Some(baseResponse);
      var state, baseContent := CheckSignInState(entry, baseResponse, entry.url, None);
      ghost var checked := CheckState(world, baseResponse, url, None, succeedRegex, result);
      if state != NoSignIn {
        SignInSpecSettled(world, url, succeedRegex, play, result, count, |before|, checked);
        return Completed;
      }
      ghost var sent1 := sent;
      var built := BuildData(entry, baseContent.value);
      ghost var t := BuildSpec(play, checked.content.value, count, |sent1|);
      ghost var sent2 := sent;
      exit := Submit(entry, built);
      ghost var tail := SubmitSpec(world, url, built, |sent2|);
      SignInSpecBuilds(world, url, succeedRegex, play, result, count, |before|, checked, |sent1|, t, |sent2|, tail);
      AppendAssoc(before, [Request(SignInPage, Get, url, map[])], t.requests);
      AppendAssoc(before, [Request(SignInPage, Get, url, map[])] + t.requests, tail.requests);
      AppendAssoc(failures, t.failures, tail.failures);
    }
  }
}
