/** What the dmhy adapter's decisions guarantee, stated over the functions
    of module DmhyRules: the reload budget shared by every run of an
    instance, the payload build_data always assembles, its early exits, the
    choice of the answer button, the classification of the sign-in page and
    the requests sign_in sends. */
module DmhyProperties {
  import opened Host
  import opened Matching
  import opened DmhyRules
  import TagStrip

  /** Every request of the list is a GET. */
  ghost predicate AllGets(requests: seq<Request>)
  {
    forall i :: 0 <= i < |requests| ==> requests[i].verb == Get
  }

  lemma ReloadCountOne(r: Request)
    ensures ReloadCount([r]) == if r.purpose == Reload then 1 else 0
  {
    assert [r][..0] == [];
  }

  lemma AllGetsAppend(a: seq<Request>, b: seq<Request>)
    requires AllGets(a) && AllGets(b)
    ensures AllGets(a + b)
  {
    forall i | 0 <= i < |a + b| ensures (a + b)[i].verb == Get {
      if i >= |a| { assert (a + b)[i] == b[i - |a|]; }
    }
  }

  // ---------------------------------------------------------------------
  // build_data

  /** What a round started with the counter at `times` costs: finished, it
      leaves the counter where it was or one higher and within the budget,
      having reloaded once per counted round unless it raised; going on, it
      reloaded exactly once. */
  ghost predicate Accounted(turn: Turn, times: nat)
  {
    match turn
    case Finish(t) =>
      times <= t.times <= MAX_RELOADS && t.times <= times + 1
      && ReloadCount(t.requests) <= t.times - times
      && (!t.built.Raised? ==> ReloadCount(t.requests) == t.times - times)
    case Retry(requests, _) =>
      times < MAX_RELOADS && ReloadCount(requests) == 1
  }

  /** Every round started within the budget is accounted for. */
  ghost predicate Accounts(play: Player)
  {
    forall content: string, times: nat, serial: nat ::
      times <= MAX_RELOADS ==> Accounted(play(content, times, serial), times)
  }

  /** Every round only sends GET requests. */
  ghost predicate OnlyGets(play: Player)
  {
    forall content: string, times: nat, serial: nat :: AllGets(TurnRequests(play(content, times, serial)))
  }

  /** Every round that finishes with a payload has set `message` to the
      site comment. */
  ghost predicate Signed(play: Player, comment: Option<string>)
  {
    forall content: string, times: nat, serial: nat ::
      var turn := play(content, times, serial);
      turn.Finish? && turn.trace.built.Payload? ==>
        MESSAGE in turn.trace.built.form && turn.trace.built.form[MESSAGE] == comment
  }

  /** The adapter's round is accounted for: the counter is incremented
      exactly when the challenge is reloaded, except that a missing reload
      link raises after the increment. */
  lemma RoundAccounting(w: World, extract: Extraction, comment: Option<string>)
    ensures Accounts(RoundOf(w, extract, comment))
  {
    forall content: string, times: nat, serial: nat | times <= MAX_RELOADS
      ensures Accounted(RoundOf(w, extract, comment)(content, times, serial), times)
    {
      if w.search(IMG_REGEX, content).Some? {
        var img := w.search(IMG_REGEX, content).value;
        var image := Request(CaptchaImage, Get, UrlJoin(BASE_URL, img.whole), map[]);
        ReloadCountOne(image);
        var extracted := extract(w.ocr(Response(serial)), content);
        if extracted.Go? && !extracted.value.found && times < MAX_RELOADS && w.search(RELOAD_REGEX, content).Some? {
          var link := w.search(RELOAD_REGEX, content).value;
          var reload := Request(Reload, Get, UrlJoin(BASE_URL, link.whole), map[]);
          ReloadCountOne(reload);
          ReloadCountAppend([image], [reload]);
          assert [image] + [reload] == [image, reload];
        }
      }
    }
  }

  /** The adapter's round only sends GET requests: the image and the
      reload link. */
  lemma RoundOnlyGets(w: World, extract: Extraction, comment: Option<string>)
    ensures OnlyGets(RoundOf(w, extract, comment))
  {
    forall content: string, times: nat, serial: nat
      ensures AllGets(TurnRequests(RoundOf(w, extract, comment)(content, times, serial)))
    {
      var turn := RoundSpec(w, extract, comment, content, times, serial);
      forall i | 0 <= i < |TurnRequests(turn)| ensures TurnRequests(turn)[i].verb == Get {
      }
    }
  }

  /** The adapter's round adds `message` set to the site comment to every
      payload it returns. */
  lemma RoundPayloadCarriesMessage(w: World, extract: Extraction, comment: Option<string>)
    ensures Signed(RoundOf(w, extract, comment), comment)
  {
  }

  /** The retry bound: build_data starting with the counter at `times` ends
      with the counter between `times` and the budget of 10, and reloads at
      most once per counted round; exactly once unless it ended by raising
      (the counter is incremented before the reload link is searched). */
  lemma {:induction false} ReloadBudget(play: Player, content: string, times: nat, serial: nat)
    requires Bounded(play) && Accounts(play) && times <= MAX_RELOADS
    ensures var t := BuildSpec(play, content, times, serial);
            times <= t.times <= MAX_RELOADS && ReloadCount(t.requests) <= t.times - times
            && (!t.built.Raised? ==> ReloadCount(t.requests) == t.times - times)
    decreases MAX_RELOADS - times
  {
    assert Accounted(play(content, times, serial), times);
    match play(content, times, serial)
    case Finish(trace) =>
      BuildSpecFinish(play, content, times, serial, trace);
    case Retry(requests, next) =>
      BuildSpecRetry(play, content, times, serial, requests, next, times + 1, serial + |requests|);
      ReloadBudget(play, next, times + 1, serial + |requests|);
      RetryBudget(requests, BuildSpec(play, next, times + 1, serial + |requests|), times);
  }

  /** One reload in front of the rest of build_data, started one count
      higher, keeps the reloads equal to the counts. */
  lemma RetryBudget(requests: seq<Request>, rest: Trace, times: nat)
    requires times < MAX_RELOADS && ReloadCount(requests) == 1
    requires times + 1 <= rest.times <= MAX_RELOADS && ReloadCount(rest.requests) <= rest.times - (times + 1)
    requires !rest.built.Raised? ==> ReloadCount(rest.requests) == rest.times - (times + 1)
    ensures var t := Prepend(requests, rest);
            times <= t.times <= MAX_RELOADS && ReloadCount(t.requests) <= t.times - times
            && (!t.built.Raised? ==> ReloadCount(t.requests) == t.times - times)
  {
    ReloadCountAppend(requests, rest.requests);
  }

  /** Whatever page text build_data starts from, the payload it returns
      holds `message` set to the site comment; so sign_in's `if not data`
      test fails exactly when build_data returned None. */
  lemma {:induction false} PayloadCarriesMessage(play: Player, comment: Option<string>,
                                                 content: string, times: nat, serial: nat)
    requires Bounded(play) && Signed(play, comment) && times <= MAX_RELOADS
    ensures var t := BuildSpec(play, content, times, serial);
            t.built.Payload? ==> MESSAGE in t.built.form && t.built.form[MESSAGE] == comment
    decreases MAX_RELOADS - times
  {
    match play(content, times, serial)
    case Finish(trace) =>
      BuildSpecFinish(play, content, times, serial, trace);
    case Retry(requests, next) =>
      BuildSpecRetry(play, content, times, serial, requests, next, times + 1, serial + |requests|);
      PayloadCarriesMessage(play, comment, next, times + 1, serial + |requests|);
  }

  /** build_data only ever sends GET requests. */
  lemma {:induction false} BuildOnlyGets(play: Player, content: string, times: nat, serial: nat)
    requires Bounded(play) && OnlyGets(play) && times <= MAX_RELOADS
    ensures AllGets(BuildSpec(play, content, times, serial).requests)
    decreases MAX_RELOADS - times
  {
    assert AllGets(TurnRequests(play(content, times, serial)));
    match play(content, times, serial)
    case Finish(trace) =>
      BuildSpecFinish(play, content, times, serial, trace);
    case Retry(requests, next) =>
      BuildSpecRetry(play, content, times, serial, requests, next, times + 1, serial + |requests|);
      BuildOnlyGets(play, next, times + 1, serial + |requests|);
      AllGetsAppend(requests, BuildSpec(play, next, times + 1, serial + |requests|).requests);
  }

  /** A world in which the challenge can never be answered: the image and
      reload links are always on the page, OCR never reads anything and no
      request is blocked. */
  ghost predicate Unanswerable(w: World)
  {
    (forall c :: w.search(IMG_REGEX, c).Some?)
    && (forall c :: w.search(RELOAD_REGEX, c).Some?)
    && (forall r :: w.ocr(r).None?)
    && (forall r, u :: w.netState(r, u).None?)
  }

  /** One round on a page carrying both links, with nothing read by OCR and
      the reload not blocked: it reloads while budget is left, and otherwise
      pays out `message` alone. */
  lemma UnansweredRound(w: World, fields: seq<DataField>, url: string, comment: Option<string>,
                        content: string, times: nat, serial: nat, img: Match, link: Match)
    requires w.search(IMG_REGEX, content) == Some(img) && w.search(RELOAD_REGEX, content) == Some(link)
    requires w.ocr(Response(serial)).None? && w.netState(Response(serial + 1), UrlJoin(BASE_URL, link.whole)).None?
    ensures var image := Request(CaptchaImage, Get, UrlJoin(BASE_URL, img.whole), map[]);
            var reload := Request(Reload, Get, UrlJoin(BASE_URL, link.whole), map[]);
            RoundSpec(w, Extractor(w, fields, url), comment, content, times, serial)
            == if times < MAX_RELOADS then Retry([image, reload], w.decode(Response(serial + 1)))
               else Finish(Trace(Payload(map[MESSAGE := comment]), times, [image], []))
  {
    var round := Round(map[], false);
    ShortOcrExtractsNothing(w, fields, url, None, content);
    if times < MAX_RELOADS {
      RoundSpecReloads(w, Extractor(w, fields, url), comment, content, times, serial, img, round, times + 1, serial + 1);
    } else {
      RoundSpecResolved(w, Extractor(w, fields, url), comment, content, times, serial, img, round);
    }
  }

  /** Every round below the budget reloads (two requests: image and reload
      link), and the round at the budget returns the payload holding only
      `message`, after the image request alone. */
  ghost predicate ReloadsUntilSpent(play: Player, comment: Option<string>)
  {
    forall content: string, times: nat, serial: nat ::
      var turn := play(content, times, serial);
      (times < MAX_RELOADS ==> turn.Retry? && |turn.requests| == 2)
      && (times == MAX_RELOADS ==> turn.Finish? && turn.trace.built == Payload(map[MESSAGE := comment])
                                   && turn.trace.times == times && |turn.trace.requests| == 1)
  }

  /** In a world where the challenge can never be answered, the adapter's
      round reloads until the budget is spent. */
  lemma UnansweredRounds(w: World, fields: seq<DataField>, url: string, comment: Option<string>)
    requires Unanswerable(w)
    ensures ReloadsUntilSpent(RoundOf(w, Extractor(w, fields, url), comment), comment)
  {
    forall content: string, times: nat, serial: nat
      ensures var turn := RoundOf(w, Extractor(w, fields, url), comment)(content, times, serial);
              (times < MAX_RELOADS ==> turn.Retry? && |turn.requests| == 2)
              && (times == MAX_RELOADS ==> turn.Finish? && turn.trace.built == Payload(map[MESSAGE := comment])
                                           && turn.trace.times == times && |turn.trace.requests| == 1)
    {
      var img := w.search(IMG_REGEX, content).value;
      var link := w.search(RELOAD_REGEX, content).value;
      assert w.ocr(Response(serial)).None? && w.netState(Response(serial + 1), UrlJoin(BASE_URL, link.whole)).None?;
      UnansweredRound(w, fields, url, comment, content, times, serial, img, link);
    }
  }

  /** With rounds that reload until the budget is spent, build_data plays
      every remaining round, sending 2 * (10 - times) + 1 requests, and then
      still returns a payload holding only `message`. */
  lemma {:induction false} UnansweredSpendsBudget(play: Player, comment: Option<string>,
                                                  content: string, times: nat, serial: nat)
    requires Bounded(play) && ReloadsUntilSpent(play, comment) && times <= MAX_RELOADS
    ensures var t := BuildSpec(play, content, times, serial);
            t.built == Payload(map[MESSAGE := comment]) && t.times == MAX_RELOADS
            && |t.requests| == 2 * (MAX_RELOADS - times) + 1
    decreases MAX_RELOADS - times
  {
    match play(content, times, serial)
    case Finish(trace) =>
      BuildSpecFinish(play, content, times, serial, trace);
    case Retry(requests, next) =>
      BuildSpecRetry(play, content, times, serial, requests, next, times + 1, serial + |requests|);
      UnansweredSpendsBudget(play, comment, next, times + 1, serial + |requests|);
  }

  /** With an unanswerable challenge, build_data spends the whole remaining
      budget, reloading once in each of the 10 - times rounds before the
      last, and then still returns a payload holding only `message`. */
  lemma UnanswerableSpendsBudget(w: World, fields: seq<DataField>, url: string, comment: Option<string>,
                                 content: string, times: nat, serial: nat)
    requires times <= MAX_RELOADS && Unanswerable(w)
    ensures var t := BuildSpec(RoundOf(w, Extractor(w, fields, url), comment), content, times, serial);
            t.built == Payload(map[MESSAGE := comment]) && t.times == MAX_RELOADS
            && |t.requests| == 2 * (MAX_RELOADS - times) + 1
            && ReloadCount(t.requests) == MAX_RELOADS - times
  {
    var play := RoundOf(w, Extractor(w, fields, url), comment);
    UnansweredRounds(w, fields, url, comment);
    UnansweredSpendsBudget(play, comment, content, times, serial);
    RoundAccounting(w, Extractor(w, fields, url), comment);
    ReloadBudget(play, content, times, serial);
  }

  /** Once the instance's counter has reached the budget, build_data plays
      a single round and, whatever it extracted, returns that round's
      payload with `message` added: it does not fail. */
  lemma ExhaustedBudgetStillPays(w: World, extract: Extraction, comment: Option<string>,
                                 content: string, serial: nat, img: Match, round: Round)
    requires w.search(IMG_REGEX, content) == Some(img)
    requires extract(w.ocr(Response(serial)), content) == Go(round)
    ensures BuildSpec(RoundOf(w, extract, comment), content, MAX_RELOADS, serial)
            == Trace(Payload(round.form[MESSAGE := comment]), MAX_RELOADS,
                     [Request(CaptchaImage, Get, UrlJoin(BASE_URL, img.whole), map[])], [])
  {
    RoundSpecResolved(w, extract, comment, content, MAX_RELOADS, serial, img, round);
    BuildSpecFinish(RoundOf(w, extract, comment), content, MAX_RELOADS, serial,
                    Trace(Payload(round.form[MESSAGE := comment]), MAX_RELOADS,
                          [Request(CaptchaImage, Get, UrlJoin(BASE_URL, img.whole), map[])], []));
  }

  /** OCR text that is missing or at most four characters long extracts
      nothing and leaves the round unresolved. */
  lemma ShortOcrExtractsNothing(w: World, fields: seq<DataField>, url: string, ocrText: Option<string>, content: string)
    requires ocrText.None? || |ocrText.value| <= MIN_OCR_LENGTH
    ensures Extract(w, fields, url, ocrText, content) == Go(Round(map[], false))
  {
  }

  /** A reload whose network state is truthy ends build_data with None,
      after counting the round. */
  lemma BlockedReloadGivesNone(w: World, extract: Extraction, comment: Option<string>,
                               content: string, times: nat, serial: nat, img: Match, round: Round, link: Match)
    requires times < MAX_RELOADS
    requires w.search(IMG_REGEX, content) == Some(img)
    requires extract(w.ocr(Response(serial)), content) == Go(round) && !round.found
    requires w.search(RELOAD_REGEX, content) == Some(link)
    requires w.netState(Response(serial + 1), UrlJoin(BASE_URL, link.whole)).Some?
    ensures BuildSpec(RoundOf(w, extract, comment), content, times, serial)
            == Trace(NoPayload, times + 1,
                     [Request(CaptchaImage, Get, UrlJoin(BASE_URL, img.whole), map[]),
                      Request(Reload, Get, UrlJoin(BASE_URL, link.whole), map[])], [])
  {
    var image := Request(CaptchaImage, Get, UrlJoin(BASE_URL, img.whole), map[]);
    var reload := Request(Reload, Get, UrlJoin(BASE_URL, link.whole), map[]);
    RoundSpecReloads(w, extract, comment, content, times, serial, img, round, times + 1, serial + 1);
    assert [image] + [reload] == [image, reload];
    BuildSpecFinish(RoundOf(w, extract, comment), content, times, serial, Trace(NoPayload, times + 1, [image, reload], []));
  }

  /** An extraction that stops (a candidate pattern or a hidden field not
      found) ends build_data with None after failing the entry with the
      reason, without counting the round or reloading. */
  lemma ExtractionStopEndsBuild(w: World, extract: Extraction, comment: Option<string>,
                                content: string, times: nat, serial: nat, img: Match, reason: string)
    requires times <= MAX_RELOADS
    requires w.search(IMG_REGEX, content) == Some(img)
    requires extract(w.ocr(Response(serial)), content) == Stop(reason)
    ensures BuildSpec(RoundOf(w, extract, comment), content, times, serial)
            == Trace(NoPayload, times, [Request(CaptchaImage, Get, UrlJoin(BASE_URL, img.whole), map[])], [reason])
  {
    BuildSpecFinish(RoundOf(w, extract, comment), content, times, serial,
                    Trace(NoPayload, times, [Request(CaptchaImage, Get, UrlJoin(BASE_URL, img.whole), map[])], [reason]));
  }

  // ---------------------------------------------------------------------
  // The answer button

  /** The last position of the pairs whose caption is `caption`. */
  function LastWith(pairs: seq<(string, string)>, caption: string): (i: nat)
    requires exists k :: 0 <= k < |pairs| && pairs[k].1 == caption
    ensures i < |pairs| && pairs[i].1 == caption
    ensures forall j :: i < j < |pairs| ==> pairs[j].1 != caption
    decreases |pairs|
  {
    if pairs[|pairs| - 1].1 == caption then |pairs| - 1
    else
      var init := pairs[..|pairs| - 1];
      assert exists k :: 0 <= k < |init| && init[k].1 == caption by {
        var k :| 0 <= k < |pairs| && pairs[k].1 == caption;
        assert init[k] == pairs[k];
      }
      LastWith(init, caption)
  }

  /** The button a non-empty list of (name, caption) pairs yields once put
      into an empty dictionary: the caption the fuzzy scorer picks scores at
      least as high as every caption of the list, and the dictionary names it
      after the LAST pair carrying it, at position i. */
  lemma BestOfPairs(ratio: (string, string) -> Score, text: string, pairs: seq<(string, string)>) returns (i: nat)
    requires |pairs| > 0
    ensures var c := PutAll(NoChoices, pairs);
            |c.labels| > 0 && i < |pairs|
            && c.labels[ExtractOne(ratio, text, c.labels)] == pairs[i].1
            && c.names[pairs[i].1] == pairs[i].0
            && (forall j :: i < j < |pairs| ==> pairs[j].1 != pairs[i].1)
            && (forall j :: 0 <= j < |pairs| ==> ratio(text, pairs[j].1) <= ratio(text, pairs[i].1))
  {
    var c := PutAll(NoChoices, pairs);
    PutAllLastWins(NoChoices, pairs);
    PutAllNonEmpty(NoChoices, pairs);
    var k := ExtractOne(ratio, text, c.labels);
    var best := c.labels[k];
    var carrier := CarrierOf(pairs, best);
    i := LastWith(pairs, best);
    PutAllHolds(NoChoices, pairs);
    TopOverPairs(ratio, text, pairs, c, k);
  }

  /** A key of the dictionary built from the pairs is carried by one of
      them. */
  lemma CarrierOf(pairs: seq<(string, string)>, l: string) returns (k: nat)
    requires l in PutAll(NoChoices, pairs).labels
    ensures k < |pairs| && pairs[k].1 == l
  {
    PutAllKeys(pairs);
    k :| 0 <= k < |pairs| && pairs[k].1 == l;
  }

  /** A label scoring at least as high as every label scores at least as high
      as every caption of the pairs, all of which are keys. */
  lemma TopOverPairs(ratio: (string, string) -> Score, text: string, pairs: seq<(string, string)>, c: Choices, k: nat)
    requires Consistent(c) && k < |c.labels|
    requires forall m :: 0 <= m < |c.labels| ==> ratio(text, c.labels[m]) <= ratio(text, c.labels[k])
    requires forall j :: 0 <= j < |pairs| ==> pairs[j].1 in c.names
    ensures forall j :: 0 <= j < |pairs| ==> ratio(text, pairs[j].1) <= ratio(text, c.labels[k])
  {
    forall j | 0 <= j < |pairs| ensures ratio(text, pairs[j].1) <= ratio(text, c.labels[k]) {
      var m :| 0 <= m < |c.labels| && c.labels[m] == pairs[j].1;
    }
  }

  /** Among captions that tie for the top score, the fuzzy scorer picks the
      one whose first button comes earliest on the page, because the
      dictionary lists its keys in first-insertion order. */
  lemma TieGoesToFirstInserted(ratio: (string, string) -> Score, text: string, pairs: seq<(string, string)>)
    requires |pairs| > 0
    ensures var c := PutAll(NoChoices, pairs);
            |c.labels| > 0
            && var best := c.labels[ExtractOne(ratio, text, c.labels)];
               forall j :: 0 <= j < |pairs| && ratio(text, pairs[j].1) == ratio(text, best) ==> FirstAt(pairs, best) <= j
  {
    var c := PutAll(NoChoices, pairs);
    PutAllNonEmpty(NoChoices, pairs);
    PutAllKeys(pairs);
    PutAllFirstOrder(pairs);
    var k := ExtractOne(ratio, text, c.labels);
    var best := c.labels[k];
    forall j | 0 <= j < |pairs| && ratio(text, pairs[j].1) == ratio(text, best) ensures FirstAt(pairs, best) <= j {
      var l := pairs[j].1;
      assert l in c.names;
      var m :| 0 <= m < |c.labels| && c.labels[m] == l;
      FirstAtLeast(pairs, l, j);
      if m != k {
        assert k < m;
      }
    }
  }

  /** A button of the list that scores highest and is the last to carry
      its caption. */
  ghost predicate TopButton(ratio: (string, string) -> Score, text: string, pairs: seq<(string, string)>, i: int)
  {
    0 <= i < |pairs|
    && (forall j :: 0 <= j < |pairs| ==> ratio(text, pairs[j].1) <= ratio(text, pairs[i].1))
    && (forall j :: i < j < |pairs| ==> pairs[j].1 != pairs[i].1)
  }

  /** One candidate pattern with at least one button on the page: the chosen
      caption scores at least as high as every button's caption; it is
      submitted exactly when it scores above 10; and it is submitted under
      the name of the LAST button carrying that caption. */
  lemma KeyStepChoosesBest(w: World, text: string, url: string, content: string, round: Round, pattern: string)
    requires |w.findPairs(pattern, content)| > 0
    ensures var pairs := w.findPairs(pattern, content);
            var s := KeyStep(w, text, url, content, Keys(NoChoices, round), pattern);
            s.Go? && exists i :: TopButton(w.partialRatio, text, pairs, i)
                                 && s.value.round == if w.partialRatio(text, pairs[i].1) > SCORE_FLOOR
                                                     then Round(round.form[pairs[i].0 := Some(pairs[i].1)], true)
                                                     else round
  {
    var pairs := w.findPairs(pattern, content);
    var c := PutAll(NoChoices, pairs);
    var i := BestOfPairs(w.partialRatio, text, pairs);
    var best := c.labels[ExtractOne(w.partialRatio, text, c.labels)];
    assert best == pairs[i].1 && c.names[best] == pairs[i].0;
    assert KeyStep(w, text, url, content, Keys(NoChoices, round), pattern)
        == Go(Keys(c, if w.partialRatio(text, best) > SCORE_FLOOR
                      then Round(round.form[pairs[i].0 := Some(best)], true) else round));
    assert TopButton(w.partialRatio, text, pairs, i);
  }

  /** A candidate pattern without any button stops the round with a reason
      naming the pattern and the URL. */
  lemma MissingKeyStops(w: World, text: string, url: string, content: string, round: Round, pattern: string)
    requires |w.findPairs(pattern, content)| == 0
    ensures FieldStep(w, text, url, content, round, RegexKeys([pattern])) == Stop(MissingKeyReason(pattern, url))
  {
    assert [pattern][..0] == [];
    assert KeySteps(w, text, url, content, Keys(NoChoices, round), [pattern])
           == KeyStep(w, text, url, content, Keys(NoChoices, round), pattern);
  }

  /** A hidden field whose pattern finds nothing stops the round with a
      reason naming the key and the URL; one that matches is copied from
      its first group. */
  lemma HiddenFieldStep(w: World, text: string, url: string, content: string, round: Round, key: string, pattern: string)
    ensures var s := FieldStep(w, text, url, content, round, Field(key, pattern));
            var m := w.search(pattern, content);
            (m.None? ==> s == Stop(MissingFieldReason(key, url)))
            && (m.Some? && |m.value.groups| > 0 ==>
                  s == Go(Round(round.form[key := Some(m.value.groups[0])], round.found)))
  {
  }

  /** Extending a table whose items all went through with one hidden field
      that matches with a group copies that group into the payload. */
  lemma FieldStepsGo(w: World, text: string, url: string, content: string,
                     fields: seq<DataField>, key: string, pattern: string, round: Round) returns (next: Round)
    requires FieldSteps(w, text, url, content, fields) == Go(round)
    requires w.search(pattern, content).Some? && |w.search(pattern, content).value.groups| > 0
    ensures next == Round(round.form[key := Some(w.search(pattern, content).value.groups[0])], round.found)
    ensures FieldSteps(w, text, url, content, fields + [Field(key, pattern)]) == Go(next)
  {
    assert (fields + [Field(key, pattern)])[..|fields|] == fields;
    next := Round(round.form[key := Some(w.search(pattern, content).value.groups[0])], round.found);
  }

  /** A table whose first item is one candidate pattern goes through that
      item whenever the page carries at least one button, with the round
      KeyStep chose. */
  lemma CaptchaItemGoes(w: World, text: string, url: string, content: string, pattern: string)
    requires |w.findPairs(pattern, content)| > 0
    ensures var k := KeyStep(w, text, url, content, Keys(NoChoices, Round(map[], false)), pattern);
            k.Go? && FieldSteps(w, text, url, content, [RegexKeys([pattern])]) == Go(k.value.round)
  {
    var empty := Round(map[], false);
    var k := KeyStep(w, text, url, content, Keys(NoChoices, empty), pattern);
    var d1 := [RegexKeys([pattern])];
    assert [pattern][..0] == [];
    assert KeySteps(w, text, url, content, Keys(NoChoices, empty), [pattern]) == k;
    assert FieldStep(w, text, url, content, empty, RegexKeys([pattern])) == Go(k.value.round);
    assert d1[..0] == [];
    assert FieldSteps(w, text, url, content, d1[..0]) == Go(empty);
  }

  /** Three hidden fields that all match with a group, after a first item
      that went through with round r: each copies its first group into the
      payload, in order, and the resolution of r is kept. */
  lemma TableExtraction(w: World, text: string, url: string, content: string, first: DataField, r: Round,
                        key1: string, re1: string, m1: Match, key2: string, re2: string, m2: Match,
                        key3: string, re3: string, m3: Match)
    requires FieldSteps(w, text, url, content, [first]) == Go(r)
    requires w.search(re1, content) == Some(m1) && |m1.groups| > 0
    requires w.search(re2, content) == Some(m2) && |m2.groups| > 0
    requires w.search(re3, content) == Some(m3) && |m3.groups| > 0
    ensures FieldSteps(w, text, url, content, [first, Field(key1, re1), Field(key2, re2), Field(key3, re3)])
            == Go(Round(r.form[key1 := Some(m1.groups[0])][key2 := Some(m2.groups[0])][key3 := Some(m3.groups[0])], r.found))
  {
    var d2 := [first, Field(key1, re1)];
    var d3 := d2 + [Field(key2, re2)];
    var r2 := FieldStepsGo(w, text, url, content, [first], key1, re1, r);
    assert [first] + [Field(key1, re1)] == d2;
    var r3 := FieldStepsGo(w, text, url, content, d2, key2, re2, r2);
    var r4 := FieldStepsGo(w, text, url, content, d3, key3, re3, r3);
    assert d3 + [Field(key3, re3)] == [first, Field(key1, re1), Field(key2, re2), Field(key3, re3)];
  }

  /** The site's own extraction table on a page carrying the buttons and the
      three hidden fields: the payload holds the accepted button (if any)
      and `req`, `hash` and `form`, and the round is resolved exactly when a
      button was accepted. */
  lemma DataTableExtraction(w: World, text: string, url: string, content: string,
                            req: Match, hash: Match, form: Match)
    requires |w.findPairs(CAPTCHA_REGEX, content)| > 0
    requires w.search(REQ_REGEX, content) == Some(req) && |req.groups| > 0
    requires w.search(HASH_REGEX, content) == Some(hash) && |hash.groups| > 0
    requires w.search(FORM_REGEX, content) == Some(form) && |form.groups| > 0
    ensures var s := FieldSteps(w, text, url, content, DATA);
            var k := KeyStep(w, text, url, content, Keys(NoChoices, Round(map[], false)), CAPTCHA_REGEX);
            s.Go? && k.Go?
            && s.value.found == k.value.round.found
            && s.value.form == k.value.round.form["req" := Some(req.groups[0])]["hash" := Some(hash.groups[0])]
                                                  ["form" := Some(form.groups[0])]
  {
    var k := KeyStep(w, text, url, content, Keys(NoChoices, Round(map[], false)), CAPTCHA_REGEX);
    CaptchaItemGoes(w, text, url, content, CAPTCHA_REGEX);
    TableExtraction(w, text, url, content, RegexKeys([CAPTCHA_REGEX]), k.value.round,
                    "req", REQ_REGEX, req, "hash", HASH_REGEX, hash, "form", FORM_REGEX, form);
  }

  /** build_data on a page whose image is found, whose OCR text is longer
      than four characters, whose best button is accepted and which carries
      the three hidden fields: at any counter within the budget, the first
      round ends it without a reload, and it returns the accepted button
      together with `req`, `hash`, `form` and `message`. */
  lemma AcceptedAnswerPays(w: World, url: string, comment: Option<string>, content: string,
                           times: nat, serial: nat, img: Match, req: Match, hash: Match, form: Match)
    requires times <= MAX_RELOADS && w.search(IMG_REGEX, content) == Some(img)
    requires w.ocr(Response(serial)).Some? && |w.ocr(Response(serial)).value| > MIN_OCR_LENGTH
    requires |w.findPairs(CAPTCHA_REGEX, content)| > 0
    requires KeyStep(w, w.ocr(Response(serial)).value, url, content, Keys(NoChoices, Round(map[], false)), CAPTCHA_REGEX).Go?
    requires KeyStep(w, w.ocr(Response(serial)).value, url, content, Keys(NoChoices, Round(map[], false)), CAPTCHA_REGEX).value.round.found
    requires w.search(REQ_REGEX, content) == Some(req) && |req.groups| > 0
    requires w.search(HASH_REGEX, content) == Some(hash) && |hash.groups| > 0
    requires w.search(FORM_REGEX, content) == Some(form) && |form.groups| > 0
    ensures var k := KeyStep(w, w.ocr(Response(serial)).value, url, content, Keys(NoChoices, Round(map[], false)), CAPTCHA_REGEX);
            BuildSpec(RoundOf(w, Extractor(w, DATA, url), comment), content, times, serial)
            == Trace(Payload(k.value.round.form["req" := Some(req.groups[0])]["hash" := Some(hash.groups[0])]
                                                ["form" := Some(form.groups[0])][MESSAGE := comment]),
                     times, [Request(CaptchaImage, Get, UrlJoin(BASE_URL, img.whole), map[])], [])
  {
    DataTableExtraction(w, w.ocr(Response(serial)).value, url, content, req, hash, form);
  }

  // ---------------------------------------------------------------------
  // check_sign_in_state

  /** The classification of a fetched page: a truthy network state is
      returned at once with no content; otherwise the page counts as signed
      in exactly when the success pattern (the caller's, when non-empty)
      matches, and then the result is the last match with its tags and
      soft hyphens removed; otherwise the result is left as it was. */
  lemma CheckStateClassifies(w: World, response: Response, originalUrl: string, regex: Option<string>,
                             succeedRegex: string, result: Option<string>)
    ensures var c := CheckState(w, response, originalUrl, regex, succeedRegex, result);
            var net := w.netState(response, originalUrl);
            var pattern := if regex.Some? && regex.value != "" then regex.value else succeedRegex;
            var found := w.findAll(pattern, w.decode(response));
            (net.Some? ==> c == Checked(NetworkError(net.value), None, result))
            && (net.None? ==> c.content == Some(w.decode(response)))
            && (c.state == Succeed <==> net.None? && |found| > 0)
            && (c.state == NoSignIn <==> net.None? && |found| == 0)
            && (c.state == Succeed ==> c.result == Some(TagStrip.Strip(found[|found| - 1])))
            && (c.state != Succeed ==> c.result == result)
  {
    if w.netState(response, originalUrl).None? {
      var pattern := if regex.Some? && regex.value != "" then regex.value else succeedRegex;
      var found := w.findAll(pattern, w.decode(response));
      assert |found| > 0 ==> CheckState(w, response, originalUrl, regex, succeedRegex, result).state == Succeed;
    }
  }

  /** The result recorded for a signed-in page holds no tag that closes on
      its own line. */
  lemma SignedInResultTagFree(w: World, response: Response, originalUrl: string, regex: Option<string>,
                              succeedRegex: string, result: Option<string>)
    ensures var c := CheckState(w, response, originalUrl, regex, succeedRegex, result);
            c.state == Succeed ==> c.result.Some? && TagStrip.TagFree(c.result.value)
  {
    var pattern := if regex.Some? && regex.value != "" then regex.value else succeedRegex;
    var found := w.findAll(pattern, w.decode(response));
    if w.netState(response, originalUrl).None? && |found| > 0 {
      TagStrip.StripLeavesNoTag(found[|found| - 1]);
    }
  }

  // ---------------------------------------------------------------------
  // sign_in

  /** Only when the page is not signed in does sign_in go past the page
      request: a signed-in page or a network error ends the run with the
      single GET of the page, and the adapter's own code fails nothing. A
      blocked page is reported by the host's network check, whose effect on
      the entry is not part of this model. */
  lemma SettledPageStops(w: World, url: string, succeedRegex: string, play: Player,
                         result: Option<string>, times: nat, serial: nat)
    requires Bounded(play) && times <= MAX_RELOADS
    requires CheckState(w, Response(serial), url, None, succeedRegex, result).state != NoSignIn
    ensures var run := SignInSpec(w, url, succeedRegex, play, result, times, serial);
            run.exit == Completed && run.times == times && run.failures == []
            && run.requests == [Request(SignInPage, Get, url, map[])]
  {
  }

  /** When build_data returns None, sign_in posts nothing and fails the entry
      with 'Cannot build_data' after whatever build_data failed it with. */
  lemma NoPayloadNoPost(w: World, url: string, succeedRegex: string, play: Player,
                        result: Option<string>, times: nat, serial: nat)
    requires Bounded(play) && OnlyGets(play) && times <= MAX_RELOADS
    requires CheckState(w, Response(serial), url, None, succeedRegex, result).state == NoSignIn
    requires BuildSpec(play, CheckState(w, Response(serial), url, None, succeedRegex, result).content.value,
                       times, serial + 1).built == NoPayload
    ensures var run := SignInSpec(w, url, succeedRegex, play, result, times, serial);
            run.exit == Completed && AllGets(run.requests)
            && |run.failures| > 0 && run.failures[|run.failures| - 1] == CANNOT_BUILD_DATA
  {
    var checked := CheckState(w, Response(serial), url, None, succeedRegex, result);
    var t := BuildSpec(play, checked.content.value, times, serial + 1);
    var tail := SubmitSpec(w, url, t.built, serial + 1 + |t.requests|);
    SignInSpecBuilds(w, url, succeedRegex, play, result, times, serial, checked,
                     serial + 1, t, serial + 1 + |t.requests|, tail);
    BuildOnlyGets(play, checked.content.value, times, serial + 1);
    AllGetsAppend([Request(SignInPage, Get, url, map[])], t.requests);
  }

  /** Of a list of GETs followed by a tail holding at most one POST, which
      comes first: every POST of the whole list is that one. */
  lemma OnlyPostOfTail(head: seq<Request>, tail: seq<Request>, i: nat)
    requires AllGets(head) && i < |head + tail| && (head + tail)[i].verb == Post
    requires forall k :: 1 <= k < |tail| ==> tail[k].verb == Get
    ensures i == |head| && (head + tail)[i] == tail[0]
    ensures forall j :: 0 <= j < |head + tail| && j != i ==> (head + tail)[j].verb == Get
  {
    if i >= |head| {
      assert (head + tail)[i] == tail[i - |head|];
    }
    forall j | 0 <= j < |head + tail| && j != i ensures (head + tail)[j].verb == Get {
      if j < |head| {
        assert (head + tail)[j] == head[j];
      } else {
        assert (head + tail)[j] == tail[j - |head|];
      }
    }
  }

  /** sign_in sends at most one POST: the answer to the sign-in URL, only
      after the page was found not signed in, and its form always carries
      `message` set to the site comment. */
  lemma AtMostOnePost(w: World, url: string, succeedRegex: string, play: Player, comment: Option<string>,
                      result: Option<string>, times: nat, serial: nat)
    requires Bounded(play) && OnlyGets(play) && Signed(play, comment) && times <= MAX_RELOADS
    ensures var run := SignInSpec(w, url, succeedRegex, play, result, times, serial);
            forall i :: 0 <= i < |run.requests| && run.requests[i].verb == Post ==>
              CheckState(w, Response(serial), url, None, succeedRegex, result).state == NoSignIn
              && run.requests[i].purpose == Answer && run.requests[i].url == url
              && MESSAGE in run.requests[i].form && run.requests[i].form[MESSAGE] == comment
              && forall j :: 0 <= j < |run.requests| && j != i ==> run.requests[j].verb == Get
  {
    var checked := CheckState(w, Response(serial), url, None, succeedRegex, result);
    if checked.state == NoSignIn {
      var page := Request(SignInPage, Get, url, map[]);
      var t := BuildSpec(play, checked.content.value, times, serial + 1);
      var tail := SubmitSpec(w, url, t.built, serial + 1 + |t.requests|);
      SignInSpecBuilds(w, url, succeedRegex, play, result, times, serial, checked,
                       serial + 1, t, serial + 1 + |t.requests|, tail);
      BuildOnlyGets(play, checked.content.value, times, serial + 1);
      PayloadCarriesMessage(play, comment, checked.content.value, times, serial + 1);
      var head := [page] + t.requests;
      AllGetsAppend([page], t.requests);
      forall i | 0 <= i < |head + tail.requests| && (head + tail.requests)[i].verb == Post
        ensures (head + tail.requests)[i].purpose == Answer && (head + tail.requests)[i].url == url
                && MESSAGE in (head + tail.requests)[i].form && (head + tail.requests)[i].form[MESSAGE] == comment
                && forall j :: 0 <= j < |head + tail.requests| && j != i ==> (head + tail.requests)[j].verb == Get
      {
        OnlyPostOfTail(head, tail.requests, i);
      }
    } else {
      SettledPageStops(w, url, succeedRegex, play, result, times, serial);
    }
  }

  /** A list without any request to the reload link counts none. */
  lemma {:induction false} NoReloads(requests: seq<Request>)
    requires forall i :: 0 <= i < |requests| ==> requests[i].purpose != Reload
    ensures ReloadCount(requests) == 0
    decreases |requests|
  {
    if requests != [] {
      NoReloads(requests[..|requests| - 1]);
    }
  }

  /** The reloads a run adds on top of the instance's log: a page request,
      what build_data sent and the submission's requests, which are never
      reloads. */
  lemma RunReloads(before: seq<Request>, page: Request, requests: seq<Request>, tail: seq<Request>, times: nat, after: nat)
    requires ReloadCount(before) <= times && page.purpose != Reload
    requires ReloadCount(requests) <= after - times
    requires forall i :: 0 <= i < |tail| ==> tail[i].purpose != Reload
    ensures ReloadCount(before + ([page] + requests + tail)) <= after
  {
    ReloadCountOne(page);
    NoReloads(tail);
    ReloadCountAppend([page], requests);
    ReloadCountAppend([page] + requests, tail);
    ReloadCountAppend(before, [page] + requests + tail);
  }

  /** The reload budget over the life of an instance: when the requests it
      sent before a sign_in run hold at most `times` reloads, then after the
      run they hold at most the new counter, which is still within 10. So
      however many runs an instance makes, it reloads at most 10 times. */
  lemma LifetimeReloads(w: World, url: string, succeedRegex: string, play: Player,
                        result: Option<string>, times: nat, serial: nat, before: seq<Request>)
    requires Bounded(play) && Accounts(play) && times <= MAX_RELOADS
    requires ReloadCount(before) <= times
    ensures var run := SignInSpec(w, url, succeedRegex, play, result, times, serial);
            ReloadCount(before + run.requests) <= run.times <= MAX_RELOADS
  {
    var checked := CheckState(w, Response(serial), url, None, succeedRegex, result);
    var page := Request(SignInPage, Get, url, map[]);
    if checked.state != NoSignIn {
      SignInSpecSettled(w, url, succeedRegex, play, result, times, serial, checked);
      RunReloads(before, page, [], [], times, times);
      assert [page] + [] + [] == [page];
    } else {
      var t := BuildSpec(play, checked.content.value, times, serial + 1);
      var tail := SubmitSpec(w, url, t.built, serial + 1 + |t.requests|);
      SignInSpecBuilds(w, url, succeedRegex, play, result, times, serial, checked,
                       serial + 1, t, serial + 1 + |t.requests|, tail);
      ReloadBudget(play, checked.content.value, times, serial + 1);
      RunReloads(before, page, t.requests, tail.requests, times, t.times);
    }
  }

  /** Whenever build_data returns a non-empty payload on a page that is not
      signed in, sign_in posts exactly that payload to the sign-in URL, right after
      the page request and build_data's own requests. */
  lemma PayloadIsPosted(w: World, url: string, succeedRegex: string, play: Player,
                        result: Option<string>, times: nat, serial: nat)
    requires Bounded(play) && times <= MAX_RELOADS
    requires CheckState(w, Response(serial), url, None, succeedRegex, result).state == NoSignIn
    ensures var t := BuildSpec(play, CheckState(w, Response(serial), url, None, succeedRegex, result).content.value,
                               times, serial + 1);
            var run := SignInSpec(w, url, succeedRegex, play, result, times, serial);
            Truthy(t.built) ==>
              |run.requests| > 1 + |t.requests| && run.requests[1 + |t.requests|] == Request(Answer, Post, url, t.built.form)
  {
  }

  /** After a non-empty payload is posted: a truthy network state on the
      post's response ends the run there with nothing more failed; otherwise
      the page is fetched once more and the final check's reason, if any, is
      the one failure added. */
  lemma PostOutcome(w: World, url: string, succeedRegex: string, play: Player,
                    result: Option<string>, times: nat, serial: nat)
    requires Bounded(play) && times <= MAX_RELOADS
    requires CheckState(w, Response(serial), url, None, succeedRegex, result).state == NoSignIn
    ensures var t := BuildSpec(play, CheckState(w, Response(serial), url, None, succeedRegex, result).content.value,
                               times, serial + 1);
            var run := SignInSpec(w, url, succeedRegex, play, result, times, serial);
            var posted := serial + 1 + |t.requests|;
            Truthy(t.built) ==>
              var head := [Request(SignInPage, Get, url, map[])] + t.requests + [Request(Answer, Post, url, t.built.form)];
              run.exit == Completed && run.times == t.times
              && (w.netState(Response(posted), url).Some? ==> run.requests == head && run.failures == t.failures)
              && (w.netState(Response(posted), url).None? ==>
                    run.requests == head + [Request(Verify, Get, url, map[])]
                    && run.failures == t.failures + (var v := w.finalCheck(Response(posted + 1), url);
                                                     if v.Some? then [v.value] else []))
  {
  }

  /** With an unanswerable challenge and a page that is not signed in,
      sign_in spends the instance's whole remaining budget and then still
      posts the payload holding only `message`, after the page request, the
      10 - times image-and-reload pairs and the last image request. */
  lemma UnanswerablePostsComment(w: World, fields: seq<DataField>, url: string, succeedRegex: string,
                                 comment: Option<string>, result: Option<string>, times: nat, serial: nat)
    requires times <= MAX_RELOADS && Unanswerable(w)
    requires CheckState(w, Response(serial), url, None, succeedRegex, result).state == NoSignIn
    ensures var run := SignInSpec(w, url, succeedRegex, RoundOf(w, Extractor(w, fields, url), comment), result, times, serial);
            var k := 2 * (MAX_RELOADS - times) + 2;
            run.times == MAX_RELOADS && |run.requests| > k
            && run.requests[k] == Request(Answer, Post, url, map[MESSAGE := comment])
  {
    var content := CheckState(w, Response(serial), url, None, succeedRegex, result).content.value;
    UnanswerableSpendsBudget(w, fields, url, comment, content, times, serial + 1);
    assert MESSAGE in map[MESSAGE := comment];
    PayloadIsPosted(w, url, succeedRegex, RoundOf(w, Extractor(w, fields, url), comment), result, times, serial);
  }
}
