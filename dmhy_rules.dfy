/** The dmhy sign-in adapter's decisions as functions of what the outside
    world answers: the constants of the site, the classification of a fetched
    page, one CAPTCHA round's field extraction, the retrying construction of
    the answer payload and the whole sign-in run. The class in module Dmhy
    is proved to behave exactly as these functions say. */
module DmhyRules {
  import opened Host
  import opened Matching
  import TagStrip

  const BASE_URL: string := "https://u2.dmhy.org/"
  const URL: string := "https://u2.dmhy.org/showup.php?action=show"
  const SUCCEED_REGEX: string := ".{0,500}奖励UCoin: <b>\\d+|<a href=\"showup.php\">已签到</a>"
  const IMG_REGEX: string := "image\\.php\\?action=adbc2&req=.+?(?=&imagehash)"
  const RELOAD_REGEX: string := "image\\.php\\?action=reload_adbc2&div=showup&rand=\\d+"
  const CAPTCHA_REGEX: string := "<input type=\"submit\" name=\"(captcha_.*?)\" value=\"(.*?)\" />"
  const REQ_REGEX: string := "<input type=\"hidden\" name=\"req\" value=\"(.*?)\" />"
  const HASH_REGEX: string := "<input type=\"hidden\" name=\"hash\" value=\"(.*?)\" />"
  const FORM_REGEX: string := "<input type=\"hidden\" name=\"form\" value=\"(.*?)\" />"

  /** The extraction table, in the order the adapter walks it. */
  const DATA: seq<DataField> :=
    [RegexKeys([CAPTCHA_REGEX]), Field("req", REQ_REGEX), Field("hash", HASH_REGEX), Field("form", FORM_REGEX)]

  /** The instance-wide budget of CAPTCHA reloads. */
  const MAX_RELOADS: nat := 10
  /** A best match must score strictly above this to be submitted. */
  const SCORE_FLOOR: int := 10
  /** OCR text must be strictly longer than this to be used. */
  const MIN_OCR_LENGTH: nat := 4
  const MESSAGE: string := "message"
  const CANNOT_BUILD_DATA: string := "Cannot build_data"
  /** What `.group()` on a failed search raises. */
  const NO_MATCH_ERROR: string := "AttributeError: search found no match"
  /** What `.group(1)` on a group-less match raises. */
  const NO_GROUP_ERROR: string := "IndexError: no such group"

  /** A configuration value as string formatting renders it. */
  function Show(v: Option<string>): string
  {
    match v
    case Some(s) => s
    case None => "None"
  }

  /** The username pattern with the configured username filled in. */
  function UsernameRegex(username: Option<string>): (r: string)
    ensures |r| == 21 + |Show(username)|
    ensures r[..15] == "<bdo dir='ltr'>" && r[|r| - 6..] == "</bdo>"
    ensures r[15..|r| - 6] == Show(username)
  {
    "<bdo dir='ltr'>" + Show(username) + "</bdo>"
  }

  /** Joining the site root with a reference the page patterns matched (always
      a relative path such as `image.php?...`). */
  function UrlJoin(base: string, reference: string): (r: string)
    ensures |r| == |base| + |reference|
    ensures r[..|base|] == base && r[|base|..] == reference
  {
    base + reference
  }

  function MissingKeyReason(pattern: string, url: string): string
  {
    "Cannot find regex_key: " + pattern + ", url: " + url
  }

  function MissingFieldReason(key: string, url: string): string
  {
    "Cannot find key: " + key + ", url: " + url
  }

  /** How many of the requests went to the reload link. */
  function ReloadCount(requests: seq<Request>): nat
    decreases |requests|
  {
    if requests == [] then 0
    else ReloadCount(requests[..|requests| - 1]) + (if requests[|requests| - 1].purpose == Reload then 1 else 0)
  }

  lemma {:induction false} ReloadCountAppend(a: seq<Request>, b: seq<Request>)
    ensures ReloadCount(a + b) == ReloadCount(a) + ReloadCount(b)
    decreases |b|
  {
    if b == [] {
      assert a + b == a;
    } else {
      assert (a + b)[..|a + b| - 1] == a + b[..|b| - 1];
      ReloadCountAppend(a, b[..|b| - 1]);
    }
  }

  // ---------------------------------------------------------------------
  // check_sign_in_state

  /** The state of a fetched page, the decoded text handed back and the
      entry's `result` afterwards. */
  datatype Checked = Checked(state: SignState, content: Option<string>, result: Option<string>)

  /** Classifies the response to a request for originalUrl. A pattern given
      by the caller (when non-empty) replaces the entry's success pattern;
      `result` is the entry's result before the call. */
  function CheckState(w: World, response: Response, originalUrl: string, regex: Option<string>,
                      succeedRegex: string, result: Option<string>): (c: Checked)
    ensures c.state == NoSignIn ==> c.content.Some?
  {
    match w.netState(response, originalUrl)
    case Some(cause) => Checked(NetworkError(cause), None, result)
    case None =>
      var content := w.decode(response);
      var pattern := if regex.Some? && regex.value != "" then regex.value else succeedRegex;
      var found := w.findAll(pattern, content);
      if |found| > 0 then Checked(Succeed, Some(content), Some(TagStrip.Strip(found[|found| - 1])))
      else Checked(NoSignIn, Some(content), result)
  }

  // ---------------------------------------------------------------------
  // One CAPTCHA round of build_data: the fields read off the page

  /** The outcome of an extraction step: carry on with a value, stop after
      failing the entry with a reason (the adapter then returns None), or
      raise an exception. */
  datatype Step<T> = Go(value: T) | Stop(reason: string) | Raise(error: string)

  /** The answer payload built so far in a round, and whether a candidate
      answer was accepted. */
  datatype Round = Round(form: map<string, Option<string>>, found: bool)

  /** The state inside one `regex_keys` item: the candidate dictionary and
      the round. */
  datatype Keys = Keys(choices: Choices, round: Round)

  /** One candidate pattern: its matches go into the dictionary, and the
      best-scoring caption is accepted when its score is above the floor. */
  function KeyStep(w: World, text: string, url: string, content: string, acc: Keys, pattern: string): (s: Step<Keys>)
    requires Consistent(acc.choices)
    ensures s.Go? ==> Consistent(s.value.choices)
    ensures s.Go? ==> acc.round.form.Keys <= s.value.round.form.Keys && (acc.round.found ==> s.value.round.found)
  {
    var pairs := w.findPairs(pattern, content);
    if |pairs| == 0 then Stop(MissingKeyReason(pattern, url))
    else
      var c := PutAll(acc.choices, pairs);
      PutAllNonEmpty(acc.choices, pairs);
      var best := c.labels[ExtractOne(w.partialRatio, text, c.labels)];
      if w.partialRatio(text, best) > SCORE_FLOOR then
        Go(Keys(c, Round(acc.round.form[c.names[best] := Some(best)], true)))
      else Go(Keys(c, acc.round))
  }

  /** All candidate patterns of one `regex_keys` item, in order. */
  function KeySteps(w: World, text: string, url: string, content: string, acc: Keys, patterns: seq<string>): (s: Step<Keys>)
    requires Consistent(acc.choices)
    ensures s.Go? ==> Consistent(s.value.choices)
    ensures s.Go? ==> acc.round.form.Keys <= s.value.round.form.Keys && (acc.round.found ==> s.value.round.found)
    decreases |patterns|
  {
    if patterns == [] then Go(acc)
    else
      match KeySteps(w, text, url, content, acc, patterns[..|patterns| - 1])
      case Go(k) => KeyStep(w, text, url, content, k, patterns[|patterns| - 1])
      case Stop(reason) => Stop(reason)
      case Raise(error) => Raise(error)
  }

  /** Once the candidate patterns stop or raise, later patterns change
      nothing: the adapter has already returned. */
  lemma {:induction false} KeyStepsSettled(w: World, text: string, url: string, content: string, acc: Keys,
                                           patterns: seq<string>, i: nat)
    requires Consistent(acc.choices) && i <= |patterns|
    requires !KeySteps(w, text, url, content, acc, patterns[..i]).Go?
    ensures KeySteps(w, text, url, content, acc, patterns) == KeySteps(w, text, url, content, acc, patterns[..i])
    decreases |patterns| - i
  {
    if i < |patterns| {
      assert patterns[..i + 1][..i] == patterns[..i];
      KeyStepsSettled(w, text, url, content, acc, patterns, i + 1);
    } else {
      assert patterns[..i] == patterns;
    }
  }

  /** One item of the extraction table. */
  function FieldStep(w: World, text: string, url: string, content: string, round: Round, field: DataField): (s: Step<Round>)
    ensures s.Go? ==> round.form.Keys <= s.value.form.Keys && (round.found ==> s.value.found)
    ensures s.Go? && field.Field? ==> field.key in s.value.form && s.value.found == round.found
  {
    match field
    case RegexKeys(patterns) =>
      (match KeySteps(w, text, url, content, Keys(NoChoices, round), patterns)
       case Go(k) => Go(k.round)
       case Stop(reason) => Stop(reason)
       case Raise(error) => Raise(error))
    case Field(key, pattern) =>
      match w.search(pattern, content)
      case None => Stop(MissingFieldReason(key, url))
      case Some(m) =>
        if |m.groups| == 0 then Raise(NO_GROUP_ERROR)
        else Go(Round(round.form[key := Some(m.groups[0])], round.found))
  }

  /** The whole extraction table, in order, starting from an empty payload. */
  function FieldSteps(w: World, text: string, url: string, content: string, fields: seq<DataField>): (s: Step<Round>)
    ensures s.Go? ==> forall i :: 0 <= i < |fields| && fields[i].Field? ==> fields[i].key in s.value.form
    decreases |fields|
  {
    if fields == [] then Go(Round(map[], false))
    else
      assert forall i :: 0 <= i < |fields| - 1 ==> fields[..|fields| - 1][i] == fields[i];
      match FieldSteps(w, text, url, content, fields[..|fields| - 1])
      case Go(round) => FieldStep(w, text, url, content, round, fields[|fields| - 1])
      case Stop(reason) => Stop(reason)
      case Raise(error) => Raise(error)
  }

  /** Once an item of the table stops or raises, later items change nothing. */
  lemma {:induction false} FieldStepsSettled(w: World, text: string, url: string, content: string,
                                             fields: seq<DataField>, i: nat)
    requires i <= |fields|
    requires !FieldSteps(w, text, url, content, fields[..i]).Go?
    ensures FieldSteps(w, text, url, content, fields) == FieldSteps(w, text, url, content, fields[..i])
    decreases |fields| - i
  {
    if i < |fields| {
      assert fields[..i + 1][..i] == fields[..i];
      FieldStepsSettled(w, text, url, content, fields, i + 1);
    } else {
      assert fields[..i] == fields;
    }
  }

  /** One round: OCR text of more than four characters is matched against
      the page; anything shorter (or none) leaves the round unresolved with
      nothing extracted. */
  function Extract(w: World, fields: seq<DataField>, url: string, ocrText: Option<string>, content: string): (s: Step<Round>)
    ensures s.Go? && s.value.found ==> ocrText.Some? && |ocrText.value| > MIN_OCR_LENGTH
  {
    if ocrText.Some? && |ocrText.value| > MIN_OCR_LENGTH then FieldSteps(w, ocrText.value, url, content, fields)
    else Go(Round(map[], false))
  }

  /** What a round extracts, given the OCR text of its image and the page
      text: the adapter's extraction for a fixed table and URL. The rounds of
      build_data are stated over any such function, so that what is proved
      about the retries does not depend on the table. */
  type Extraction = (Option<string>, string) -> Step<Round>

  /** The extraction the adapter performs for an entry's table and URL. */
  function Extractor(w: World, fields: seq<DataField>, url: string): Extraction
  {
    (ocrText, content) => Extract(w, fields, url, ocrText, content)
  }

  // ---------------------------------------------------------------------
  // build_data: rounds until one is resolved or the budget is spent

  /** What build_data gives back: an answer payload, None, or an exception. */
  datatype Built = Payload(form: map<string, Option<string>>) | NoPayload | Raised(error: string)

  /** `not data` is false: build_data returned a dict with at least one
      field, which sign_in posts. None and an empty dict are both falsy. */
  predicate Truthy(built: Built)
  {
    built.Payload? && built.form != map[]
  }

  /** The result of build_data, the reload counter afterwards, the requests
      it issued and the reasons it failed the entry with. */
  datatype Trace = Trace(built: Built, times: nat, requests: seq<Request>, failures: seq<string>)

  function Prepend(requests: seq<Request>, t: Trace): Trace
  {
    Trace(t.built, t.times, requests + t.requests, t.failures)
  }

  lemma AppendAssoc<T>(a: seq<T>, b: seq<T>, c: seq<T>)
    ensures (a + b) + c == a + (b + c)
  {
  }

  lemma PrependTwice(a: seq<Request>, b: seq<Request>, t: Trace)
    ensures Prepend(a, Prepend(b, t)) == Prepend(a + b, t)
  {
    assert a + (b + t.requests) == (a + b) + t.requests;
  }

  /** What one round of build_data decides: build_data finishes with a
      trace, or the challenge was reloaded (counter incremented) and the
      next round runs on the reloaded page text. */
  datatype Turn = Finish(trace: Trace) | Retry(requests: seq<Request>, next: string)

  /** A round's turn preceded by one more request of the same round. */
  function Preceded(request: Request, turn: Turn): Turn
  {
    match turn
    case Finish(trace) => Finish(Prepend([request], trace))
    case Retry(requests, next) => Retry([request] + requests, next)
  }

  /** The requests a round issues, whether it finishes or goes on. */
  function TurnRequests(turn: Turn): seq<Request>
  {
    match turn
    case Finish(t) => t.requests
    case Retry(requests, _) => requests
  }

  /** The end of an unresolved round, once the counter has been incremented
      to `times`: find the reload link on the page and fetch it (the
      response numbered `serial`); a truthy network state ends build_data
      with None, otherwise the next round runs on the reloaded page. */
  function ReloadSpec(w: World, content: string, times: nat, serial: nat): (turn: Turn)
    ensures turn.Finish? ==> !turn.trace.built.Payload? && turn.trace.times == times && |turn.trace.requests| <= 1
    ensures turn.Retry? ==> |turn.requests| == 1 && turn.requests[0].purpose == Reload && turn.requests[0].verb == Get
    ensures forall i :: 0 <= i < |TurnRequests(turn)| ==> TurnRequests(turn)[i].purpose == Reload
  {
    match w.search(RELOAD_REGEX, content)
    case None => Finish(Trace(Raised(NO_MATCH_ERROR), times, [], []))
    case Some(link) =>
      var reloadUrl := UrlJoin(BASE_URL, link.whole);
      var reload := Request(Reload, Get, reloadUrl, map[]);
      if w.netState(Response(serial), reloadUrl).Some? then Finish(Trace(NoPayload, times, [reload], []))
      else Retry([reload], w.decode(Response(serial)))
  }

  /** One round of build_data on page text `content`, extracting with
      `extract`, with the counter at `times` and the next response numbered
      `serial`. */
  function RoundSpec(w: World, extract: Extraction, comment: Option<string>,
                     content: string, times: nat, serial: nat): (turn: Turn)
    ensures turn.Retry? ==> times < MAX_RELOADS
  {
    match w.search(IMG_REGEX, content)
    case None => Finish(Trace(Raised(NO_MATCH_ERROR), times, [], []))
    case Some(img) =>
      var image := Request(CaptchaImage, Get, UrlJoin(BASE_URL, img.whole), map[]);
      match extract(w.ocr(Response(serial)), content)
      case Raise(error) => Finish(Trace(Raised(error), times, [image], []))
      case Stop(reason) => Finish(Trace(NoPayload, times, [image], [reason]))
      case Go(round) =>
        if !round.found && times < MAX_RELOADS then Preceded(image, ReloadSpec(w, content, times + 1, serial + 1))
        else Finish(Trace(Payload(round.form[MESSAGE := comment]), times, [image], []))
  }

  /** A round whose image was found and whose extraction accepted an answer,
      or whose counter is not below the budget, yields the payload. */
  lemma RoundSpecResolved(w: World, extract: Extraction, comment: Option<string>,
                          content: string, times: nat, serial: nat, img: Match, round: Round)
    requires w.search(IMG_REGEX, content) == Some(img)
    requires extract(w.ocr(Response(serial)), content) == Go(round)
    requires round.found || times >= MAX_RELOADS
    ensures RoundSpec(w, extract, comment, content, times, serial)
            == Finish(Trace(Payload(round.form[MESSAGE := comment]), times,
                            [Request(CaptchaImage, Get, UrlJoin(BASE_URL, img.whole), map[])], []))
  {
  }

  /** A round whose image was found but whose extraction accepted no answer,
      with budget left, ends as the reload with the counter at `reloadTimes`
      and the reload response numbered `reloadSerial`. */
  lemma RoundSpecReloads(w: World, extract: Extraction, comment: Option<string>,
                         content: string, times: nat, serial: nat, img: Match, round: Round,
                         reloadTimes: nat, reloadSerial: nat)
    requires times < MAX_RELOADS
    requires w.search(IMG_REGEX, content) == Some(img)
    requires extract(w.ocr(Response(serial)), content) == Go(round)
    requires !round.found
    requires reloadTimes == times + 1 && reloadSerial == serial + 1
    ensures RoundSpec(w, extract, comment, content, times, serial)
            == Preceded(Request(CaptchaImage, Get, UrlJoin(BASE_URL, img.whole), map[]),
                        ReloadSpec(w, content, reloadTimes, reloadSerial))
  {
  }

  /** One round of build_data as a function of the page text, the counter
      and the number of the next response. */
  type Player = (string, nat, nat) -> Turn

  /** A round goes on to another only while the counter is below the
      budget. */
  ghost predicate Bounded(play: Player)
  {
    forall content: string, times: nat, serial: nat :: play(content, times, serial).Retry? ==> times < MAX_RELOADS
  }

  /** The adapter's round, for a given extraction and site comment. */
  function RoundOf(w: World, extract: Extraction, comment: Option<string>): (play: Player)
    ensures Bounded(play)
  {
    (content: string, times: nat, serial: nat) => RoundSpec(w, extract, comment, content, times, serial)
  }

  /** build_data on page text `content`, with the counter at `times` and the
      next response numbered `serial`: rounds of `play` until one finishes. */
  function BuildSpec(play: Player, content: string, times: nat, serial: nat): Trace
    requires Bounded(play) && times <= MAX_RELOADS
    decreases MAX_RELOADS - times
  {
    match play(content, times, serial)
    case Finish(trace) => trace
    case Retry(requests, next) => Prepend(requests, BuildSpec(play, next, times + 1, serial + |requests|))
  }

  /** build_data after a round that finished is that round's trace. */
  lemma BuildSpecFinish(play: Player, content: string, times: nat, serial: nat, trace: Trace)
    requires Bounded(play) && times <= MAX_RELOADS
    requires play(content, times, serial) == Finish(trace)
    ensures BuildSpec(play, content, times, serial) == trace
  {
  }

  /** build_data after a round that reloaded is that round's requests
      followed by build_data on the reloaded page. */
  lemma BuildSpecRetry(play: Player, content: string, times: nat, serial: nat,
                       requests: seq<Request>, next: string, nextTimes: nat, nextSerial: nat)
    requires Bounded(play) && times <= MAX_RELOADS
    requires play(content, times, serial) == Retry(requests, next)
    requires nextTimes == times + 1 && nextSerial == serial + |requests|
    ensures nextTimes <= MAX_RELOADS
    ensures BuildSpec(play, content, times, serial) == Prepend(requests, BuildSpec(play, next, nextTimes, nextSerial))
  {
  }

  // ---------------------------------------------------------------------
  // sign_in

  /** How sign_in ends: normally, or with an exception. */
  datatype Exit = Completed | Crashed(error: string)

  /** The part of sign_in after build_data: how it ends, the requests it
      issues and the reasons it fails the entry with. */
  datatype Tail = Tail(exit: Exit, requests: seq<Request>, failures: seq<string>)

  /** What sign_in does with build_data's result, the next response being
      numbered `serial`: a falsy result fails the entry, a truthy payload is
      posted and, unless the post's network state is truthy, the page is
      fetched again and the final check's reason, if any, fails the entry. */
  function SubmitSpec(w: World, url: string, built: Built, serial: nat): (tail: Tail)
    ensures Truthy(built) <==> |tail.requests| > 0
    ensures Truthy(built) ==> tail.requests[0] == Request(Answer, Post, url, built.form)
    ensures forall i :: 1 <= i < |tail.requests| ==> tail.requests[i] == Request(Verify, Get, url, map[])
    ensures tail.exit.Crashed? <==> built.Raised?
    ensures !built.Raised? && !Truthy(built) ==> tail.failures == [CANNOT_BUILD_DATA]
    ensures Truthy(built) ==> (|tail.requests| == 2 <==> w.netState(Response(serial), url).None?)
    ensures Truthy(built) && w.netState(Response(serial), url).Some? ==> tail.failures == []
    ensures Truthy(built) && w.netState(Response(serial), url).None? ==>
              tail.failures == (var v := w.finalCheck(Response(serial + 1), url); if v.Some? then [v.value] else [])
  {
    match built
    case Raised(error) => Tail(Crashed(error), [], [])
    case NoPayload => Tail(Completed, [], [CANNOT_BUILD_DATA])
    case Payload(form) =>
      if form == map[] then Tail(Completed, [], [CANNOT_BUILD_DATA])
      else
        var answer := Request(Answer, Post, url, form);
        if w.netState(Response(serial), url).Some? then Tail(Completed, [answer], [])
        else
          var verdict := w.finalCheck(Response(serial + 1), url);
          Tail(Completed, [answer, Request(Verify, Get, url, map[])], if verdict.Some? then [verdict.value] else [])
  }

  /** The effect of a sign-in run: how it ended, the reload counter, the
      requests issued, the reasons the entry was failed with and the entry's
      `result` afterwards. */
  datatype Run = Run(exit: Exit, times: nat, requests: seq<Request>, failures: seq<string>, result: Option<string>)

  /** sign_in for an entry whose sign-in URL, success pattern and result
      are given and whose CAPTCHA rounds are played by `play`, with the
      counter at `times` and the next response numbered `serial`. */
  function SignInSpec(w: World, url: string, succeedRegex: string, play: Player,
                      result: Option<string>, times: nat, serial: nat): (run: Run)
    requires Bounded(play) && times <= MAX_RELOADS
    ensures |run.requests| > 0 && run.requests[0] == Request(SignInPage, Get, url, map[])
    ensures CheckState(w, Response(serial), url, None, succeedRegex, result).state != Succeed ==> run.result == result
  {
    var page := Request(SignInPage, Get, url, map[]);
    var checked := CheckState(w, Response(serial), url, None, succeedRegex, result);
    if checked.state != NoSignIn then Run(Completed, times, [page], [], checked.result)
    else
      var t := BuildSpec(play, checked.content.value, times, serial + 1);
      var tail := SubmitSpec(w, url, t.built, serial + 1 + |t.requests|);
      Run(tail.exit, t.times, [page] + t.requests + tail.requests, t.failures + tail.failures, checked.result)
  }

  /** sign_in on a page whose state is settled (signed in, or a network
      error) stops after the page request. */
  lemma SignInSpecSettled(w: World, url: string, succeedRegex: string, play: Player,
                          result: Option<string>, times: nat, serial: nat, checked: Checked)
    requires Bounded(play) && times <= MAX_RELOADS
    requires checked == CheckState(w, Response(serial), url, None, succeedRegex, result) && checked.state != NoSignIn
    ensures SignInSpec(w, url, succeedRegex, play, result, times, serial)
            == Run(Completed, times, [Request(SignInPage, Get, url, map[])], [], checked.result)
  {
  }

  /** sign_in on a page that is not signed in: build_data on the page text,
      then the submission of what it built. */
  lemma SignInSpecBuilds(w: World, url: string, succeedRegex: string, play: Player,
                         result: Option<string>, times: nat, serial: nat, checked: Checked,
                         buildSerial: nat, t: Trace, submitSerial: nat, tail: Tail)
    requires Bounded(play) && times <= MAX_RELOADS
    requires checked == CheckState(w, Response(serial), url, None, succeedRegex, result) && checked.state == NoSignIn
    requires buildSerial == serial + 1 && t == BuildSpec(play, checked.content.value, times, buildSerial)
    requires submitSerial == buildSerial + |t.requests| && tail == SubmitSpec(w, url, t.built, submitSerial)
    ensures checked.result == result
    ensures SignInSpec(w, url, succeedRegex, play, result, times, serial)
            == Run(tail.exit, t.times, [Request(SignInPage, Get, url, map[])] + t.requests + tail.requests,
                   t.failures + tail.failures, result)
  {
  }
}
