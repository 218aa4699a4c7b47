/** The parts of the host framework and of the outside world that the dmhy
    sign-in adapter relies on: the per-run entry record, the site
    configuration, the HTTP session and the services whose internals are not
    modelled (response decoding, network-state checks, OCR, the regular
    expression engine and the fuzzy scorer). */
module Host {

  datatype Option<T> = None | Some(value: T)

  /** The response to the n-th request an adapter instance issued (n counted
      from 0). What it contains is only reached through a World's oracles. */
  datatype Response = Response(serial: nat)

  datatype Verb = Get | Post

  /** The call site of the adapter that issued a request. */
  datatype Purpose = SignInPage | CaptchaImage | Reload | Answer | Verify

  datatype Request = Request(purpose: Purpose, verb: Verb, url: string, form: map<string, Option<string>>)

  /** A successful regular-expression search: the whole match and its
      capture groups 1, 2, ... in order. */
  datatype Match = Match(whole: string, groups: seq<string>)

  /** A fuzzy similarity score, as the partial-ratio scorer produces it. */
  type Score = s: int | 0 <= s <= 100

  /** Everything the adapter learns from outside, as total functions.
      - netState(response, url): the host's network-state check; Some(cause)
        is a truthy state (the request is blocked or failed), None is falsy.
      - decode(response): the decoded page text.
      - ocr(response): the text the OCR service reads off the image in the
        response (None when it returns nothing).
      - search(pattern, text): the first match of a pattern, if any.
      - findAll(pattern, text): every match of a group-less pattern.
      - findPairs(pattern, text): the two groups of every match of a
        two-group pattern.
      - partialRatio(query, choice): the fuzzy scorer, after its own
        normalisation of both strings.
      - finalCheck(response, url): the host's verification of the page
        fetched after the answer was posted; Some(reason) fails the entry. */
  datatype World = World(
    netState: (Response, string) -> Option<string>,
    decode: Response -> string,
    ocr: Response -> Option<string>,
    search: (string, string) -> Option<Match>,
    findAll: (string, string) -> seq<string>,
    findPairs: (string, string) -> seq<(string, string)>,
    partialRatio: (string, string) -> Score,
    finalCheck: (Response, string) -> Option<string>
  )

  /** The sign-in states the adapter distinguishes; a truthy network state
      is reported as NetworkError carrying the host's cause. */
  datatype SignState = NoSignIn | Succeed | NetworkError(cause: string)

  /** The site's configuration block (each key may be absent). */
  datatype SiteConfig = SiteConfig(username: Option<string>, cookie: Option<string>, comment: Option<string>)

  /** The host-wide configuration the adapter reads. */
  datatype Config = Config(userAgent: Option<string>)

  /** One item of the entry's extraction table: either a list of
      two-group patterns locating candidate answer buttons, or a hidden form
      field found by a one-group pattern. */
  datatype DataField = RegexKeys(patterns: seq<string>) | Field(key: string, pattern: string)

  /** The per-run record the host hands to the adapter. Keys the adapter
      sets start out empty. */
  class Entry {
    const siteConfig: SiteConfig
    var url: string
    var baseUrl: string
    var succeedRegex: string
    var headers: map<string, Option<string>>
    var data: seq<DataField>
    var result: Option<string>
    var baseResponse: Option<Response>
    /** Every reason the entry was failed with, oldest first. */
    var failures: seq<string>

    constructor (siteConfig: SiteConfig)
      ensures this.siteConfig == siteConfig
      ensures url == "" && baseUrl == "" && succeedRegex == ""
      ensures headers == map[] && data == []
      ensures result == None && baseResponse == None && failures == []
    {
      this.siteConfig := siteConfig;
      url, baseUrl, succeedRegex := "", "", "";
      headers, data := map[], [];
      result, baseResponse, failures := None, None, [];
    }

    /** Marks the entry failed with the given reason. */
    method FailWithPrefix(reason: string)
      modifies this`failures
      ensures failures == old(failures) + [reason]
    {
      failures := failures + [reason];
    }
  }
}
