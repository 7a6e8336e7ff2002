/**
 * The page app.js drives: the status pill, the loading indicator and verify
 * button, the error box and the result container. Each helper of app.js is a
 * method of `Page` that updates these in place; each is specified by a
 * function on `PageState`, the page's visible state as a value, and the
 * lemmas at the end state what `verifyTag` promises about it.
 */
module AppPage {
  import opened Wrappers
  import opened Json
  import opened JsText
  import opened AppLogic

  /**
   * Which of the elements the helpers look up by id exist. A helper whose
   * element is missing returns without changing anything.
   */
  datatype Elements = Elements(pill: bool, loading: bool, button: bool, errorBox: bool, container: bool)

  /** What the result container shows: the markup it started with, the waiting prompt, a card, or raw text. */
  datatype Content = Initial | Waiting | Card(card: TagCard) | Raw(text: string)

  /** The visible state of the page, plus the tags the page has requested from the backend. */
  datatype PageState = PageState(
    statusText: string,
    pillClasses: set<string>,
    loadingHidden: bool,
    buttonDisabled: bool,
    errorText: string,
    errorHidden: bool,
    content: Content,
    requests: seq<string>)

  /** What the page's `fetch` of the backend produced. */
  datatype FetchResult =
    | TransportError                      // the request was rejected (offline, DNS, CORS, aborted)
    | Received(status: int, body: string) // an HTTP response and its body text

  /** `res.ok`: the status is in the range 200-299. */
  predicate OkStatus(status: int) {
    200 <= status <= 299
  }

  const PillOk := "pill-ok"
  const PillBad := "pill-bad"
  const PillMuted := "pill-muted"
  const PillVariants: set<string> := {PillOk, PillBad, PillMuted}

  const EmptyInputMessage := "Please enter a Tag ID."
  const RetryMessage := "Unable to verify this tag right now. Please try again."
  const CheckingText := "Checking\U{2026}"

  /** The pill class for a `setStatus` variant: "ok" and "bad" have their own, every other variant is muted. */
  function PillFor(variant: string): (c: string)
    ensures c in PillVariants
    ensures c == PillOk <==> variant == "ok"
    ensures c == PillBad <==> variant == "bad"
  {
    if variant == "ok" then PillOk else if variant == "bad" then PillBad else PillMuted
  }

  // ---------------------------------------------------------------------------
  // The helpers, as functions of the page state
  // ---------------------------------------------------------------------------

  /**
   * `setStatus(text, variant)`: the pill shows `text` and carries exactly one of
   * the three variant classes; its other classes and the rest of the page stay.
   */
  function WithStatus(p: PageState, e: Elements, text: string, variant: string): (q: PageState)
    ensures !e.pill ==> q == p
    ensures e.pill ==> q.statusText == text
    ensures e.pill ==> q.pillClasses * PillVariants == {PillFor(variant)}
    ensures q.pillClasses - PillVariants == p.pillClasses - PillVariants
    ensures q.(statusText := p.statusText, pillClasses := p.pillClasses) == p
  {
    if !e.pill then p
    else p.(statusText := text, pillClasses := p.pillClasses - PillVariants + {PillFor(variant)})
  }

  /** `setLoading(isLoading)`: when both elements exist, the indicator is shown and the button disabled exactly while loading. */
  function WithLoading(p: PageState, e: Elements, isLoading: bool): (q: PageState)
    ensures !(e.loading && e.button) ==> q == p
    ensures e.loading && e.button ==> q.loadingHidden == !isLoading && q.buttonDisabled == isLoading
    ensures q.(loadingHidden := p.loadingHidden, buttonDisabled := p.buttonDisabled) == p
  {
    if !(e.loading && e.button) then p
    else p.(loadingHidden := !isLoading, buttonDisabled := isLoading)
  }

  /** `showError(message)`: the error box shows `message`. */
  function WithError(p: PageState, e: Elements, message: string): (q: PageState)
    ensures !e.errorBox ==> q == p
    ensures e.errorBox ==> q.errorText == message && !q.errorHidden
    ensures q.(errorText := p.errorText, errorHidden := p.errorHidden) == p
  {
    if !e.errorBox then p else p.(errorText := message, errorHidden := false)
  }

  /** `clearError()`: the error box is emptied and hidden. */
  function WithoutError(p: PageState, e: Elements): (q: PageState)
    ensures !e.errorBox ==> q == p
    ensures e.errorBox ==> q.errorText == "" && q.errorHidden
    ensures q.(errorText := p.errorText, errorHidden := p.errorHidden) == p
  {
    if !e.errorBox then p else p.(errorText := "", errorHidden := true)
  }

  /** `renderEmptyState()`: the container shows the waiting prompt. */
  function WithEmptyState(p: PageState, e: Elements): (q: PageState)
    ensures !e.container ==> q == p
    ensures e.container ==> q.content == Waiting
    ensures q.(content := p.content) == p
  {
    if !e.container then p else p.(content := Waiting)
  }

  /** A helper's effect on the page, and whether it ended by throwing an exception. */
  datatype Step = Step(page: PageState, threw: bool)

  /**
   * `renderResult(parsed, rawText)`; `RenderedShows` states what it does. For a
   * structured response it throws when `String(status)` does, after clearing
   * the error box, and when the card's markup cannot be written, after setting
   * the pill but before the container changes.
   */
  function Rendered(p: PageState, e: Elements, parsed: Json, rawText: string): Step {
    if !e.container then Step(p, false)
    else
      var cleared := WithoutError(p, e);
      if !IsStructured(parsed) then
        Step(WithStatus(cleared, e, "Result", "idle").(content := Raw(rawText)), false)
      else
        var card := CardOf(parsed);
        if !Printable(card.response) then Step(cleared, true)
        else
          var v := Classify(card.response);
          var shown := WithStatus(cleared, e, v.text, v.variant);
          if CardPrintable(card) then Step(shown.(content := Card(card)), false)
          else Step(shown, true)
  }

  /**
   * Rendering does nothing at all without a container. Otherwise the error
   * box is cleared; a structured response whose values can all be written
   * becomes a card whose pill follows the status mapping; one with a value
   * that cannot be written throws and leaves the container as it was; and
   * anything else shows the raw text under a muted "Result" pill. Loading
   * state and requests are never touched.
   */
  lemma RenderedShows(p: PageState, e: Elements, parsed: Json, rawText: string)
    ensures var r := Rendered(p, e, parsed, rawText);
      var q := r.page;
      && (!e.container ==> r == Step(p, false))
      && (r.threw <==> e.container && IsStructured(parsed) && !CardPrintable(CardOf(parsed)))
      && (e.container && e.errorBox ==> q.errorText == "" && q.errorHidden)
      && (e.container && IsStructured(parsed) && CardPrintable(CardOf(parsed)) ==> q.content == Card(CardOf(parsed)))
      && (r.threw ==> q.content == p.content)
      && (e.container && !IsStructured(parsed) ==> q.content == Raw(rawText))
      && (e.container && e.pill && IsStructured(parsed) && Printable(CardOf(parsed).response) ==>
            var v := Classify(CardOf(parsed).response);
            q.statusText == v.text && q.pillClasses * PillVariants == {PillFor(v.variant)})
      && (IsStructured(parsed) && !Printable(CardOf(parsed).response) ==>
            q.statusText == p.statusText && q.pillClasses == p.pillClasses)
      && (e.container && e.pill && !IsStructured(parsed) ==>
            q.statusText == "Result" && q.pillClasses * PillVariants == {PillMuted})
      && q.loadingHidden == p.loadingHidden && q.buttonDisabled == p.buttonDisabled
      && q.requests == p.requests
  {
  }

  /** The first half of `verifyTag`: error cleared, "Checking…" on a muted pill, loading shown, `tag` requested. */
  function Started(p: PageState, e: Elements, tag: string): PageState {
    var q := WithLoading(WithStatus(WithoutError(p, e), e, CheckingText, "idle"), e, true);
    q.(requests := q.requests + [tag])
  }

  /** The `catch` of `verifyTag`: "Error" on a bad pill and the retry message. */
  function Caught(p: PageState, e: Elements): PageState {
    WithError(WithStatus(p, e, "Error", "bad"), e, RetryMessage)
  }

  /**
   * The `try`/`catch` of `verifyTag`: a 2xx answer is rendered; a failed request,
   * another status, or rendering that throws ends in the `catch`.
   */
  function Settled(p: PageState, e: Elements, net: FetchResult, parse: string -> Option<Json>): PageState {
    if net.Received? && OkStatus(net.status) then
      var r := Rendered(p, e, ParsedOrNull(parse(net.body)), net.body);
      if r.threw then Caught(r.page, e) else r.page
    else
      Caught(p, e)
  }

  /**
   * `verifyTag(tagId)`, with the backend's answer `net` and `JSON.parse` as
   * `parse`: the page after the call has settled, `finally` included.
   */
  function AfterVerify(p: PageState, e: Elements, tagId: string, net: FetchResult,
                       parse: string -> Option<Json>): PageState
  {
    if tagId == "" || Trim(tagId) == "" then WithError(p, e, EmptyInputMessage)
    else WithLoading(Settled(Started(p, e, Trim(tagId)), e, net, parse), e, false)
  }

  // ---------------------------------------------------------------------------
  // The page, updated in place
  // ---------------------------------------------------------------------------

  class Page {
    const elements: Elements
    var statusText: string
    var pillClasses: set<string>
    var loadingHidden: bool
    var buttonDisabled: bool
    var errorText: string
    var errorHidden: bool
    var content: Content
    var requests: seq<string>

    function State(): PageState
      reads this
    {
      PageState(statusText, pillClasses, loadingHidden, buttonDisabled, errorText, errorHidden, content, requests)
    }

    constructor (elements: Elements, initial: PageState)
      ensures this.elements == elements && State() == initial
    {
      this.elements := elements;
      statusText := initial.statusText;
      pillClasses := initial.pillClasses;
      loadingHidden := initial.loadingHidden;
      buttonDisabled := initial.buttonDisabled;
      errorText := initial.errorText;
      errorHidden := initial.errorHidden;
      content := initial.content;
      requests := initial.requests;
    }

    method SetStatus(text: string, variant: string := "idle")
      modifies this
      ensures State() == WithStatus(old(State()), elements, text, variant)
    {
      if !elements.pill {
        return;
      }
      statusText := text;
      pillClasses := pillClasses - PillVariants;
      if variant == "ok" {
        pillClasses := pillClasses + {PillOk};
      } else if variant == "bad" {
        pillClasses := pillClasses + {PillBad};
      } else {
        pillClasses := pillClasses + {PillMuted};
      }
    }

    method SetLoading(isLoading: bool)
      modifies this
      ensures State() == WithLoading(old(State()), elements, isLoading)
    {
      if !elements.loading || !elements.button {
        return;
      }
      if isLoading {
        loadingHidden := false;
        buttonDisabled := true;
      } else {
        loadingHidden := true;
        buttonDisabled := false;
      }
    }

    method ShowError(message: string)
      modifies this
      ensures State() == WithError(old(State()), elements, message)
    {
      if !elements.errorBox {
        return;
      }
      errorText := message;
      errorHidden := false;
    }

    method ClearError()
      modifies this
      ensures State() == WithoutError(old(State()), elements)
    {
      if !elements.errorBox {
        return;
      }
      errorText := "";
      errorHidden := true;
    }

    method RenderEmptyState()
      modifies this
      ensures State() == WithEmptyState(old(State()), elements)
    {
      if !elements.container {
        return;
      }
      content := Waiting;
    }

    /** `threw` reports the exception `renderResult` lets escape; the caller handles it. */
    method RenderResult(parsed: Json, rawText: string) returns (threw: bool)
      modifies this
      ensures Step(State(), threw) == Rendered(old(State()), elements, parsed, rawText)
    {
      if !elements.container {
        return false;
      }
      ClearError();
      if !IsStructured(parsed) {
        SetStatus("Result", "idle");
        content := Raw(rawText);
        return false;
      }
      var card := CardOf(parsed);
      if !Printable(card.response) {
        return true;
      }
      var verdict := Classify(card.response);
      SetStatus(verdict.text, verdict.variant);
      if !CardPrintable(card) {
        return true;
      }
      content := Card(card);
      threw := false;
    }

    method VerifyTag(tagId: string, net: FetchResult, parse: string -> Option<Json>)
      modifies this
      ensures State() == AfterVerify(old(State()), elements, tagId, net, parse)
    {
      if tagId == "" || Trim(tagId) == "" {
        ShowError(EmptyInputMessage);
        return;
      }
      ClearError();
      SetStatus(CheckingText, "idle");
      SetLoading(true);
      requests := requests + [Trim(tagId)];
      var failed := true;
      if net.Received? && OkStatus(net.status) {
        var parsed := ParsedOrNull(parse(net.body));
        failed := RenderResult(parsed, net.body);
      }
      if failed {
        SetStatus("Error", "bad");
        ShowError(RetryMessage);
      }
      SetLoading(false);
    }
  }

  // ---------------------------------------------------------------------------
  // What verifyTag promises
  // ---------------------------------------------------------------------------

  /** Empty or whitespace-only input shows the prompt to enter a tag, sends nothing, and leaves the pill, loading state and result alone. */
  lemma EmptyInputSendsNothing(p: PageState, e: Elements, tagId: string, net: FetchResult,
                               parse: string -> Option<Json>)
    requires AllTrimmable(tagId)
    ensures var q := AfterVerify(p, e, tagId, net, parse);
      && q.requests == p.requests
      && q.statusText == p.statusText && q.pillClasses == p.pillClasses
      && q.loadingHidden == p.loadingHidden && q.buttonDisabled == p.buttonDisabled
      && q.content == p.content
      && (e.errorBox ==> q.errorText == EmptyInputMessage && !q.errorHidden)
  {
  }

  /** Any other input is requested exactly once, trimmed, and afterwards the indicator is hidden and the button enabled. */
  lemma NonEmptyInputSendsOnceAndSettles(p: PageState, e: Elements, tagId: string, net: FetchResult,
                                         parse: string -> Option<Json>)
    requires !AllTrimmable(tagId)
    ensures var q := AfterVerify(p, e, tagId, net, parse);
      && q.requests == p.requests + [Trim(tagId)]
      && (e.loading && e.button ==> q.loadingHidden && !q.buttonDisabled)
  {
    var tag := Trim(tagId);
    assert tag != [] && tagId != "";
    var started := Started(p, e, tag);
    assert started.requests == p.requests + [tag];
    if net.Received? && OkStatus(net.status) {
      RenderedShows(started, e, ParsedOrNull(parse(net.body)), net.body);
    }
    assert Settled(started, e, net, parse).requests == started.requests;
  }

  /** A transport failure or a non-2xx status shows "Error" on a bad pill and the retry message, and never renders a result. */
  lemma FailureShowsRetry(p: PageState, e: Elements, tagId: string, net: FetchResult,
                          parse: string -> Option<Json>)
    requires !AllTrimmable(tagId)
    requires net.TransportError? || !OkStatus(net.status)
    ensures var q := AfterVerify(p, e, tagId, net, parse);
      && q.content == p.content
      && (e.pill ==> q.statusText == "Error" && q.pillClasses * PillVariants == {PillBad})
      && (e.errorBox ==> q.errorText == RetryMessage && !q.errorHidden)
  {
  }

  /**
   * A 2xx answer whose rendering does not throw clears the error box: a
   * structured body whose values can all be written becomes its card under the
   * mapped pill, and a body that is not JSON, or JSON without a truthy registry
   * key, shows the raw text under a muted "Result" pill.
   */
  lemma SuccessRenders(p: PageState, e: Elements, tagId: string, status: int, body: string,
                       parse: string -> Option<Json>)
    requires !AllTrimmable(tagId) && OkStatus(status) && e.container
    ensures var q := AfterVerify(p, e, tagId, Received(status, body), parse);
      var parsed := ParsedOrNull(parse(body));
      && (parse(body).None? ==> q.content == Raw(body))
      && (!IsStructured(parsed) ==>
            && q.content == Raw(body)
            && (e.errorBox ==> q.errorText == "" && q.errorHidden)
            && (e.pill ==> q.statusText == "Result" && q.pillClasses * PillVariants == {PillMuted}))
      && (IsStructured(parsed) && CardPrintable(CardOf(parsed)) ==>
            && q.content == Card(CardOf(parsed))
            && (e.errorBox ==> q.errorText == "" && q.errorHidden)
            && (e.pill ==> var v := Classify(CardOf(parsed).response);
                  q.statusText == v.text && q.pillClasses * PillVariants == {PillFor(v.variant)}))
  {
    var tag := Trim(tagId);
    assert tag != [] && tagId != "";
    var started := Started(p, e, tag);
    var parsed := ParsedOrNull(parse(body));
    RenderedShows(started, e, parsed, body);
    if !IsStructured(parsed) || CardPrintable(CardOf(parsed)) {
      assert AfterVerify(p, e, tagId, Received(status, body), parse)
          == WithLoading(Rendered(started, e, parsed, body).page, e, false);
    }
  }

  /** Whatever `setStatus` did before the exception, the `catch` sets the pill again. */
  lemma CaughtOverridesStatus(p: PageState, e: Elements, text: string, variant: string)
    ensures Caught(WithStatus(p, e, text, variant), e) == Caught(p, e)
  {
    if e.pill {
      assert WithStatus(WithStatus(p, e, text, variant), e, "Error", "bad").pillClasses
          == WithStatus(p, e, "Error", "bad").pillClasses;
    }
  }

  /** Clearing the error box before the exception makes no difference once the `catch` shows the retry message. */
  lemma CaughtOverridesClear(p: PageState, e: Elements)
    ensures Caught(WithoutError(p, e), e) == Caught(p, e)
  {
  }

  /**
   * A 2xx answer whose card cannot be written, because the status or a
   * displayed value is an object with its own "toString", ends in the `catch`:
   * the page is left exactly as after a failed request (see `FailureShowsRetry`).
   */
  lemma UnprintableCardShowsRetry(p: PageState, e: Elements, tagId: string, status: int, body: string,
                                  parse: string -> Option<Json>)
    requires !AllTrimmable(tagId) && OkStatus(status) && e.container
    requires IsStructured(ParsedOrNull(parse(body))) && !CardPrintable(CardOf(ParsedOrNull(parse(body))))
    ensures AfterVerify(p, e, tagId, Received(status, body), parse) == AfterVerify(p, e, tagId, TransportError, parse)
  {
    var tag := Trim(tagId);
    assert tag != [] && tagId != "";
    var started := Started(p, e, tag);
    var parsed := ParsedOrNull(parse(body));
    var card := CardOf(parsed);
    CaughtOverridesClear(started, e);
    if Printable(card.response) {
      var v := Classify(card.response);
      CaughtOverridesStatus(WithoutError(started, e), e, v.text, v.variant);
    }
  }

  /** Without a result container a 2xx answer renders nothing, so the pill is left saying "Checking…". */
  lemma MissingContainerLeavesChecking(p: PageState, e: Elements, tagId: string, status: int, body: string,
                                       parse: string -> Option<Json>)
    requires !AllTrimmable(tagId) && OkStatus(status) && !e.container && e.pill
    ensures var q := AfterVerify(p, e, tagId, Received(status, body), parse);
      q.statusText == CheckingText && q.content == p.content
  {
  }
}
