/** The `load` function of the page that composes a new paste: it fetches
    the backend's limits and turns every way that can fail into an error
    page. The fetch itself is not modelled; its settled outcome is the
    input. */
module NewPage {

  import opened Wrappers
  import opened Errors
  import opened Models

  /** The body of an error page (`App.Error`); `null` fields are `None`. */
  datatype PageErrorBody = PageErrorBody(message: string, trace: Option<string>, timestamp: Option<int>, pasteId: Option<string>)

  /** What `load` ends in: SvelteKit's `error(status, body)` or the page data. */
  datatype PageResult = PageError(status: int, body: PageErrorBody) | PageData(config: Config)

  const NotFoundMessage := "Paste Not Found."
  const NotFoundTrace := "The paste provided could not be found."
  const UnknownMessage := "Unknown Error"

  /** `load` given what `fetchConfig(fetch)` settled to: a config, `null`, or
      a thrown value. */
  function Load(outcome: Outcome<Option<Config>>): (r: PageResult)
    ensures r.PageData? <==> outcome.Returned? && outcome.value.Some?
    ensures r.PageData? ==> r.config == outcome.value.value
    ensures r.PageError? ==> r.body.pasteId == None
    ensures outcome.Threw? && outcome.thrown.Raised? && outcome.thrown.error.PasteResponseError? ==>
      var e := outcome.thrown.error;
      r == PageError(e.status, PageErrorBody(e.message, e.trace, Some(e.timestamp), None))
    ensures outcome.Threw? && outcome.thrown.Raised? && !outcome.thrown.error.PasteResponseError? ==>
      r == PageError(501, PageErrorBody(outcome.thrown.error.message, None, None, None))
    ensures outcome.Threw? && outcome.thrown.OtherError? ==>
      r == PageError(501, PageErrorBody(outcome.thrown.message, None, None, None))
    ensures outcome == Threw(NonError) ==>
      r == PageError(501, PageErrorBody(UnknownMessage, None, None, None))
    ensures outcome == Returned(None) ==>
      r == PageError(404, PageErrorBody(NotFoundMessage, Some(NotFoundTrace), None, None))
  {
    match outcome
    case Threw(Raised(e)) =>
      if e.PasteResponseError? then
        PageError(e.status, PageErrorBody(e.message, e.trace, Some(e.timestamp), None))
      else
        PageError(501, PageErrorBody(e.message, None, None, None))
    case Threw(OtherError(message)) =>
      PageError(501, PageErrorBody(message, None, None, None))
    case Threw(NonError) =>
      PageError(501, PageErrorBody(UnknownMessage, None, None, None))
    case Returned(None) =>
      PageError(404, PageErrorBody(NotFoundMessage, Some(NotFoundTrace), None, None))
    case Returned(Some(config)) =>
      PageData(config)
  }

  /** The backend's own error body reaches the page unchanged: a response
      error built from status `s` and body `a` gives an error page with
      status `s`, the body's trace and its timestamp. */
  lemma BackendErrorReachesPage(s: int, a: APIError, format: int -> string)
    ensures var r := Load(Threw(Raised(FromAPIError(s, a, format))));
      r.PageError? && r.status == s && r.body.trace == a.trace && r.body.timestamp == Some(a.timestamp)
  {
  }

  /** Only a missing config gives a page with a trace and no timestamp. */
  lemma NotFoundPageIsDistinct(outcome: Outcome<Option<Config>>)
    ensures var r := Load(outcome);
      (r.PageError? && r.body.trace.Some? && r.body.timestamp.None?) <==> outcome == Returned(None)
  {
  }

  /** The error pages without trace and timestamp are exactly those for a
      thrown value other than a response error, and they have status 501. */
  lemma ServerErrorPages(outcome: Outcome<Option<Config>>)
    ensures var r := Load(outcome);
      (r.PageError? && r.body.trace.None? && r.body.timestamp.None?) <==>
        outcome.Threw? && !(outcome.thrown.Raised? && outcome.thrown.error.PasteResponseError?)
    ensures var r := Load(outcome);
      r.PageError? && r.body.timestamp.None? && r.body.trace.None? ==> r.status == 501
  {
  }
}
