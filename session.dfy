/**
  * The page over time: every user action and every settled request as an
  * event, applied in the order the browser runs them.
  *
  * A click on the process button runs `handleProcess` up to its `await`
  * (while the button is enabled; `disabled={loading}` drops clicks while a
  * request is pending, src/App.jsx:206-208); the request's outcome arrives
  * later as its own event, and the tab buttons and the inputs may run in
  * between. The session keeps the requests sent and not yet settled.
  */
module Session {
  import opened Wrappers
  import opened Json
  import opened AppView

  datatype Event =
    | EditUrl(text: string)
    | PickResolution(choice: string)
    | SwitchTab(tab: Tab)
    | ClickProcess
    | Arrive(outcome: FetchOutcome)

  /** The view state and the requests sent whose outcome has not arrived yet, oldest first. */
  datatype Session = Session(view: ViewState, pending: seq<Request>)

  const Start := Session(Initial, [])

  /** At most one request is pending, and the page shows loading exactly while one is. */
  predicate SingleFlight(m: Session) {
    |m.pending| <= 1 && (m.view.loading <==> |m.pending| == 1)
  }

  /** One event. */
  function Step(m: Session, e: Event): (r: Session)
    ensures SingleFlight(m) ==> SingleFlight(r)
    // a click while loading is dropped; an enabled click sends the page's request iff the URL is non-empty
    ensures e.ClickProcess? && m.view.loading ==> r == m
    ensures e.ClickProcess? && !m.view.loading && m.view.url != "" ==>
      r.pending == m.pending + [InfoRequest(m.view.url, m.view.tab)]
    ensures e.ClickProcess? && m.view.url == "" ==> r.pending == m.pending
    // an arriving outcome always ends loading
    ensures e.Arrive? && m.pending != [] ==> !r.view.loading
  {
    match e
    case EditUrl(text) => m.(view := m.view.(url := text))
    case PickResolution(choice) => m.(view := m.view.(resolution := choice))
    case SwitchTab(t) => m.(view := Switched(m.view, t))
    case ClickProcess =>
      if Visible(m.view).submitDisabled then m
      else
        var (v, sent) := Submitted(m.view);
        m.(view := v, pending := m.pending + (if sent.Some? then [sent.value] else []))
    case Arrive(o) =>
      if m.pending == [] then m else Session(Settled(m.view, o), m.pending[1..])
  }

  /** The events, in order. */
  function Run(m: Session, events: seq<Event>): Session
    decreases |events|
  {
    if events == [] then m else Run(Step(m, events[0]), events[1..])
  }

  /**
    * Whatever the user does, the page never has two requests in flight,
    * and it shows loading exactly while its one request is pending: the
    * disabled button is what keeps the handler single-flight.
    */
  lemma {:induction false} RunKeepsSingleFlight(m: Session, events: seq<Event>)
    requires SingleFlight(m)
    ensures SingleFlight(Run(m, events))
    decreases |events|
  {
    if events != [] {
      RunKeepsSingleFlight(Step(m, events[0]), events[1..]);
    }
  }

  /** From the page's first render on, at most one request is ever pending. */
  lemma SingleFlightFromStart(events: seq<Event>)
    ensures |Run(Start, events).pending| <= 1
    ensures Run(Start, events).view.loading <==> Run(Start, events).pending != []
  {
    RunKeepsSingleFlight(Start, events);
  }

  /**
    * There is no request token: an outcome that arrives after the user
    * switched tabs is still written, and the page shows the previous tab's
    * result under the new tab.
    */
  lemma LateOutcomeStillWritten(m: Session, t: Tab, body: Value)
    requires SingleFlight(m) && m.pending != []
    ensures Run(m, [SwitchTab(t), Arrive(Responded(200, Some(body)))]).view.data == body
    ensures Run(m, [SwitchTab(t), Arrive(Responded(200, Some(body)))]).view.tab == t
  {
    var m1 := Step(m, SwitchTab(t));
    var m2 := Step(m1, Arrive(Responded(200, Some(body))));
    assert Run(m, [SwitchTab(t), Arrive(Responded(200, Some(body)))]) == Run(m1, [Arrive(Responded(200, Some(body)))]);
    assert Run(m1, [Arrive(Responded(200, Some(body)))]) == Run(m2, []);
  }

  /**
    * Submitting an empty URL while a result is shown sets the validation
    * error and keeps the result: the error box and the results section
    * show together.
    */
  lemma ValidationErrorBesideResult(m: Session)
    requires !m.view.loading && m.view.url == "" && JsTruthy(m.view.data)
    ensures Visible(Step(m, ClickProcess).view).errorBox
    ensures Visible(Step(m, ClickProcess).view).results
    ensures Step(m, ClickProcess).pending == m.pending
  {
  }
}
