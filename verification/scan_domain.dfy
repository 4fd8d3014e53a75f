/** The scan page: a form that starts a scan, a socket subscription scoped to
    the current scan id, and the progress and completion handlers that drive
    the page's state. The component is modelled as a transition function over
    the page's state, one event at a time (the browser runs each handler to
    completion before the next), together with the socket operations each
    event performs. The HTTP request is split into the submission itself and
    the later arrival of its response, which may interleave with socket events. */
module ScanDomain {
  import opened Wrappers
  import opened ScanResults

  const InitialTask := "Initializing scan..."
  const SubmitFailedMessage := "Failed to start scan. Please try again."

  /** The component's state hooks, plus what the model needs to follow the
      effect: how many start requests are awaiting a response, the scan id the
      open socket (if any) joined, and whether the page is still mounted. */
  datatype Page = Page(
    domain: string,
    scanning: bool,
    scanId: Option<string>,
    error: Option<string>,
    progress: int,
    currentTask: string,
    results: Value,
    pending: nat,
    socket: Option<string>,
    mounted: bool)

  /** The page as first rendered. */
  const Initial := Page("", false, None, None, 0, "", Null, 0, None, true)

  datatype Event =
    | EditDomain(text: string)
    | Submit
    | SubmitSucceeded(id: Option<string>)
    | SubmitFailed
    | Progress(percent: int, message: string)
    | Complete(payload: Value)
    | Unmount

  /** What an event does outside the page: the start request, and opening or
      closing the socket that joins a scan's room. */
  datatype Effect = PostStart(domain: string) | Connect(id: string) | Disconnect(id: string)

  datatype Transition = Transition(page: Page, effects: seq<Effect>)

  /** `if (scanId)`: a present, non-empty id. */
  predicate Subscribable(scanId: Option<string>) {
    scanId.Some? && scanId.value != ""
  }

  /** The effect keyed on `[scanId]` has run for the current id and not been
      cleaned up: a socket is open exactly while the page is mounted and the
      current id is non-empty, and it joined that id. */
  predicate SocketMatchesScanId(p: Page) {
    p.socket == (if p.mounted && Subscribable(p.scanId) then p.scanId else None)
  }

  /** The button is enabled and the form's required domain is filled in. */
  predicate CanSubmit(p: Page) {
    p.mounted && !p.scanning && p.domain != ""
  }

  /** `setScanId(id)` followed by the effect on `[scanId]`: nothing when the id
      is unchanged; otherwise the previous socket is disconnected by the
      cleanup, and a new one is connected if the new id is non-empty. */
  function SetScanId(p: Page, id: Option<string>): Transition {
    if id == p.scanId then Transition(p, [])
    else
      var closeOld := if p.socket.Some? then [Disconnect(p.socket.value)] else [];
      var connectNew := if Subscribable(id) then [Connect(id.value)] else [];
      Transition(p.(scanId := id, socket := if Subscribable(id) then id else None), closeOld + connectNew)
  }

  /** `typeof data.results === 'string' ? JSON.parse(data.results) : data.results`,
      with `parse` standing for `JSON.parse`; `None` is a parse that throws. */
  function CompletedResults(payload: Value, parse: string -> Option<Value>): Option<Value> {
    if payload.Str? then parse(payload.s) else Some(payload)
  }

  /** One event. `None` means the event cannot happen in that state: the
      button is disabled, no request is outstanding, or no socket is open. */
  function Step(p: Page, e: Event, parse: string -> Option<Value>): Option<Transition> {
    match e
    case EditDomain(text) =>
      if p.mounted then Some(Transition(p.(domain := text), [])) else None
    case Submit =>
      if !CanSubmit(p) then None
      else Some(Transition(
        p.(error := None, scanning := true, results := Null, progress := 0,
           currentTask := InitialTask, pending := p.pending + 1),
        [PostStart(p.domain)]))
    case SubmitSucceeded(id) =>
      if p.pending == 0 then None
      else if !p.mounted then Some(Transition(p.(pending := p.pending - 1), []))
      else Some(SetScanId(p.(pending := p.pending - 1), id))
    case SubmitFailed =>
      if p.pending == 0 then None
      else if !p.mounted then Some(Transition(p.(pending := p.pending - 1), []))
      else Some(Transition(p.(pending := p.pending - 1, error := Some(SubmitFailedMessage), scanning := false), []))
    case Progress(percent, message) =>
      if p.socket.None? then None
      else Some(Transition(p.(progress := percent, currentTask := message), []))
    case Complete(payload) =>
      if p.socket.None? then None
      else (match CompletedResults(payload, parse)
        case None => Some(Transition(p, []))
        case Some(v) => Some(Transition(p.(results := v, scanning := false), [])))
    case Unmount =>
      if !p.mounted then None
      else Some(Transition(p.(mounted := false, socket := None),
                           if p.socket.Some? then [Disconnect(p.socket.value)] else []))
  }

  /** A sequence of events from `p`; `None` if one of them cannot happen. */
  function Run(p: Page, es: seq<Event>, parse: string -> Option<Value>): Option<Transition>
    decreases |es|
  {
    if es == [] then Some(Transition(p, []))
    else match Step(p, es[0], parse)
      case None => None
      case Some(t) =>
        match Run(t.page, es[1..], parse)
        case None => None
        case Some(u) => Some(Transition(u.page, t.effects + u.effects))
  }

  // ---------------------------------------------------------------------------
  // Open sockets
  // ---------------------------------------------------------------------------

  /** The open socket of a page, as a list of the scan ids joined. */
  function Live(p: Page): seq<string> {
    if p.socket.Some? then [p.socket.value] else []
  }

  /** `xs` without the first occurrence of `x`. */
  function Remove(xs: seq<string>, x: string): seq<string> {
    if xs == [] then [] else if xs[0] == x then xs[1..] else [xs[0]] + Remove(xs[1..], x)
  }

  /** The open sockets after one effect. */
  function Apply(open: seq<string>, f: Effect): seq<string> {
    match f
    case PostStart(_) => open
    case Connect(id) => open + [id]
    case Disconnect(id) => Remove(open, id)
  }

  function ApplyAll(open: seq<string>, fs: seq<Effect>): seq<string>
    decreases |fs|
  {
    if fs == [] then open else ApplyAll(Apply(open, fs[0]), fs[1..])
  }

  /** At most one socket is open before and after every effect: an old socket
      is always closed before a new one opens. */
  predicate OneAtATime(open: seq<string>, fs: seq<Effect>)
    decreases |fs|
  {
    |open| <= 1 && (fs == [] || OneAtATime(Apply(open, fs[0]), fs[1..]))
  }

  lemma {:induction false} ApplyAllAppend(open: seq<string>, a: seq<Effect>, b: seq<Effect>)
    ensures ApplyAll(open, a + b) == ApplyAll(ApplyAll(open, a), b)
    decreases |a|
  {
    if a == [] {
      assert a + b == b;
    } else {
      assert (a + b)[0] == a[0] && (a + b)[1..] == a[1..] + b;
      ApplyAllAppend(Apply(open, a[0]), a[1..], b);
    }
  }

  lemma {:induction false} OneAtATimeAppend(open: seq<string>, a: seq<Effect>, b: seq<Effect>)
    requires OneAtATime(open, a)
    requires OneAtATime(ApplyAll(open, a), b)
    ensures OneAtATime(open, a + b)
    decreases |a|
  {
    if a == [] {
      assert a + b == b;
    } else {
      assert (a + b)[0] == a[0] && (a + b)[1..] == a[1..] + b;
      OneAtATimeAppend(Apply(open, a[0]), a[1..], b);
    }
  }

  /** The socket effects of a new scan id close the old socket, open the new
      one, and never have two open at once. */
  lemma SetScanIdSockets(p: Page, id: Option<string>)
    requires p.mounted && SocketMatchesScanId(p)
    ensures SocketMatchesScanId(SetScanId(p, id).page)
    ensures ApplyAll(Live(p), SetScanId(p, id).effects) == Live(SetScanId(p, id).page)
    ensures OneAtATime(Live(p), SetScanId(p, id).effects)
  {
    var t := SetScanId(p, id);
    if id != p.scanId {
      var closeOld: seq<Effect> := if p.socket.Some? then [Disconnect(p.socket.value)] else [];
      var connectNew: seq<Effect> := if Subscribable(id) then [Connect(id.value)] else [];
      assert t.effects == closeOld + connectNew;
      assert ApplyAll(Live(p), closeOld) == [] by {
        if p.socket.Some? {
          assert Live(p) == [p.socket.value];
          assert Remove(Live(p), p.socket.value) == [];
          assert ApplyAll(Live(p), closeOld) == ApplyAll([], closeOld[1..]);
        }
      }
      assert OneAtATime(Live(p), closeOld) by {
        if p.socket.Some? {
          assert OneAtATime([], closeOld[1..]);
        }
      }
      assert ApplyAll([], connectNew) == Live(t.page) by {
        if Subscribable(id) {
          assert ApplyAll([], connectNew) == ApplyAll([id.value], connectNew[1..]);
        }
      }
      assert OneAtATime([], connectNew) by {
        if Subscribable(id) {
          assert OneAtATime([id.value], connectNew[1..]);
        }
      }
      ApplyAllAppend(Live(p), closeOld, connectNew);
      OneAtATimeAppend(Live(p), closeOld, connectNew);
    }
  }

  /** Every event keeps the socket tied to the current scan id, and performs
      socket operations that take the open sockets from the old page's to the
      new page's with never more than one open. */
  lemma StepSockets(p: Page, e: Event, parse: string -> Option<Value>)
    requires SocketMatchesScanId(p)
    requires Step(p, e, parse).Some?
    ensures SocketMatchesScanId(Step(p, e, parse).value.page)
    ensures ApplyAll(Live(p), Step(p, e, parse).value.effects) == Live(Step(p, e, parse).value.page)
    ensures OneAtATime(Live(p), Step(p, e, parse).value.effects)
  {
    var t := Step(p, e, parse).value;
    match e
    case SubmitSucceeded(id) =>
      if p.mounted {
        SetScanIdSockets(p.(pending := p.pending - 1), id);
      }
    case Submit =>
      assert ApplyAll(Live(p), t.effects) == ApplyAll(Live(p), t.effects[1..]);
      assert OneAtATime(Live(t.page), t.effects[1..]);
    case Unmount =>
      if p.socket.Some? {
        assert Remove(Live(p), p.socket.value) == [];
        assert ApplyAll(Live(p), t.effects) == ApplyAll([], t.effects[1..]);
        assert OneAtATime([], t.effects[1..]);
      }
    case _ =>
  }

  /** Over any run of events from a page whose socket matches its scan id, the
      socket keeps matching, the socket operations account exactly for the
      change in open sockets, and at most one socket is ever open. */
  lemma {:induction false} RunSockets(p: Page, es: seq<Event>, parse: string -> Option<Value>)
    requires SocketMatchesScanId(p)
    requires Run(p, es, parse).Some?
    ensures SocketMatchesScanId(Run(p, es, parse).value.page)
    ensures ApplyAll(Live(p), Run(p, es, parse).value.effects) == Live(Run(p, es, parse).value.page)
    ensures OneAtATime(Live(p), Run(p, es, parse).value.effects)
    decreases |es|
  {
    if es != [] {
      var t := Step(p, es[0], parse).value;
      var u := Run(t.page, es[1..], parse).value;
      StepSockets(p, es[0], parse);
      RunSockets(t.page, es[1..], parse);
      ApplyAllAppend(Live(p), t.effects, u.effects);
      OneAtATimeAppend(Live(p), t.effects, u.effects);
    }
  }

  /** From the first render on, whatever happens, at most one socket is open
      at any moment (each is closed before the next one opens), and the open
      one belongs to the current scan id. */
  lemma AtMostOneSocket(es: seq<Event>, parse: string -> Option<Value>)
    requires Run(Initial, es, parse).Some?
    ensures OneAtATime([], Run(Initial, es, parse).value.effects)
    ensures |ApplyAll([], Run(Initial, es, parse).value.effects)| <= 1
    ensures var q := Run(Initial, es, parse).value.page;
      q.socket.Some? ==> q.mounted && q.scanId == q.socket && q.socket.value != ""
  {
    RunSockets(Initial, es, parse);
  }

  /** Once unmounted, the page changes no visible state and opens no socket. */
  lemma NothingAfterUnmount(p: Page, e: Event, parse: string -> Option<Value>)
    requires SocketMatchesScanId(p) && !p.mounted
    requires Step(p, e, parse).Some?
    ensures Step(p, e, parse).value.effects == []
    ensures Step(p, e, parse).value.page == p.(pending := Step(p, e, parse).value.page.pending)
  {
  }

  // ---------------------------------------------------------------------------
  // The handlers, one by one
  // ---------------------------------------------------------------------------

  /** Submitting is possible only while not scanning (the button is disabled)
      and with a domain filled in; it clears the error and the results, resets
      the progress, shows the initial task, marks the page as scanning and sends
      the start request. The scan id, and so the socket, are left alone. */
  lemma SubmitTransition(p: Page, parse: string -> Option<Value>)
    ensures Step(p, Submit, parse).Some? <==> p.mounted && !p.scanning && p.domain != ""
    ensures Step(p, Submit, parse).Some? ==>
      var q := Step(p, Submit, parse).value.page;
      && q.error.None? && q.scanning && q.results == Null && q.progress == 0
      && q.currentTask == InitialTask && q.pending == p.pending + 1
      && q.scanId == p.scanId && q.socket == p.socket && q.domain == p.domain
      && Step(p, Submit, parse).value.effects == [PostStart(p.domain)]
  {
  }

  /** A successful start stores the returned id and leaves every displayed
      field, including `scanning`, as it was. */
  lemma SubmitSucceededTransition(p: Page, id: Option<string>, parse: string -> Option<Value>)
    requires p.mounted && p.pending > 0
    ensures var q := Step(p, SubmitSucceeded(id), parse).value.page;
      q == p.(pending := p.pending - 1, scanId := id, socket := q.socket)
  {
  }

  /** A failed start shows the fixed message and stops scanning; the scan id
      and the socket are kept. */
  lemma SubmitFailedTransition(p: Page, parse: string -> Option<Value>)
    requires p.mounted && p.pending > 0
    ensures var t := Step(p, SubmitFailed, parse).value;
      && t.page == p.(pending := p.pending - 1, error := Some(SubmitFailedMessage), scanning := false)
      && t.effects == []
  {
  }

  /** A progress event, delivered only on an open socket, changes the progress
      and the task label and nothing else. */
  lemma ProgressTransition(p: Page, percent: int, message: string, parse: string -> Option<Value>)
    ensures Step(p, Progress(percent, message), parse).Some? <==> p.socket.Some?
    ensures p.socket.Some? ==>
      Step(p, Progress(percent, message), parse) == Some(Transition(p.(progress := percent, currentTask := message), []))
  {
  }

  /** A completion event, delivered only on an open socket, stores the results
      (an object as is, a string through the parser) and stops scanning; the
      progress and task label keep their last values, so completion needs no
      earlier progress event. A string the parser rejects leaves the page as it
      was. */
  lemma CompleteTransition(p: Page, payload: Value, parse: string -> Option<Value>)
    requires p.socket.Some?
    ensures var q := Step(p, Complete(payload), parse).value.page;
      && (!payload.Str? ==> q == p.(results := payload, scanning := false))
      && (payload.Str? && parse(payload.s).Some? ==> q == p.(results := parse(payload.s).value, scanning := false))
      && (payload.Str? && parse(payload.s).None? ==> q == p)
  {
  }

  /** A result delivered as JSON text has the same effect as the object it
      encodes delivered directly. */
  lemma CompletePayloadEncodings(p: Page, text: string, v: Value, parse: string -> Option<Value>)
    requires parse(text) == Some(v) && !v.Str?
    ensures Step(p, Complete(Str(text)), parse) == Step(p, Complete(v), parse)
  {
  }

  /** Completion does not close the socket: it stays open, joined to the
      finished scan, until the id changes or the page unmounts. */
  lemma SocketOutlivesCompletion(p: Page, payload: Value, parse: string -> Option<Value>)
    requires p.socket.Some?
    ensures Step(p, Complete(payload), parse).value.page.socket == p.socket
    ensures Step(p, Complete(payload), parse).value.effects == []
  {
  }

  /** While a new start request is outstanding the old socket is still open,
      so the old scan's progress is shown on the new submission. */
  lemma OldScanProgressDuringResubmission(p: Page, percent: int, message: string, parse: string -> Option<Value>)
    requires SocketMatchesScanId(p) && CanSubmit(p) && Subscribable(p.scanId)
    ensures var q := Step(p, Submit, parse).value.page;
      && q.socket == p.scanId
      && Step(q, Progress(percent, message), parse).value.page.progress == percent
  {
  }

  // ---------------------------------------------------------------------------
  // What the page shows
  // ---------------------------------------------------------------------------

  datatype PageView = PageView(
    buttonDisabled: bool,
    buttonLabel: string,
    errorText: Option<string>,
    status: Option<(string, int)>,
    showResults: bool)

  /** The rendered form, status line and results section. */
  function View(p: Page): PageView {
    PageView(
      p.scanning,
      if p.scanning then "Scanning..." else "Start Scan",
      if p.error.Some? && p.error.value != "" then p.error else None,
      if p.scanning then Some((p.currentTask, p.progress)) else None,
      Truthy(p.results))
  }

  /** With a domain filled in, a submit event is possible exactly when the
      rendered button is enabled. */
  lemma SubmitIffButtonEnabled(p: Page, parse: string -> Option<Value>)
    requires p.mounted && p.domain != ""
    ensures Step(p, Submit, parse).Some? <==> !View(p).buttonDisabled
  {
  }

  /** Right after a submission the page shows a disabled "Scanning..." button,
      no error, the initial task at 0%, and no results section. */
  lemma ViewAfterSubmit(p: Page, parse: string -> Option<Value>)
    requires CanSubmit(p)
    ensures var v := View(Step(p, Submit, parse).value.page);
      && v.buttonDisabled && v.buttonLabel == "Scanning..."
      && v.errorText.None? && v.status == Some((InitialTask, 0)) && !v.showResults
  {
  }

  /** The results section appears exactly when the stored results are truthy;
      in particular a missing result (`null`) shows nothing. */
  lemma ResultsSectionShown(p: Page)
    ensures View(p).showResults <==>
      (p.results.Obj? || (p.results.Bool? && p.results.b) ||
       (p.results.Num? && p.results.n != 0) || (p.results.Str? && p.results.s != ""))
    ensures p.results == Null ==> !View(p).showResults
  {
  }

  /** When a new start request returns a different, non-empty id while a socket
      is open, the old socket is disconnected first and the new one connected
      after it, joined to the new id. */
  lemma NewIdReplacesSocket(p: Page, id: string, parse: string -> Option<Value>)
    requires SocketMatchesScanId(p) && p.mounted && p.pending > 0
    requires p.socket.Some? && id != "" && Some(id) != p.scanId
    ensures Step(p, SubmitSucceeded(Some(id)), parse).value.effects == [Disconnect(p.socket.value), Connect(id)]
    ensures Step(p, SubmitSucceeded(Some(id)), parse).value.page.socket == Some(id)
  {
  }

  /** Running an event and then the rest is running the rest from the page the
      event leads to, with the event's effects first. */
  lemma RunCons(p: Page, e: Event, rest: seq<Event>, parse: string -> Option<Value>)
    requires Step(p, e, parse).Some?
    ensures Run(p, [e] + rest, parse) ==
      match Run(Step(p, e, parse).value.page, rest, parse)
      case None => None
      case Some(u) => Some(Transition(u.page, Step(p, e, parse).value.effects + u.effects))
  {
    assert ([e] + rest)[0] == e && ([e] + rest)[1..] == rest;
  }

  /** Submitting "example.com", receiving the id "abc123", one progress event
      at 40% and the completion with an object leave a finished page showing
      the results, with the socket still joined to "abc123"; the only socket
      operation was the one connect. */
  lemma EndToEnd(r: ScanResult, parse: string -> Option<Value>)
    ensures Run(Initial,
      [EditDomain("example.com"), Submit, SubmitSucceeded(Some("abc123")),
       Progress(40, "Scanning ports"), Complete(Obj(r))], parse) ==
      Some(Transition(
        Page("example.com", false, Some("abc123"), None, 40, "Scanning ports", Obj(r), 0, Some("abc123"), true),
        [PostStart("example.com"), Connect("abc123")]))
  {
    var p1 := Initial.(domain := "example.com");
    var p2 := p1.(scanning := true, currentTask := InitialTask, pending := 1);
    var p3 := p2.(pending := 0, scanId := Some("abc123"), socket := Some("abc123"));
    var p4 := p3.(progress := 40, currentTask := "Scanning ports");
    var p5 := p4.(results := Obj(r), scanning := false);
    var e5: seq<Event> := [];
    var e4 := [Complete(Obj(r))] + e5;
    var e3 := [Progress(40, "Scanning ports")] + e4;
    var e2 := [SubmitSucceeded(Some("abc123"))] + e3;
    var e1 := [Submit] + e2;
    var e0 := [EditDomain("example.com")] + e1;
    RunCons(p4, Complete(Obj(r)), e5, parse);
    RunCons(p3, Progress(40, "Scanning ports"), e4, parse);
    assert SetScanId(p2.(pending := 0), Some("abc123")).effects == [Connect("abc123")];
    RunCons(p2, SubmitSucceeded(Some("abc123")), e3, parse);
    RunCons(p1, Submit, e2, parse);
    RunCons(Initial, EditDomain("example.com"), e1, parse);
    assert Run(Initial, e0, parse).value.effects == [] + ([PostStart("example.com")] + ([Connect("abc123")] + ([] + ([] + []))));
    assert [] + ([PostStart("example.com")] + ([Connect("abc123")] + ([] + ([] + [])))) == [PostStart("example.com"), Connect("abc123")];
    assert Run(Initial, e0, parse).value.page == p5;
    assert e0 == [EditDomain("example.com"), Submit, SubmitSucceeded(Some("abc123")),
                  Progress(40, "Scanning ports"), Complete(Obj(r))];
  }
}
