/**
 * The streaming-response listener of a chat-completion client.
 *
 * The transport delivers server-sent-event notifications one at a time: the
 * connection opened, a frame arrived, the connection failed, the connection
 * closed. The listener accumulates the text fragments of the assistant's reply
 * in a running transcript and reports each fragment, the completed transcript
 * and transport failures to callbacks supplied by its caller.
 *
 * Callback invocations are recorded, in order, in a ghost trace of effects;
 * every property below is stated as an effect on the transcript and the trace.
 */
module StreamListener {
  import opened Wrappers

  // ---------------------------------------------------------------------------
  // Data model
  // ---------------------------------------------------------------------------

  /** One entry of a decoded frame's `choices`: the `content` of its `delta`, which may be absent. */
  datatype Choice = Choice(content: Option<string>)

  /**
   * A frame as the listener sees it once its `data` has been examined: the literal
   * sentinel "[DONE]", or a decoded completion delta whose `choices` may be absent.
   */
  datatype Frame = Done | Payload(choices: Option<seq<Choice>>)

  /** The transport's response at the moment of a failure. */
  datatype Response =
    | NoResponse            // no response object was delivered
    | Body(text: string)    // the response body could be read, with this text
    | BodyReadFails         // reading the response body raised an exception

  /** The cause the transport passes along with a failure, handed on to the error callback. */
  datatype Throwable = Throwable(message: string)

  /** The completion consumer held by the listener: the default no-op one or one set by the caller. */
  datatype Consumer = DoNothing | Supplied(id: nat)

  /** A callback invocation, or the cancellation of the event source. */
  datatype Effect =
    | Fragment(text: string)                        // the fragment callback got one text fragment
    | Complete(consumer: Consumer, message: string) // the completion consumer got the transcript
    | Error(cause: Throwable, body: string)         // the error callback got a cause and a body text
    | Cancel                                        // the event source was cancelled

  /** The listener's state: the running transcript and the effects so far. */
  datatype Session = Session(transcript: string, trace: seq<Effect>)

  /** A notification from the transport. */
  datatype Notification =
    | Opened
    | Message(frame: Frame)
    | Failed(cause: Throwable, response: Response)
    | Closed

  /** The body text that marks an account terminated for a policy violation; it only changes what is logged. */
  const PolicyViolationText := "Your access was terminated due to violation of our policies"

  // ---------------------------------------------------------------------------
  // Reading the trace
  // ---------------------------------------------------------------------------

  /** The text an effect adds to the transcript: a fragment's text, otherwise nothing. */
  function FragmentText(e: Effect): string {
    if e.Fragment? then e.text else ""
  }

  /** The in-order concatenation of every fragment reported in `t`. */
  function Joined(t: seq<Effect>): string
    decreases |t|
  {
    if t == [] then "" else Joined(t[..|t| - 1]) + FragmentText(t[|t| - 1])
  }

  /** The number of completion callbacks in `t`. */
  function Completions(t: seq<Effect>): nat
    decreases |t|
  {
    if t == [] then 0 else Completions(t[..|t| - 1]) + (if t[|t| - 1].Complete? then 1 else 0)
  }

  /** The number of cancellations in `t`. */
  function Cancels(t: seq<Effect>): nat
    decreases |t|
  {
    if t == [] then 0 else Cancels(t[..|t| - 1]) + (if t[|t| - 1].Cancel? then 1 else 0)
  }

  /**
   * Every completion callback in `t` received exactly the fragments reported
   * before it (stated per index by CompletionCarriesTranscript).
   */
  ghost predicate CompletionsFaithful(t: seq<Effect>)
    decreases |t|
  {
    t == [] ||
    (CompletionsFaithful(t[..|t| - 1]) &&
     (t[|t| - 1].Complete? ==> t[|t| - 1].message == Joined(t[..|t| - 1])))
  }

  /**
   * The session invariant: the transcript is the concatenation of the reported
   * fragments, and every completion carried the transcript of its moment.
   */
  ghost predicate Consistent(s: Session) {
    s.transcript == Joined(s.trace) && CompletionsFaithful(s.trace)
  }

  /** `body` contains `pattern` somewhere. */
  ghost predicate Contains(body: string, pattern: string) {
    exists i :: 0 <= i <= |body| && pattern <= body[i..]
  }

  // ---------------------------------------------------------------------------
  // The handlers as functions of the state
  // ---------------------------------------------------------------------------

  /** The text of the first choice of a frame, when the frame is a payload with a first choice that has content. */
  function FirstContent(f: Frame): Option<string> {
    if f.Done? || f.choices.None? || |f.choices.value| == 0 then None
    else f.choices.value[0].content
  }

  /** What a frame adds to the transcript. */
  function Contribution(f: Frame): string {
    if FirstContent(f).Some? then FirstContent(f).value else ""
  }

  /**
   * `onEvent`: the sentinel hands the unchanged transcript to the completion
   * consumer `c`; a payload appends its first choice's content, if any, and
   * reports it as a fragment.
   */
  function Event(s: Session, f: Frame, c: Consumer): (r: Session)
    ensures r.transcript == s.transcript + Contribution(f)
    ensures f.Done? ==> r.trace == s.trace + [Complete(c, s.transcript)]
    ensures f.Payload? && FirstContent(f).Some? ==> r.trace == s.trace + [Fragment(FirstContent(f).value)]
    ensures f.Payload? && FirstContent(f).None? ==> r == s
    ensures Joined(r.trace) == Joined(s.trace) + Contribution(f)
  {
    match f
    case Done => Session(s.transcript, s.trace + [Complete(c, s.transcript)])
    case Payload(choices) =>
      if choices.None? || |choices.value| == 0 then s
      else
        match choices.value[0].content
        case None => s
        case Some(text) => Session(s.transcript + text, s.trace + [Fragment(text)])
  }

  /**
   * `onFailure`: the body text is "" without a response and the body itself when
   * it can be read; the error callback gets the cause and that text, unless
   * reading the body threw; the event source is cancelled last on every path.
   */
  function Failure(cause: Throwable, response: Response): (r: seq<Effect>)
    ensures 0 < |r| <= 2 && r[|r| - 1] == Cancel
    ensures forall i :: 0 <= i < |r| - 1 ==> r[i].Error?
    ensures response.NoResponse? ==> Error(cause, "") in r
    ensures response.Body? ==> Error(cause, response.text) in r
    ensures response.BodyReadFails? <==> (forall e :: e in r ==> !e.Error?)
  {
    match response
    case NoResponse => [Error(cause, ""), Cancel]
    case Body(text) => [Error(cause, text), Cancel]
    case BodyReadFails => [Cancel]
  }

  /**
   * One transport notification: `onOpen` and `onClosed` do nothing, a frame is
   * handled by `Event`, and a failure keeps the transcript and appends the effects
   * of `Failure`.
   */
  function Step(s: Session, n: Notification, c: Consumer): (r: Session)
    ensures n.Opened? || n.Closed? ==> r == s
    ensures n.Message? ==> r == Event(s, n.frame, c)
    ensures n.Failed? ==> r == Session(s.transcript, s.trace + Failure(n.cause, n.response))
    ensures r.transcript == s.transcript + (if n.Message? then Contribution(n.frame) else "")
    ensures s.trace <= r.trace
  {
    match n
    case Opened => s
    case Closed => s
    case Message(f) => Event(s, f, c)
    case Failed(cause, response) => Session(s.transcript, s.trace + Failure(cause, response))
  }

  /** The state after the notifications `ns`, delivered one at a time, with completion consumer `c`. */
  function Run(s: Session, ns: seq<Notification>, c: Consumer): (r: Session)
    ensures s.transcript <= r.transcript
    ensures s.trace <= r.trace
    decreases |ns|
  {
    if ns == [] then s
    else
      var next := Step(s, ns[0], c);
      assert s.transcript <= next.transcript && s.trace <= next.trace;
      Run(next, ns[1..], c)
  }

  /** Reference definition: the in-order concatenation of what each frame in `ns` contributes. */
  function Delivered(ns: seq<Notification>): string
    decreases |ns|
  {
    if ns == [] then ""
    else (if ns[0].Message? then Contribution(ns[0].frame) else "") + Delivered(ns[1..])
  }

  /** The number of sentinel frames in `ns`. */
  function Dones(ns: seq<Notification>): nat
    decreases |ns|
  {
    if ns == [] then 0 else (if ns[0] == Message(Done) then 1 else 0) + Dones(ns[1..])
  }

  /** The number of failures in `ns`. */
  function Failures(ns: seq<Notification>): nat
    decreases |ns|
  {
    if ns == [] then 0 else (if ns[0].Failed? then 1 else 0) + Failures(ns[1..])
  }

  // ---------------------------------------------------------------------------
  // Lemmas about the trace
  // ---------------------------------------------------------------------------

  /** Joining, and counting completions and cancellations, distribute over appending effects. */
  lemma {:induction false} AppendEffects(t: seq<Effect>, u: seq<Effect>)
    ensures Joined(t + u) == Joined(t) + Joined(u)
    ensures Completions(t + u) == Completions(t) + Completions(u)
    ensures Cancels(t + u) == Cancels(t) + Cancels(u)
    decreases |u|
  {
    if u == [] {
      assert t + u == t;
    } else {
      var front := u[..|u| - 1];
      assert (t + u)[..|t + u| - 1] == t + front;
      assert (t + u)[|t + u| - 1] == u[|u| - 1];
      AppendEffects(t, front);
    }
  }

  /** Each completion callback recorded in a faithful trace carried the fragments reported before it. */
  lemma {:induction false} CompletionCarriesTranscript(t: seq<Effect>, i: nat)
    requires CompletionsFaithful(t)
    requires i < |t| && t[i].Complete?
    ensures t[i].message == Joined(t[..i])
    decreases |t|
  {
    var front := t[..|t| - 1];
    if i < |front| {
      CompletionCarriesTranscript(front, i);
      assert front[..i] == t[..i];
    }
  }

  /** Appending one effect to a consistent session's trace keeps it consistent. */
  lemma AppendOneKeepsConsistent(s: Session, e: Effect)
    requires Consistent(s)
    requires e.Complete? ==> e.message == s.transcript
    ensures Consistent(Session(s.transcript + FragmentText(e), s.trace + [e]))
  {
  }

  /** A handled frame keeps the session invariant. */
  lemma EventKeepsConsistent(s: Session, f: Frame, c: Consumer)
    requires Consistent(s)
    ensures Consistent(Event(s, f, c))
  {
  }

  /** A handled failure keeps the session invariant and leaves the transcript alone. */
  lemma FailureKeepsConsistent(s: Session, cause: Throwable, response: Response)
    requires Consistent(s)
    ensures Consistent(Session(s.transcript, s.trace + Failure(cause, response)))
  {
    if !response.BodyReadFails? {
      var e := Failure(cause, response)[0];
      AppendOneKeepsConsistent(s, e);
      AppendOneKeepsConsistent(Session(s.transcript, s.trace + [e]), Cancel);
      assert s.trace + Failure(cause, response) == s.trace + [e] + [Cancel];
    } else {
      AppendOneKeepsConsistent(s, Cancel);
    }
  }

  /** Every notification keeps the session invariant. */
  lemma {:induction false} StepKeepsConsistent(s: Session, n: Notification, c: Consumer)
    requires Consistent(s)
    ensures Consistent(Step(s, n, c))
  {
    match n
    case Opened =>
    case Closed =>
    case Message(f) => EventKeepsConsistent(s, f, c);
    case Failed(cause, response) => FailureKeepsConsistent(s, cause, response);
  }

  // ---------------------------------------------------------------------------
  // Lemmas about whole sessions
  // ---------------------------------------------------------------------------

  /**
   * After any notifications the transcript is the old one followed by the
   * in-order concatenation of each frame's first-choice content.
   */
  lemma {:induction false} RunTranscript(s: Session, ns: seq<Notification>, c: Consumer)
    ensures Run(s, ns, c).transcript == s.transcript + Delivered(ns)
    decreases |ns|
  {
    if ns != [] {
      RunTranscript(Step(s, ns[0], c), ns[1..], c);
    }
  }

  /** A session that starts empty holds exactly the delivered text. */
  lemma FreshRunTranscript(ns: seq<Notification>, c: Consumer)
    ensures Run(Session("", []), ns, c).transcript == Delivered(ns)
  {
    RunTranscript(Session("", []), ns, c);
  }

  /** The session invariant holds throughout any run. */
  lemma {:induction false} RunKeepsConsistent(s: Session, ns: seq<Notification>, c: Consumer)
    requires Consistent(s)
    ensures Consistent(Run(s, ns, c))
    decreases |ns|
  {
    if ns != [] {
      StepKeepsConsistent(s, ns[0], c);
      RunKeepsConsistent(Step(s, ns[0], c), ns[1..], c);
    }
  }

  /**
   * There is no terminal flag: each sentinel frame fires the completion consumer
   * once more, and each failure cancels the event source once more.
   */
  lemma {:induction false} RunCounts(s: Session, ns: seq<Notification>, c: Consumer)
    ensures Completions(Run(s, ns, c).trace) == Completions(s.trace) + Dones(ns)
    ensures Cancels(Run(s, ns, c).trace) == Cancels(s.trace) + Failures(ns)
    decreases |ns|
  {
    if ns != [] {
      StepCounts(s, ns[0], c);
      RunCounts(Step(s, ns[0], c), ns[1..], c);
    }
  }

  /** One notification adds a completion exactly for the sentinel frame and a cancellation exactly for a failure. */
  lemma StepCounts(s: Session, n: Notification, c: Consumer)
    ensures Completions(Step(s, n, c).trace) == Completions(s.trace) + (if n == Message(Done) then 1 else 0)
    ensures Cancels(Step(s, n, c).trace) == Cancels(s.trace) + (if n.Failed? then 1 else 0)
  {
    match n
    case Opened =>
    case Closed =>
    case Message(f) =>
      var r := Event(s, f, c);
      if r.trace != s.trace {
        var e := r.trace[|s.trace|];
        assert r.trace == s.trace + [e];
        AppendEffects(s.trace, [e]);
        assert [e][..0] == [];
      }
    case Failed(cause, response) =>
      AppendEffects(s.trace, Failure(cause, response));
      FailureCounts(cause, response);
  }

  /** The effects of a failure hold no completion and exactly one cancellation. */
  lemma FailureCounts(cause: Throwable, response: Response)
    ensures Completions(Failure(cause, response)) == 0
    ensures Cancels(Failure(cause, response)) == 1
  {
    var r := Failure(cause, response);
    if response.BodyReadFails? {
      assert r[..0] == [];
    } else {
      var e := r[0];
      assert r == [e, Cancel] && e.Error? && r[..1] == [e] && [e][..0] == [];
      assert Completions([e]) == 0 && Cancels([e]) == 0;
    }
  }

  /** A stream that closes without a sentinel frame never reports completion. */
  lemma NoSentinelNoCompletion(ns: seq<Notification>, c: Consumer)
    requires Message(Done) !in ns
    ensures Completions(Run(Session("", []), ns, c).trace) == 0
  {
    RunCounts(Session("", []), ns, c);
    NoDones(ns);
  }

  lemma {:induction false} NoDones(ns: seq<Notification>)
    requires Message(Done) !in ns
    ensures Dones(ns) == 0
    decreases |ns|
  {
    if ns != [] {
      assert ns == [ns[0]] + ns[1..];
      NoDones(ns[1..]);
    }
  }

  /** A payload without choices, or with an empty list of them, changes nothing and reports nothing. */
  lemma NoChoicesIgnored(s: Session, c: Consumer)
    ensures Event(s, Payload(None), c) == s
    ensures Event(s, Payload(Some([])), c) == s
  {
  }

  /** Delivering one more notification after a run is one more step. */
  lemma {:induction false} RunSnoc(s: Session, ns: seq<Notification>, n: Notification, c: Consumer)
    ensures Run(s, ns + [n], c) == Step(Run(s, ns, c), n, c)
    decreases |ns|
  {
    if ns == [] {
      assert ns + [n] == [n];
    } else {
      assert (ns + [n])[1..] == ns[1..] + [n];
      RunSnoc(Step(s, ns[0], c), ns[1..], n, c);
    }
  }

  /**
   * A sentinel after any notifications of a fresh session hands the completion
   * consumer exactly the concatenated first-choice contents, in frame order.
   */
  lemma SentinelCompletesWithDelivered(ns: seq<Notification>, c: Consumer)
    ensures Run(Session("", []), ns + [Message(Done)], c).transcript == Delivered(ns)
    ensures Run(Session("", []), ns + [Message(Done)], c).trace
         == Run(Session("", []), ns, c).trace + [Complete(c, Delivered(ns))]
  {
    RunSnoc(Session("", []), ns, Message(Done), c);
    FreshRunTranscript(ns, c);
  }

  /** Only the first choice is consulted: the choices after it never matter. */
  lemma OnlyFirstChoice(s: Session, c: Consumer, first: Choice, rest: seq<Choice>)
    ensures Event(s, Payload(Some([first] + rest)), c) == Event(s, Payload(Some([first])), c)
  {
  }

  /**
   * Two content frames followed by the sentinel: the fragment callback gets the
   * two texts in order, and the completion consumer gets their concatenation once.
   */
  lemma TwoFragmentsThenSentinel(first: string, second: string, c: Consumer)
    ensures Run(Session("", []), [Message(Payload(Some([Choice(Some(first))]))),
                                  Message(Payload(Some([Choice(Some(second))]))),
                                  Message(Done)], c)
         == Session(first + second, [Fragment(first), Fragment(second), Complete(c, first + second)])
  {
    var ns := [Message(Payload(Some([Choice(Some(first))]))),
               Message(Payload(Some([Choice(Some(second))]))),
               Message(Done)];
    var s1 := Step(Session("", []), ns[0], c);
    assert s1 == Session(first, [Fragment(first)]);
    var s2 := Step(s1, ns[1], c);
    assert s2 == Session(first + second, [Fragment(first), Fragment(second)]);
    assert ns[1..][1..] == [Message(Done)];
    assert Run(s2, [Message(Done)], c) == Step(s2, Message(Done), c);
  }

  /**
   * Frames "Hel" and "lo" followed by the sentinel: the fragment callback gets
   * "Hel" then "lo", and the completion consumer gets "Hello" once.
   */
  lemma HelloScenario(c: Consumer)
    ensures Run(Session("", []), [Message(Payload(Some([Choice(Some("Hel"))]))),
                                  Message(Payload(Some([Choice(Some("lo"))]))),
                                  Message(Done)], c)
         == Session("Hello", [Fragment("Hel"), Fragment("lo"), Complete(c, "Hello")])
  {
    TwoFragmentsThenSentinel("Hel", "lo", c);
    assert "Hel" + "lo" == "Hello";
  }

  /**
   * A failure whose body carries the policy-violation text still reaches the
   * error callback with that body verbatim, and the event source is cancelled.
   */
  lemma PolicyViolationScenario(cause: Throwable)
    ensures Contains(PolicyViolationText + ".", PolicyViolationText)
    ensures Failure(cause, Body(PolicyViolationText + ".")) == [Error(cause, PolicyViolationText + "."), Cancel]
  {
    var body := PolicyViolationText + ".";
    assert PolicyViolationText <= body[0..];
  }

  // ---------------------------------------------------------------------------
  // The listener object
  // ---------------------------------------------------------------------------

  /** The listener: `transcript` is the Java `lastMessage` field, `onComplete` the settable completion consumer. */
  class Listener {
    var transcript: string
    var onComplete: Consumer
    ghost var trace: seq<Effect>

    ghost predicate Valid()
      reads this
    {
      Consistent(Session(transcript, trace))
    }

    ghost function State(): Session
      reads this
    {
      Session(transcript, trace)
    }

    constructor ()
      ensures Valid()
      ensures transcript == "" && trace == [] && onComplete == DoNothing
    {
      transcript := "";
      onComplete := DoNothing;
      trace := [];
    }

    method SetOnComplete(c: Consumer)
      modifies this`onComplete
      ensures onComplete == c
    {
      onComplete := c;
    }

    method GetOnComplete() returns (c: Consumer)
      ensures c == onComplete
    {
      c := onComplete;
    }

    method OnOpen()
      requires Valid()
      ensures Valid() && State() == old(State())
    {
    }

    method OnClosed()
      requires Valid()
      ensures Valid() && State() == old(State())
    {
    }

    /** Handles one frame; the event id and type are not consulted. */
    method OnEvent(id: string, eventType: string, frame: Frame)
      requires Valid()
      modifies this`transcript, this`trace
      ensures Valid()
      ensures State() == Event(old(State()), frame, onComplete)
      ensures old(transcript) <= transcript
    {
      EventKeepsConsistent(State(), frame, onComplete);
      if frame.Done? {
        trace := trace + [Complete(onComplete, transcript)];
        return;
      }
      var choices := frame.choices;
      if choices.None? || |choices.value| == 0 {
        return;
      }
      var text := choices.value[0].content;
      if text.Some? {
        transcript := transcript + text.value;
        trace := trace + [Fragment(text.value)];
      }
    }

    /**
     * Handles a transport failure. `onErrorThrows` says whether the caller's error
     * callback raises; the exception is swallowed, so the outcome does not depend on it.
     */
    method OnFailure(cause: Throwable, response: Response, onErrorThrows: bool)
      requires Valid()
      modifies this`trace
      ensures Valid()
      ensures transcript == old(transcript)
      ensures trace == old(trace) + Failure(cause, response)
    {
      FailureKeepsConsistent(State(), cause, response);
      ghost var before := trace;
      var raised := false;
      var responseText := "";
      match response {
        case NoResponse =>
        case Body(text) => responseText := text;
        case BodyReadFails => raised := true;
      }
      if !raised {
        // whether the callback throws (`onErrorThrows`) makes no difference: the
        // exception is caught and discarded, and nothing in the try block follows
        trace := trace + [Error(cause, responseText)];
      }
      // finally: the event source is cancelled whether or not anything was raised
      trace := trace + [Cancel];
      assert trace == before + Failure(cause, response);
    }
  }
}
