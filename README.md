# Streaming chat-completion listener

A Dafny model of `AbstractStreamListener`, the server-sent-event listener of a
Java chat-completion client. The transport hands the listener one notification
at a time: the connection opened, a frame arrived, the connection failed, the
connection closed. The listener keeps the reply received so far in its
`lastMessage` string (here `transcript`). For each frame:

- the sentinel `"[DONE]"` hands the transcript, unchanged, to the completion consumer;
- a decoded frame without choices, or with an empty list of them, is ignored;
- otherwise the `content` of the first choice's `delta`, when present, is appended
  to the transcript and passed to the fragment callback.

On a transport failure the listener reads the response body ("" when there is
no response), passes the cause and that text to the error callback, swallows an
exception from reading the body or from the callback, and cancels the event
source on every path.

Every callback invocation is recorded in a ghost `trace` of effects:
`Fragment(text)`, `Complete(consumer, message)`, `Error(cause, body)` and `Cancel`.

Files:

- `wrappers.dfy`: module `Wrappers`, the `Option` type that stands for a nullable Java reference.
- `stream_listener.dfy`: module `StreamListener`, with
  - the data model: `Choice`, `Frame`, `Response`, `Effect`, `Session`, `Notification`;
  - the handlers as functions of the state (`Event`, `Failure`, `Step`, `Run`);
  - the reference definitions they are checked against: `Delivered` (the in-order
    concatenation of each frame's first-choice content), `Joined` (the
    concatenation of the reported fragments) and the counts `Dones`, `Failures`,
    `Completions` and `Cancels`;
  - the session invariant `Consistent`: the transcript equals the joined fragments,
    and every completion carried the transcript of its moment;
  - lemmas over whole sessions;
  - the class `Listener`, whose methods update `transcript` and `trace` in place and
    are proved equal to `Event` and `Failure` while keeping `Consistent`.

The code has no terminal flag, so nothing stops a second completion: every
`"[DONE]"` frame calls the completion consumer again, and frames after it are
still handled. `RunCounts` states that the number of completions equals the
number of sentinel frames. `NoSentinelNoCompletion` records a second gap: a
stream that closes without a sentinel never reports completion.

## Model

| member | source | states |
|---|---|---|
| `StreamListener.Listener.constructor` | src/main/java/com/plexpt/chatgpt/listener/AbstractStreamListener.java:25-28 | A new listener has the empty transcript, no effects, and the default no-op completion consumer. |
| `StreamListener.Listener.SetOnComplete` | src/main/java/com/plexpt/chatgpt/listener/AbstractStreamListener.java:26-28 | The setter replaces the completion consumer and changes nothing else. |
| `StreamListener.Listener.GetOnComplete` | src/main/java/com/plexpt/chatgpt/listener/AbstractStreamListener.java:26-28 | The getter returns the consumer currently held. |
| `StreamListener.Listener.OnOpen` | src/main/java/com/plexpt/chatgpt/listener/AbstractStreamListener.java:45-48 | Opening changes neither the transcript nor the trace. |
| `StreamListener.Listener.OnClosed` | src/main/java/com/plexpt/chatgpt/listener/AbstractStreamListener.java:50-53 | Closing changes neither the transcript nor the trace, so it never reports completion. |
| `StreamListener.Listener.OnEvent` | src/main/java/com/plexpt/chatgpt/listener/AbstractStreamListener.java:55-75 | Handling a frame updates the transcript and trace exactly as `Event` does, keeps the session invariant, and the old transcript stays a prefix of the new one. |
| `StreamListener.Listener.OnFailure` | src/main/java/com/plexpt/chatgpt/listener/AbstractStreamListener.java:77-103 | Handling a failure appends exactly the effects of `Failure`, whether or not the error callback throws; the transcript is unchanged and the invariant kept. |
| `StreamListener.Event` | src/main/java/com/plexpt/chatgpt/listener/AbstractStreamListener.java:56-75 | The sentinel appends one `Complete` with the unchanged transcript; a payload whose first choice has content appends that text to the transcript and one `Fragment` of it; any other payload changes nothing; the joined fragments grow by what the transcript grew by. |
| `StreamListener.Failure` | src/main/java/com/plexpt/chatgpt/listener/AbstractStreamListener.java:79-103 | At most two effects: `Cancel` is the last and the only one besides at most one `Error`; without a response the error callback gets ""; with a readable body it gets that body verbatim; no `Error` occurs exactly when reading the body throws. |
| `StreamListener.CompletionCarriesTranscript` | src/main/java/com/plexpt/chatgpt/listener/AbstractStreamListener.java:57-60 | In a faithful trace, every completion received the concatenation of the fragments reported before it. |
| `StreamListener.AppendOneKeepsConsistent` | src/main/java/com/plexpt/chatgpt/listener/AbstractStreamListener.java:71-74 | Appending a fragment to transcript and trace together, or a completion carrying the current transcript, keeps the invariant. |
| `StreamListener.EventKeepsConsistent` | src/main/java/com/plexpt/chatgpt/listener/AbstractStreamListener.java:56-75 | Every frame keeps the session invariant. |
| `StreamListener.FailureKeepsConsistent` | src/main/java/com/plexpt/chatgpt/listener/AbstractStreamListener.java:79-103 | Every failure keeps the session invariant. |
| `StreamListener.StepKeepsConsistent` | src/main/java/com/plexpt/chatgpt/listener/AbstractStreamListener.java:45-103 | Every notification, including open and close, keeps the session invariant. |
| `StreamListener.RunTranscript` | src/main/java/com/plexpt/chatgpt/listener/AbstractStreamListener.java:71-74 | After any notifications the transcript is the old one followed by the in-order concatenation of each frame's first-choice content. |
| `StreamListener.FreshRunTranscript` | src/main/java/com/plexpt/chatgpt/listener/AbstractStreamListener.java:25-75 | Starting from the empty transcript, the transcript is exactly the delivered text. |
| `StreamListener.Step` | src/main/java/com/plexpt/chatgpt/listener/AbstractStreamListener.java:45-103 | One notification: open and close leave the session as it was; a frame gives `Event`; a failure keeps the transcript and appends `Failure`; the transcript grows by the frame's first-choice content and the old trace stays a prefix. |
| `StreamListener.Run` | src/main/java/com/plexpt/chatgpt/listener/AbstractStreamListener.java:45-103 | Notifications delivered one at a time: the old transcript is a prefix of the new one and the old trace a prefix of the new trace. |
| `StreamListener.RunKeepsConsistent` | src/main/java/com/plexpt/chatgpt/listener/AbstractStreamListener.java:45-103 | The session invariant holds after any sequence of notifications. |
| `StreamListener.StepCounts` | src/main/java/com/plexpt/chatgpt/listener/AbstractStreamListener.java:56-103 | One notification adds a completion exactly when it is the sentinel and a cancellation exactly when it is a failure. |
| `StreamListener.FailureCounts` | src/main/java/com/plexpt/chatgpt/listener/AbstractStreamListener.java:79-103 | A failure never reports completion and cancels the event source exactly once. |
| `StreamListener.RunCounts` | src/main/java/com/plexpt/chatgpt/listener/AbstractStreamListener.java:57-102 | Completions added equal the number of sentinel frames (each sentinel fires again); cancellations added equal the number of failures. |
| `StreamListener.NoSentinelNoCompletion` | src/main/java/com/plexpt/chatgpt/listener/AbstractStreamListener.java:50-60 | A stream without a sentinel frame never reports completion, however it closes. |
| `StreamListener.NoChoicesIgnored` | src/main/java/com/plexpt/chatgpt/listener/AbstractStreamListener.java:64-67 | A frame whose choices are absent or empty changes nothing and reports nothing. |
| `StreamListener.SentinelCompletesWithDelivered` | src/main/java/com/plexpt/chatgpt/listener/AbstractStreamListener.java:57-74 | A sentinel after any notifications of a fresh session appends one completion carrying exactly the concatenated first-choice contents, in frame order. |
| `StreamListener.OnlyFirstChoice` | src/main/java/com/plexpt/chatgpt/listener/AbstractStreamListener.java:68-69 | Choices after the first never reach the transcript or the fragment callback. |
| `StreamListener.TwoFragmentsThenSentinel` | src/main/java/com/plexpt/chatgpt/listener/AbstractStreamListener.java:56-75 | Any two content frames followed by the sentinel report the two texts in order and complete once with their concatenation. |
| `StreamListener.HelloScenario` | src/main/java/com/plexpt/chatgpt/listener/AbstractStreamListener.java:56-75 | Frames "Hel", "lo" and the sentinel report "Hel" then "lo" and complete once with "Hello". |
| `StreamListener.PolicyViolationScenario` | src/main/java/com/plexpt/chatgpt/listener/AbstractStreamListener.java:91-97 | A body containing the policy-violation text still reaches the error callback verbatim, followed by the cancellation. |

## Left out

- JSON decoding of a frame's `data` (line 63) is a library call: a frame arrives already decoded as `Frame`. The `Frame` type cannot express, and the model does not cover, the crashes that malformed input causes in the source: a null `data` (line 57), a decode failure (line 63), a decoder result of null, as for the `data` "null" (line 64), a null first choice (line 68) and a null `delta` (line 69).
- The completion consumer can never be null in the model (`Consumer` has no null case). The generated setter (line 26) accepts null; after `setOnComplete(null)` a `"[DONE]"` frame throws a NullPointerException at line 59 and nothing completes, whereas `Event` and `Listener.OnEvent` always record `Complete`.
- The event `id` and `type` are taken by `Listener.OnEvent` and, as in the source, not consulted.
- Reading the response body (line 86) is reduced to the three cases of `Response`; the `EventSource` is reduced to the `Cancel` effect; the `Response` passed to `onOpen` is not modelled.
- The failure cause is an opaque `Throwable` carrying only a message; it is passed on unchanged.
- Logging (lines 58, 81, 89, 94) has no effect on state or callbacks and is not modelled; the policy-violation test therefore changes nothing in the model, which `PolicyViolationScenario` shows.
- StreamListener.Listener.OnFailure: the source catches `Exception` only; a `java.lang.Error` raised while reading the body or inside the error callback would still cancel the event source and then propagate. The model treats every raised fault as caught. The `@SneakyThrows` plumbing is not modelled.
- StreamListener.Listener.OnEvent: a fault raised by the fragment callback or the completion consumer propagates to the transport in the source; the model records the invocation and returns. Nothing in `onEvent` follows those calls, so the transcript and trace are the same either way.
- The bodies of the caller's callbacks are not modelled; each invocation appears in the trace with its arguments. The callbacks are assumed not to write the listener's state or call back into it: `lastMessage` is `protected` (line 25) and `onMessageReceived` and `onError` (lines 35, 43) are written by subclasses, which could reassign it, call `setOnComplete` or re-enter a handler. "The transcript only grows" (`Run`, `RunTranscript`, `Listener.OnEvent`) and the session invariant hold only under that assumption.
- Threading is not modelled: the transport delivers one notification at a time.
