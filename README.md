# snowQuest: chat session, chat panel and player controller

This project models three pieces of the snowQuest game's logic and proves properties about them:

- **The Santa chat hook** (`useChatbot`).
  - `sendMessage` ignores blank input.
  - Otherwise it records the user's message, untrimmed, and shows it as loading.
  - It answers from two canned rules, matched on the lower-cased, trimmed text.
  - When neither rule matches, it awaits an external text generator and maps the generator's failures to three fixed fallback texts.
  - Finally it appends the assistant's answer, shows it as playing, and schedules a timer. The timer returns the status to idle after `min(length * 60, 8000)` ms.
- **The chat panel** (`ChatUI`).
  - It renders nothing without a chat hook or when closed.
  - It shows the last two transcript entries.
  - Enter without Shift, or the send button, sends the trimmed input and clears the field. The button is disabled while loading; Enter is not.
- **The player controller** (`Player`).
  - A key map and a `canJump` latch.
  - Space jumps once per latch.
  - A per-frame ground check re-arms the latch below height 1.1.
  - A per-frame movement step steers x and z from W/A/S/D at speed 3, or 6 with ShiftLeft, and keeps the vertical velocity.

The modules:

- `JsString` (`js_string.dfy`) holds the JavaScript string operations the hook relies on.
  - `trim` uses the full ECMAScript white-space and line-terminator set.
  - `toLowerCase` is modelled for ASCII.
  - `includes` is substring search.
  - `length` counts UTF-16 code units, so the math answer's emoji counts twice.
- `Chatbot` (`chatbot.dfy`) holds the hook.
  - The class `ChatSession` has the hook's state: `messages`, `isLoading` and `status`.
  - It also tracks the generator calls still pending and the idle timers still scheduled.
  - `sendMessage` is split at its one `await`:
    - `BeginSend` is the synchronous part. When a canned rule answers, it is the whole call.
    - `CompleteSend(k, outcome)` is the continuation once pending call `k` settles, with `Success(text)` or `Failure(errMessage)`.
  - `TimerFire(k)` is the idle timer `k` running.
  - The class invariant `Valid` says three things:
    - every user entry is answered, still awaited, or abandoned;
    - 'loading' implies `isLoading`;
    - 'playing' has a timer pending that will end it.
- `ChatPanel` (`chat_ui.dfy`) holds the panel: the view as pure functions and the input field as the class `ChatInput`.
- `PlayerControl` (`player.dfy`) holds the player. Velocities are triples of reals. The normalisation and the camera rotation are function parameters of the movement frame.

Behaviours of the code that the model keeps:

- The hook has no re-entrancy guard. A second send while the first is awaited is accepted. The first answer then clears `isLoading` while the second call is still pending (`AnswerWhileAwaiting`).
- An earlier answer's idle timer sets the status to 'idle' even while a later send is loading (`IdleWhileLoading`). The Enter key sends while loading (`EnterWhileLoading`).
- The key handler does not check for auto-repeat, so holding Space jumps again after any frame on the ground (`HeldSpaceJumpsAgain`). Space pressed before the body mounts uses up the latch (`JumpBeforeMount`).
- When the thrown error has no string `message`, the catch block itself throws. The user entry then never gets an answer and the session stays loading. The model counts such sends in a ghost counter, `abandoned`.
- The hook also has no streaming, no error status and no reset, and its idle timers carry no version. The player has no ray-cast ground check. The model adds none of these.

## Model

| member | source | states |
|---|---|---|
| `JsString.Trim` | snowQuest/src/hooks/useChatbot.jsx:19 | `trim()` is empty exactly when every code point is ECMAScript white space; a non-empty result neither starts nor ends with white space and is no longer than the input |
| `JsString.TrimSplit` | snowQuest/src/hooks/useChatbot.jsx:25 | every string is its leading white space, then `trim()` of it, then its trailing white space |
| `JsString.TrimIdempotent` | snowQuest/src/components/startpage/chatUI.jsx:15-16 | trimming an already trimmed string changes nothing |
| `JsString.Lower` | snowQuest/src/hooks/useChatbot.jsx:25 | the ASCII-only case mapping keeps the length; its per-character effect is stated by `JsString.LowerShape` |
| `JsString.LowerShape` | snowQuest/src/hooks/useChatbot.jsx:25 | after `toLowerCase()` every ASCII capital is its own small letter (code point + 32), no capital remains, and every other code point is kept in place |
| `JsString.Contains` | snowQuest/src/hooks/useChatbot.jsx:29-31 | `includes`, as a scan from the front; no contract of its own, `JsString.ContainsIff` specifies it |
| `JsString.ContainsIff` | snowQuest/src/hooks/useChatbot.jsx:29-31 | `includes(p)` is true exactly when `p` occurs at some position |
| `JsString.ContainsTrim` | snowQuest/src/hooks/useChatbot.jsx:25-31 | for a pattern with non-space ends, `includes` gives the same answer before and after `trim()` |
| `JsString.Utf16Length` | snowQuest/src/hooks/useChatbot.jsx:60 | `length` is between the number of code points and twice that, and equals it exactly when no code point is outside the Basic Multilingual Plane |
| `JsString.Utf16LengthAppend` | snowQuest/src/hooks/useChatbot.jsx:60 | the UTF-16 length of a concatenation is the sum of the lengths |
| `Chatbot.FirstMatch` | snowQuest/src/hooks/useChatbot.jsx:29-33 | an ordered rule table answers with the reply of the first rule whose pattern occurs, and answers nothing exactly when no pattern occurs |
| `Chatbot.Key` | snowQuest/src/hooks/useChatbot.jsx:25 | `message.toLowerCase().trim()`; no contract of its own, `Chatbot.CannedReplyIgnoresSpace`, `JsString.LowerShape` and `JsString.Trim` specify it |
| `Chatbot.CannedReply` | snowQuest/src/hooks/useChatbot.jsx:29-33 | the canned if-chain; no contract of its own, `Chatbot.CannedReplyIsFirstMatch` specifies it |
| `Chatbot.CannedReplyIsFirstMatch` | snowQuest/src/hooks/useChatbot.jsx:29-33 | the canned if-chain is the rule table ('17 divided by 5' then 'glasses') read top-down |
| `Chatbot.MathBeatsGlasses` | snowQuest/src/hooks/useChatbot.jsx:29-32 | text containing both '17 divided by 5' and 'glasses' gets the math answer, which differs from the glasses answer |
| `Chatbot.CannedReplyIgnoresSpace` | snowQuest/src/hooks/useChatbot.jsx:25 | trimming the lower-cased message never changes which canned answer is chosen |
| `Chatbot.FallbackReply` | snowQuest/src/hooks/useChatbot.jsx:44-50 | no fallback text for a generator failure is one of the two canned answers |
| `Chatbot.FallbackIsFirstMatch` | snowQuest/src/hooks/useChatbot.jsx:44-50 | error classification is the table '429' then '404' read top-down, with the wifi text as the catch-all |
| `Chatbot.Classify` | snowQuest/src/hooks/useChatbot.jsx:44-50 | the failure class of an error message; no contract of its own, `Chatbot.FallbackIsFirstMatch` and `Chatbot.ResponseFor` specify it |
| `Chatbot.ResponseFor` | snowQuest/src/hooks/useChatbot.jsx:36-51 | a successful call answers with the generated text. A failure whose message contains '429' answers with the rate-limit text, both ways. Otherwise '404' selects the model-not-found text, both ways. The wifi text is given exactly when neither occurs. There is no answer exactly when the thrown value has no message |
| `Chatbot.IdleDelay` | snowQuest/src/hooks/useChatbot.jsx:60 | the idle delay never exceeds 8000 ms, never exceeds 60 ms per UTF-16 unit, and is exactly 60 ms per unit below the cap |
| `Chatbot.IdleDelayMonotonic` | snowQuest/src/hooks/useChatbot.jsx:60 | a longer answer is never followed by a shorter idle delay |
| `Chatbot.CountAppend` | snowQuest/src/hooks/useChatbot.jsx:23 | appending one entry adds one to the count of its role and nothing to the other |
| `Chatbot.ChatSession.constructor` | snowQuest/src/hooks/useChatbot.jsx:5-7 | a new session has an empty transcript, is not loading and is idle |
| `Chatbot.ChatSession.BeginSend` | snowQuest/src/hooks/useChatbot.jsx:18-38 | blank input changes nothing. Otherwise the untrimmed message is appended. A canned match then also appends its answer, stops loading, plays and schedules the idle timer. With no match, the session is left loading with the untrimmed message handed to the generator. The invariant is kept |
| `Chatbot.ChatSession.Ask` | snowQuest/src/hooks/useChatbot.jsx:21-23 | a non-empty send appends exactly the user's entry, sets loading, and adds one user entry to the count |
| `Chatbot.ChatSession.CompleteSend` | snowQuest/src/hooks/useChatbot.jsx:36-60 | the settled call leaves the pending list. With an answer, exactly one assistant entry is appended, the status is 'playing', loading stops and its timer is scheduled. Without one, nothing else changes and the send counts as abandoned. The invariant is kept |
| `Chatbot.ChatSession.Answer` | snowQuest/src/hooks/useChatbot.jsx:55-60 | one assistant entry is appended, status 'playing', not loading, and a timer with the idle delay of that answer is scheduled |
| `Chatbot.ChatSession.TimerFire` | snowQuest/src/hooks/useChatbot.jsx:60 | a firing idle timer sets the status to 'idle' whatever it was, and changes nothing else |
| `Chatbot.AnswerWhileAwaiting` | snowQuest/src/hooks/useChatbot.jsx:18-61 | two overlapping sends are both accepted; the first answer lands after the second question and clears `isLoading` while the second call is pending |
| `Chatbot.IdleWhileLoading` | snowQuest/src/hooks/useChatbot.jsx:60 | an earlier answer's timer sets 'idle' while a later send is loading |
| `ChatPanel.SliceStart` | snowQuest/src/components/startpage/chatUI.jsx:28 | `slice(start)` never starts past the end of the array |
| `ChatPanel.LastTwo` | snowQuest/src/components/startpage/chatUI.jsx:28 | `messages.slice(-2)` for an array, `[]` otherwise; no contract of its own, `ChatPanel.LastTwoSpec` specifies it |
| `ChatPanel.LastTwoSpec` | snowQuest/src/components/startpage/chatUI.jsx:28 | the view is the last `min(2, n)` entries in their order, and empty for a non-array |
| `ChatPanel.LastTwoAppend` | snowQuest/src/components/startpage/chatUI.jsx:28 | after an append the view is the previous last entry, if any, followed by the new one |
| `ChatPanel.Render` | snowQuest/src/components/startpage/chatUI.jsx:10 | nothing is rendered exactly when the hook is missing or the panel is closed; otherwise it shows the last two entries and a send button enabled exactly when not loading |
| `ChatPanel.ChatInput.constructor` | snowQuest/src/components/startpage/chatUI.jsx:8 | the field starts empty |
| `ChatPanel.ChatInput.Change` | snowQuest/src/components/startpage/chatUI.jsx:166 | typing replaces the input |
| `ChatPanel.ChatInput.HandleSend` | snowQuest/src/components/startpage/chatUI.jsx:14-19 | whitespace-only input sends nothing and keeps the field. Otherwise the trimmed input goes through `sendMessage` and the field is cleared |
| `ChatPanel.ChatInput.HandleKeyDown` | snowQuest/src/components/startpage/chatUI.jsx:21-26 | Enter without Shift, and only that key, prevents the default and does exactly what `handleSend` does; any other key changes nothing |
| `ChatPanel.ChatInput.ClickSend` | snowQuest/src/components/startpage/chatUI.jsx:182-183 | a click while loading does nothing; otherwise it does exactly what `handleSend` does |
| `ChatPanel.PanelSendsTrimmed` | snowQuest/src/components/startpage/chatUI.jsx:16 | what the panel sends is non-blank and already trimmed, so the hook's own blank check passes |
| `ChatPanel.EnterWhileLoading` | snowQuest/src/components/startpage/chatUI.jsx:21-25 | Enter sends even while the session is loading, and the second call is pending beside the first |
| `PlayerControl.Steer` | snowQuest/src/App.jsx:56-61 | the pre-rotation direction has y = 0 and x, z each in {-1, 0, 1} |
| `PlayerControl.SteerAxes` | snowQuest/src/App.jsx:56-61 | z is -1 exactly for W without S and 1 exactly for S without W; x is -1 exactly for A without D and 1 exactly for D without A |
| `PlayerControl.SteerZeroIff` | snowQuest/src/App.jsx:56-61 | the direction is zero exactly when each pair of opposing keys is both held or both released |
| `PlayerControl.SteerLength` | snowQuest/src/App.jsx:63 | `length() > 0` holds for a steering direction exactly when it is not zero |
| `PlayerControl.StandingStill` | snowQuest/src/App.jsx:63-65 | with no effective movement key the direction stays the zero vector and is not normalised |
| `PlayerControl.Heading` | snowQuest/src/App.jsx:63-65 | the direction after the conditional `normalize()`; no contract of its own, `PlayerControl.StandingStill` and `PlayerControl.MovingNormalised` specify it |
| `PlayerControl.MovingNormalised` | snowQuest/src/App.jsx:63-65 | with an effective movement key the direction is normalised |
| `PlayerControl.Speed` | snowQuest/src/App.jsx:67 | the speed is 6 exactly when ShiftLeft is held and 3 exactly when it is not |
| `PlayerControl.FrameVelocity` | snowQuest/src/App.jsx:67-78 | the velocity a movement frame writes keeps the current y |
| `PlayerControl.FrameKeepsVertical` | snowQuest/src/App.jsx:68-78 | standing still writes zero horizontal velocity and keeps y, for any rotation that keeps zero at zero |
| `PlayerControl.Player.constructor` | snowQuest/src/App.jsx:11-12 | the key map starts empty and the latch armed |
| `PlayerControl.Player.Mount` | snowQuest/src/App.jsx:87 | mounting sets the body, with its velocity, and leaves the key map and the latch as they were |
| `PlayerControl.Player.KeyDown` | snowQuest/src/App.jsx:15-27 | the key is marked held and no other entry changes. Space with the latch armed disarms it and, with a mounted body, sets y velocity to 8 keeping x and z. Otherwise latch and velocity stay |
| `PlayerControl.Player.KeyUp` | snowQuest/src/App.jsx:29-31 | the key is marked released; no other entry, the latch and the velocity stay |
| `PlayerControl.Player.GroundFrame` | snowQuest/src/App.jsx:43-51 | with a mounted body below height 1.1 the latch is re-armed; otherwise it stays; nothing else changes |
| `PlayerControl.Player.MoveFrame` | snowQuest/src/App.jsx:53-79 | with a mounted body the velocity becomes the rotated, normalised, speed-scaled steering direction in x and z with y kept; without one nothing changes |
| `PlayerControl.NoDoubleJump` | snowQuest/src/App.jsx:17-25 | after a jump, a physics step and a frame in the air, a second Space leaves the velocity exactly as the physics step set it and the latch disarmed |
| `PlayerControl.JumpBeforeMount` | snowQuest/src/App.jsx:17-25 | Space before the body mounts uses up the latch without an impulse: after mounting, a second Space leaves the mounted body's velocity unchanged and the latch disarmed |
| `PlayerControl.HeldSpaceJumpsAgain` | snowQuest/src/App.jsx:15-26 | the handler ignores auto-repeat: after a frame below the ground level, a repeated Space jumps again, setting y to 8 over whatever velocity the physics step left |

## Left out

- The external generator is not modelled. It is Google's generative-AI SDK, a network call, together with the model set-up and the API key. Its result is the `Outcome` handed to `CompleteSend`.
- Real time is not modelled. `setTimeout` and the `await` become pending events that the caller fires in any order (`TimerFire(k)`, `CompleteSend(k, …)`), with no clock.
- `Chatbot.ChatSession.TimerFire`: timers may fire in any order, not in the order of their delays.
- Logging is left out: `console.error` and `console.log`.
- `Chatbot.ChatSession.BeginSend`: React state updates are treated as applied at once, in program order. React's batching and re-rendering are not modelled.
- `PlayerControl.Player.KeyDown`: the same assumption covers the key handler reading `canJump` from the render that registered it. Two key-downs between re-renders are not modelled.
- `JsString.Lower`: case mapping is ASCII-only, so the length is kept; outside ASCII `toLowerCase` can change the length (U+0130 becomes two code points). Neither canned pattern is affected.
- `JsString.LowerShape`: `toLowerCase` is modelled for ASCII letters only. Unicode case mapping of other scripts is not modelled; none of the matched patterns needs it.
- `JsString.Utf16Length`: strings are sequences of code points, so lone surrogates cannot be represented.
- `PlayerControl.Player.MoveFrame`: floating-point vector maths is not verified.
  - `normalize` and `applyEuler(camera.rotation)` are parameters.
  - Velocities are exact reals.
  - The rigid body's height is a parameter of `GroundFrame`.
  - Moving the camera to follow the player (App.jsx:81-82) is not modelled.
- Rendering is not modelled: the scene, model loading, lights, the JSX and styling of the chat panel, and the close button.
- snowQuest/src/gamescene.jsx is not part of this model. It repeats the W/A/S/D direction and then integrates a camera position in floating point.
- snowQuest/src/utils/animation.js is not part of this model. It is presentation timing.
- The start page and start button are not part of this model. They are markup only.
- `error` and `clearMessages` in the chat panel are not modelled. The hook never returns them, so they are always absent.
