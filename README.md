# DhruvTara safety companion — a Dafny model of its front-end logic

DhruvTara is a personal-safety web application written in React. Its logic
lives in a few event handlers spread over its pages and components:

- **Dashboard** (`Dashboard`): the route returned by the routing service is
  cut into segments between consecutive points. Each segment gets a colour
  from a random draw: lime costs 0, orange costs 10 and red costs 25 on a
  safety score that starts at 100 and is clamped at 0. The score is shown in
  green, yellow or red. Red segments are dashed. Points are swapped to
  `[lng, lat]` for the routing request and swapped back in the response.
- **Fake call** (`FakeCall`): a ringing screen that the user accepts or
  rejects. An auto-reject timeout ends it if nobody answers. A one-second
  clock runs during the call and is shown as `m:ss`. Holding the button down
  long enough raises an SOS alert.
- **Voice assistant** (`Nimo`): it lower-cases the last recognised transcript.
  For every danger keyword the transcript contains, it raises the emergency:
  an alert, a recording request, and one SMS window per stored contact.
- **SMS fan-out** (`Contacts`, `Home`, `SosButton`): given the profile kept in
  local storage, one `sms:<number>?body=<message>` window is opened per
  non-empty contact, in the order contact1, contact2, contact3.
- **Registration** (`Register`): a six-field form, edited one field at a time.
  It is stored as the profile only when all three contacts are filled in. The
  input types and placeholders come from the field names.
- **Safety toggle** (`SafetyToggle`): a switch that navigates to the monitor
  page only when it is turned on.

The browser is the `Platform.Browser` class. Its `userData` field is the
stored profile, or `None` when nothing is stored. Its `log` field lists every
alert, opened window, navigation and recording request, oldest first.
Components whose handlers change React state in place are classes:
`FakeCall.FakeCallWidget`, `Register.RegisterPage`, `Home.HomePage` and
`SafetyToggle.Toggle`. Their methods' postconditions give the new state.
The pure rules are functions, and lemmas prove their properties.

Every `Math.random()` the dashboard draws is an explicit input. There is one
sequence of draws for the segment colours, one for the incident counts and
one for the heat intensities. Each timer has an id, as `setTimeout` and
`setInterval` hand them out. A timer firing is an explicit event, and a
handler can only clear the timer its ref points to.

`FakeCall.Enabled` states which events the page allows. The ringing and
call screens cover the page for the pointer, so the long press cannot start
under them. Accept and reject exist only while ringing. "End call" exists
only during a call. Timers can fire at any time. The fake-call button stays
in the page and focusable under the screens, so a keyboard or assistive
activation can click it at any time.

`FakeCall.RunKeepsSane` holds for every sequence of events. The phone shakes
exactly while ringing, and the ringing screen always has its auto-reject
pending. A call always has its clock running. The stronger invariant
`FakeCall.Consistent` holds only when the fake-call button is clicked while
uncovered (`FakeCall.PointerAdmissible`). In that case
`FakeCall.RunKeepsConsistent` shows that the page never rings and calls at
once. The auto-reject is then scheduled exactly while ringing, and the clock
runs exactly during a call. A click on the covered button breaks this; see
"## Findings".

The long press is not tied to the duration the button is held. The mouse-up
clears only the timer that the ref holds at that moment. A second press
before release overwrites the ref, and a release away from the button sends
no mouse-up. In either case an earlier long-press timer stays scheduled and
raises the SOS alert after the user has let go
(src/components/FakeCall.jsx:71-79). The model keeps this behaviour, and
`FakeCall.EarlierPressOutlivesRelease` exhibits it.

The scoring in the code is the random-draw variant described above. There is
no region lookup or per-region incident table in these files, and this model
has none either.

## Model

| member | source | states |
|---|---|---|
| `Dashboard.GenerateSegments` | src/pages/Dashboard.jsx:135-168 | n points give max(n−1, 0) segments; segment i joins points i and i+1 with the colour and incident count drawn for it; the score is `Score` of the segments, the running 100 − Σ penalties clamped at 0; the heat points are `HeatPoints` |
| `Dashboard.Score` | src/pages/Dashboard.jsx:163 | the score always lies in [0, 100] and equals 100 − total penalty unless that is negative, when it is 0 |
| `Dashboard.BandMonotone` | src/pages/Dashboard.jsx:142-152 | a larger draw never gives a cheaper colour (lime ≤ 0.6 < orange ≤ 0.85 < red) |
| `Dashboard.Incidents` | src/pages/Dashboard.jsx:159 | floor(draw·30) lies in [0, 29] for every draw in [0, 1) |
| `Dashboard.HeatPoints` | src/pages/Dashboard.jsx:166 | one heat point per route point, keeping its latitude and longitude, with its own draw as intensity |
| `Dashboard.AllLimeScoresFull` | src/pages/Dashboard.jsx:136-163 | a route whose segments are all lime scores exactly 100 |
| `Dashboard.AppendNeverRaises` | src/pages/Dashboard.jsx:154 | one more segment never raises the score; a non-lime one lowers any positive score |
| `Dashboard.TotalRiskByColour` | src/pages/Dashboard.jsx:143-154 | the total penalty is 10 per orange segment plus 25 per red one |
| `Dashboard.ThreeRedsShowRed` | src/pages/Dashboard.jsx:226-230 | three red segments bring the score to at most 25, shown in red |
| `Dashboard.FewOrangesShowGreen` | src/pages/Dashboard.jsx:226-230 | no red and at most two orange segments keep the score at 80 or more, shown in green |
| `Dashboard.DashedIffHighDraw` | src/pages/Dashboard.jsx:272 | a segment is dashed exactly when its draw exceeds 0.85, i.e. exactly when it is red |
| `Dashboard.SwapRoundTrip` | src/pages/Dashboard.jsx:104-116 | swapping to `[lng, lat]` and back is the identity; a geometry that echoes the request gives back start and end |
| `FakeCall.StartFakeCall` | src/components/FakeCall.jsx:29-42 | ringing and shaking start, `inCall` and `seconds` are unchanged, and a fresh auto-reject timeout is scheduled and held by its ref |
| `FakeCall.PickCall` | src/components/FakeCall.jsx:44-56 | the auto-reject is cancelled, ringing and shaking stop, the call starts with `seconds` unchanged, and a fresh clock interval runs |
| `FakeCall.EndCall` | src/components/FakeCall.jsx:58-69 | the auto-reject and the clock are cancelled and the four state fields return to false, false, 0, false; long-press timers are untouched |
| `FakeCall.IntervalFires` | src/components/FakeCall.jsx:53-55 | a running interval adds exactly one second; a cleared one changes nothing |
| `FakeCall.TransitionsKeepWhatTheyDoNotSet` | src/components/FakeCall.jsx:29-55 | starting keeps `inCall` and `seconds`, picking keeps `seconds`, and the first tick of the clock that picking starts adds one second |
| `FakeCall.EndCallResetsAndIsIdempotent` | src/components/FakeCall.jsx:58-69 | `endCall` restores the initial field values from any state, and a second `endCall` changes nothing |
| `FakeCall.AutoRejectIsEndCall` | src/components/FakeCall.jsx:39-41 | the scheduled auto-reject does exactly what `endCall` does |
| `FakeCall.LongPressFiresUnlessReleased` | src/components/FakeCall.jsx:71-79 | the SOS alert comes when the long-press timer fires before release, and never after release cleared it |
| `FakeCall.EarlierPressOutlivesRelease` | src/components/FakeCall.jsx:71-79 | after two presses and one release, the first press's timer still raises the alert while the second's does not |
| `FakeCall.RunKeepsSane` | src/components/FakeCall.jsx:29-56 | every sequence of events, keyboard clicks on the covered button included, keeps shaking equal to ringing, an auto-reject pending while ringing, and a clock running during a call |
| `FakeCall.ApplyKeepsConsistent` | src/components/FakeCall.jsx:104-158 | every event the page allows, other than a click on the covered fake-call button, keeps ringing, shaking, the auto-reject, the clock and the call screen consistent |
| `FakeCall.RunKeepsConsistent` | src/components/FakeCall.jsx:104-158 | any allowed sequence of pointer clicks, presses and timer firings keeps the page consistent |
| `FakeCall.ReachableStatesBehave` | src/components/FakeCall.jsx:39-56 | in every state reached by pointer the auto-reject cannot end an accepted call, the clock never ticks outside a call, and each call starts at 0 seconds |
| `FakeCall.RestartLeaksAutoReject` | src/components/FakeCall.jsx:29-45 | after two starts and an accept, the first auto-reject is still scheduled and ends the accepted call; unmounting while ringing leaves it scheduled |
| `FakeCall.RestartDuringCallLeaksClock` | src/components/FakeCall.jsx:29-60 | a start during a call rings over the call; after a second accept and the end of the call, the first clock still ticks outside any call |
| `FakeCall.GuardedStartFakeCall` | src/components/FakeCall.jsx:29-42 | the guarded start does nothing while ringing or in a call, and otherwise starts the call as `startFakeCall` does |
| `FakeCall.GuardedRunKeepsConsistent` | src/components/FakeCall.jsx:104-158 | with the guarded start, every sequence of events the page allows, keyboard clicks included, keeps the page consistent |
| `FakeCall.UnmountLeavesNoCallTimer` | src/components/FakeCall.jsx:18-27 | after the unmount cleanup of a page used by pointer, no auto-reject and no clock interval remains |
| `FakeCall.FormatTimeShape` | src/components/FakeCall.jsx:81-85 | the clock reads `m:ss`: the digits before the colon are seconds div 60, the two after it seconds mod 60 |
| `FakeCall.FormatTimeRoundTrip` | src/components/FakeCall.jsx:81-85 | reading the clock back gives minutes·60 + seconds = the elapsed seconds |
| `FakeCall.FormatTimeInjective` | src/components/FakeCall.jsx:81-85 | different durations are shown as different clocks |
| `FakeCall.FakeCallWidget.constructor` | src/components/FakeCall.jsx:7-15 | the component starts not ringing, not in a call, at 0 seconds, not shaking, with no timer |
| `FakeCall.FakeCallWidget.HandleStartFakeCall` | src/components/FakeCall.jsx:29-42 | the state becomes `StartFakeCall` of the old state |
| `FakeCall.FakeCallWidget.HandlePickCall` | src/components/FakeCall.jsx:44-56 | the state becomes `PickCall` of the old state |
| `FakeCall.FakeCallWidget.HandleEndCall` | src/components/FakeCall.jsx:58-69 | the state becomes `EndCall` of the old state |
| `FakeCall.FakeCallWidget.OnAutoReject` | src/components/FakeCall.jsx:39-41 | a still-scheduled auto-reject runs `endCall`; any other id changes nothing |
| `FakeCall.FakeCallWidget.OnTick` | src/components/FakeCall.jsx:53-55 | a running interval adds one second |
| `FakeCall.FakeCallWidget.HandleMouseDown` | src/components/FakeCall.jsx:71-75 | a fresh long-press timer is scheduled and held by its ref |
| `FakeCall.FakeCallWidget.HandleMouseUp` | src/components/FakeCall.jsx:77-79 | the long-press timer the ref holds is cancelled |
| `FakeCall.FakeCallWidget.OnLongPress` | src/components/FakeCall.jsx:72-74 | a still-scheduled long press appends the SOS alert to the log; otherwise nothing happens |
| `FakeCall.FakeCallWidget.Cleanup` | src/components/FakeCall.jsx:18-27 | the three timers the refs hold are cancelled |
| `Text.ToLower` | src/components/Nimo.jsx:69 | lower-casing keeps the length, leaves no upper-case letter, keeps every other character, and each upper-case letter becomes the lower-case letter that upper-cases back to it |
| `Text.Includes` | src/components/Nimo.jsx:74 | `s.includes(w)` holds exactly when `w` occurs in `s` at some position |
| `Nimo.Heard` | src/components/Nimo.jsx:68-69 | the examined transcript has the last result's length and holds no upper-case letter |
| `Nimo.OnlyLastResultCounts` | src/components/Nimo.jsx:68-69 | two result lists that end with the same result match the same keywords, whatever came before |
| `Nimo.EarlierKeywordIgnored` | src/components/Nimo.jsx:68-69 | "help me" in an earlier result followed by "hello" raises no emergency |
| `Nimo.TriggerEmergency` | src/components/Nimo.jsx:32-51 | the log gains the danger alert and the recording request, then, only when a profile is stored, one SMS window per non-empty contact |
| `Nimo.OnResult` | src/components/Nimo.jsx:67-78 | the log gains one complete emergency per keyword contained in the lower-cased last transcript |
| `Nimo.ScanForKeywords` | src/components/Nimo.jsx:73-77 | the log gains one emergency block per keyword of the list that the transcript contains |
| `Nimo.MatchesCount` | src/components/Nimo.jsx:73-77 | over a keyword list without repeats, the number of emergencies is the number of different keywords the transcript contains |
| `Nimo.EmergencyPerKeywordHeard` | src/components/Nimo.jsx:73-77 | for the four danger keywords, the number of emergencies is the number of different keywords heard |
| `Nimo.MatchesExactly` | src/components/Nimo.jsx:73-77 | a keyword triggers exactly when it is in the fixed list and occurs in the transcript |
| `Nimo.RepeatLength` | src/components/Nimo.jsx:73-77 | k matched keywords give k whole emergency blocks, the first one complete |
| `Nimo.NoKeywordNoEmergency` | src/components/Nimo.jsx:73-77 | a transcript holding none of the keywords triggers nothing |
| `Nimo.KeywordAnywhereAnyCase` | src/components/Nimo.jsx:68-77 | a keyword spoken in any letter case, anywhere, even inside a longer word, triggers |
| `Contacts.ContactList` | src/components/Nimo.jsx:44 | the contacts are listed as exactly three numbers |
| `Contacts.OpenSmsLinks` | src/pages/Home.jsx:40-46 | the `forEach` appends exactly `SmsEffects` of the numbers to the log |
| `Contacts.SmsEffectsOpenNonEmpty` | src/components/SOSButton.jsx:18-24 | one window per non-empty number, in order, each `sms:<number>?body=<body>` with the same body; empty numbers are skipped |
| `Contacts.ProfileLinksInOrder` | src/components/Nimo.jsx:44-50 | the windows follow contact1, contact2, contact3 |
| `Contacts.SmsUrlRoundTrip` | src/components/SOSButton.jsx:22 | the number and body are read back from the link when the number has no '?' |
| `Home.HandleSOS` | src/pages/Home.jsx:28-49 | the log gains `SosEffects` of the stored profile |
| `Home.SosWithoutProfile` | src/pages/Home.jsx:29-34 | with nothing stored: only the "No emergency contacts found." alert, no SMS window |
| `Home.SosWithProfile` | src/pages/Home.jsx:36-48 | with a profile: one window per non-empty contact with the fixed body, then the success alert, even when all contacts are empty |
| `Home.HomePage.constructor` | src/pages/Home.jsx:7 | no travel mode is selected at first |
| `Home.HomePage.HandleModeSelect` | src/pages/Home.jsx:19-25 | the mode becomes the chosen item, exactly that item's button is highlighted, and navigation to /dashboard is scheduled after 1500 ms |
| `SosButton.HandleSOS` | src/components/SOSButton.jsx:6-25 | the log gains `SosEffects` of the stored profile |
| `SosButton.SosWithoutProfile` | src/components/SOSButton.jsx:9-12 | with nothing stored: only the "No emergency contacts found!" alert |
| `SosButton.SosWithProfile` | src/components/SOSButton.jsx:14-24 | with a profile: one window per non-empty contact, in order, with the fixed body, and nothing else, so no success alert |
| `Register.Set` | src/pages/Register.jsx:18-20 | the edited field takes the new value and every other field keeps its value |
| `Register.SetCommutesLastWins` | src/pages/Register.jsx:18-20 | edits to different fields commute, and the last edit of a field wins |
| `Register.RegisterPage.constructor` | src/pages/Register.jsx:9-16 | the form starts with all six fields empty |
| `Register.RegisterPage.HandleChange` | src/pages/Register.jsx:18-20 | the form becomes `Set` of the old form |
| `Register.RegisterPage.HandleRegister` | src/pages/Register.jsx:22-32 | with any contact empty: the refusal alert, nothing stored, no navigation; with all three contacts set, whatever name, email and password are: the form is stored, the success alert, navigation to /home |
| `Register.ContactFieldNames` | src/pages/Register.jsx:48-64 | exactly the three contact field names contain "contact" |
| `Register.InputTypes` | src/pages/Register.jsx:52-58 | the password field is "password", contact fields are "tel", the others "text" |
| `Register.Placeholders` | src/pages/Register.jsx:60-64 | "Emergency Contact k" for the k-th contact, otherwise the capitalised field name |
| `Register.PlaceholdersDistinct` | src/pages/Register.jsx:60-64 | no two of the six rendered inputs share a placeholder |
| `SafetyToggle.LabelMatchesBackground` | src/components/SafetyToggle.jsx:24-34 | "Safety Mode ON" shows exactly when enabled, and exactly when the colour is green |
| `SafetyToggle.Toggle.constructor` | src/components/SafetyToggle.jsx:5 | safety mode starts off |
| `SafetyToggle.Toggle.HandleToggle` | src/components/SafetyToggle.jsx:8-15 | the mode flips; the log gains navigation to /monitor exactly when the new mode is on |
| `SafetyToggle.ToggleTwice` | src/components/SafetyToggle.jsx:8-15 | two toggles restore the mode and navigate exactly once |

## Left out

- `FakeCall.ApplyKeepsConsistent`: excludes a click on the fake-call button while the ringing or call screen covers it. The source accepts that click by keyboard, and `FakeCall.RestartLeaksAutoReject` and `FakeCall.RestartDuringCallLeaksClock` show what follows.
- `FakeCall.RunKeepsConsistent`: holds only for runs that click the fake-call button while uncovered. `FakeCall.RunKeepsSane` covers every run.
- `FakeCall.ReachableStatesBehave`: holds only for states reached that way. With a repeated start, the first auto-reject ends an accepted call, and a leaked clock ticks outside the call (`FakeCall.RestartLeaksAutoReject`, `FakeCall.RestartDuringCallLeaksClock`).
- `FakeCall.UnmountLeavesNoCallTimer`: holds only for runs without a repeated start. After one, the leaked first auto-reject survives the cleanup (`FakeCall.RestartLeaksAutoReject`).
- `Dashboard.Incidents`: draws are exact reals. The double rounding of `Math.random() * 30` is not modelled: for the double printed as 0.3, JavaScript gives 9 and the model 8. The bound [0, 29] holds either way.

- Network requests are not modelled: the place search, the route request and the police-station query (src/pages/Dashboard.jsx:76-132, 171-186). The route the service returns is the input `coords`.
- Distance and travel time are not modelled. They are floating-point `toFixed` formatting (src/pages/Dashboard.jsx:118-122).
- Map rendering is not modelled: the map, tiles, markers, heat layer, view centring and the street/terrain switch.
- `Math.random` itself is not modelled. Its draws are inputs, and nothing is said about their distribution.
- Geolocation, speech synthesis, speech recognition set-up and `MediaRecorder` are browser APIs and are not modelled. Recording appears only as the `StartRecording` entry in the log, and the "Heard:" console line is dropped.
- Ringtone, video and vibration in the fake call are media side effects and are not modelled.
- Timer delays are not simulated: 20000 ms for the auto-reject, 1000 ms for the clock, 2000 ms for the long press. Firing is an event that the environment may send at any time. The home page's 1500 ms delay is recorded in the `NavigateAfter` entry and never fires in the model.
- `alert`, `window.open`, `navigate` and local storage are entries in `Browser.log` and the `Browser.userData` field, not real effects. The JSON encoding of the stored profile is not modelled: the stored value is the form itself.
- `encodeURIComponent` is not modelled. Each message body is its already-encoded constant.
- `Text.ToLower`: maps only the ASCII letters A-Z, unlike JavaScript's full Unicode `toLowerCase`. `Text.UpperFirst` is limited the same way.
- `Register.RegisterPage.HandleChange`: takes the field as one of the six `Field` values rather than an arbitrary input name, because the page renders only those six inputs.
- `Nimo.OnResult`: requires at least one recognition result, which every `onresult` event delivers.
- The static pages (Login, TravelMode, Monitor, Navbar, SOS) hold no logic beyond markup and one alert, and are not part of this model. Animations and styling are not modelled either.

## Findings

| source | as written | input that shows it | evidently intended | confidence | as-written member | corrected member |
|---|---|---|---|---|---|---|
| src/components/FakeCall.jsx:29-45 | `startFakeCall` overwrites `autoRejectRef`, and `pickCall` clears only the timeout the ref holds; the fake-call button stays focusable under the ringing screen | click Fake Call, press Enter on the still-focused button, accept: the first auto-reject ends the accepted call | the button does nothing while a screen covers it, so one auto-reject exists at a time | medium, not executed | `FakeCall.RestartLeaksAutoReject` | `FakeCall.GuardedRunKeepsConsistent` |
| src/components/FakeCall.jsx:29-60 | `startFakeCall` works during a call, and `pickCall` overwrites `timerRef`; `endCall` clears only the interval the ref holds | click Fake Call, accept, press Enter on the button, accept, end the call: the first clock keeps ticking, so the next call does not start at 0:00 | the button does nothing during a call, so one clock runs at a time | medium, not executed | `FakeCall.RestartDuringCallLeaksClock` | `FakeCall.GuardedRunKeepsConsistent` |

The page model (`FakeCall.Apply` and `FakeCall.FakeCallWidget`) keeps the
start as written. The corrected start, `FakeCall.GuardedStartFakeCall`, is
used by `FakeCall.GuardedApply` and `FakeCall.GuardedRun`, for which
consistency is proved on every admissible run.
