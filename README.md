# AI interview bot: a verified model of its core rules

This project is a Dafny model of the parts of the AI interview bot (a Next.js
application for mock interviews with a voice AI) that follow precise rules.
It proves properties of each part. The parts are:

- **The transcription client** (`Gpt4oRealtimeClient`), in `realtime_client.dfy`. It covers:
  - configuration resolution, with the first missing value reported;
  - the socket URL, with `http(s)://` rewritten to `wss://` and `api-key` added only when absent;
  - classification of inbound frames into partial, final, error and ignored;
  - the session-configuration frame;
  - the lifecycle of the socket, stream, audio context and worklet fields over `start`, the socket events and `stop`.

  Two helper files go with it:
  - `pcm16.dfy`: the PCM16 clamp-and-scale conversion and the little-endian byte view of an `Int16Array`.
  - `base64.dfy`: base 64 in the form of section 4 of RFC 4648, which is what `btoa` produces.
- **The live interview room** (`LiveInterviewRoom`), in `live_room.dfy`. It is a class whose fields are the component's state cells and refs. Its methods are the effects and handlers:
  - the call clock, and the one-time closing-remarks instruction;
  - the data channel and the audio track;
  - the first-interaction audio unlock and the speaking monitor;
  - ICE terminal states, captions, grading replies, `endCall`, and the setup effect and its cleanup.

  Two pure helpers go with it: `formatTime` and the speaking test.
- **The catalogue endpoint** `/api/interviews`, in `catalogue.dfy`. It picks the first value of a parameter, normalizes the category key, falls back to software, and returns either one role's list or every list of the group. `catalogue_table.dfy` holds a representative table: the software and writing categories, in full.
- **The interviews page**, in `interviews_page.dfy`. It covers:
  - loading and tagging every category;
  - the search filter, and the choice of the first match's category;
  - the normal-fetch guard with its query string;
  - the header text.

  The page's state cells are the fields of a class.
- **The in-memory session store** (`InMemoryDB`), in `session_store.dfy`. It is a map from id to session objects, and those objects are changed in place.
- **The card gradient index**, in `interview_card.dfy` and, for the duplicate in the grid file, `interview_grid.dfy`.
- **The two API handlers**, in `grade_api.dfy` (`/api/grade`) and `session_api.dfy` (`/api/realtime/session`). Each is a function of the request, the environment, the upstream result and the `JSON.parse` outcome.

A set of shared helper files supports the modules above:
- `wrappers.dfy`: `Option`.
- `json.dfy`: parsed JSON values, JavaScript truthiness, and optional-chaining reads.
- `text.dfy`: `trim`, ASCII case, the `\s+` replacement, `includes`, and capitalization.
- `query.dfy`: `URLSearchParams` serialization and parsing.

Browser and network events are inputs, never effects:
- methods take the event's data as parameters;
- the handlers take the upstream reply as a value.

What a component sends or calls is recorded in sequence fields such as `sent`, `log`, `callbacks` and `released`. Contracts state each of those in full.

## Model

| member | source | states |
|---|---|---|
| RealtimeClient.FirstTruthy | src/utils/Gpt4oRealtimeClient.ts:41-43 | `a \|\| b \|\| c` gives a usable (non-empty) value exactly when one of the three sources has one |
| RealtimeClient.Resolve | src/utils/Gpt4oRealtimeClient.ts:41-79 | The endpoint is reported missing exactly when no source gives a non-empty value. With an endpoint, the deployment is reported missing exactly when it is missing; with both, the key is reported missing exactly when it is missing. A resolved configuration carries the three looked-up values, all non-empty. |
| RealtimeClient.EmptyDeploymentOptionIsMissing | src/utils/Gpt4oRealtimeClient.ts:45-72 | With `??`, an empty `deployment` option is not replaced by the environment and is reported missing |
| RealtimeClient.ConfigMessage | src/utils/Gpt4oRealtimeClient.ts:56-79 | Every missing-value error has a non-empty message, the first line of the source's text |
| RealtimeClient.ToWss | src/utils/Gpt4oRealtimeClient.ts:101 | A leading `https://` or `http://` becomes `wss://`; any other endpoint is unchanged |
| RealtimeClient.WithApiKey | src/utils/Gpt4oRealtimeClient.ts:106-109 | Setting the key never changes the part of the URL before `?`. Afterwards the URL always carries an `api-key` parameter, for a key that needs no percent-encoding. |
| RealtimeClient.SocketUrl | src/utils/Gpt4oRealtimeClient.ts:96-109 | A given `wsUrl` keeps its part before `?`. The URL the socket opens always carries an `api-key` parameter, for a key that needs no percent-encoding. |
| RealtimeClient.ExistingKeyKept | src/utils/Gpt4oRealtimeClient.ts:106-109 | A URL whose query already has `api-key` is used unchanged, whatever that key's value |
| RealtimeClient.UrlParts | src/utils/Gpt4oRealtimeClient.ts:106 | A URL made of a base without `?` and a query splits back into that base and the query's parameters |
| RealtimeClient.KeyAppended | src/utils/Gpt4oRealtimeClient.ts:106-109 | Without `api-key`, the URL keeps its base and its parameters, and gains exactly one `api-key` parameter with the key, at the end |
| RealtimeClient.ExtendedParams | src/utils/Gpt4oRealtimeClient.ts:108 | The extended parameter list serializes and parses back to itself |
| RealtimeClient.DefaultSocketUrl | src/utils/Gpt4oRealtimeClient.ts:96-103 | Without `wsUrl`, an `https://` endpoint gives `wss://`, then the host, then `/openai/realtime?api-version=2024-10-01-preview&deployment=` and the deployment |
| RealtimeClient.Dispatch | src/utils/Gpt4oRealtimeClient.ts:292-376 | A frame that is not JSON, or is `null`, causes no callback. Only the two delta types call `onPartial`, only the two final types call `onFinal`, and only `error` calls `onError`. |
| RealtimeClient.KindOf | src/utils/Gpt4oRealtimeClient.ts:297-371 | Only a string `type` selects a handled case, because `switch` compares with `===`. The error case is taken exactly for `"error"`, and the logging-only case exactly for the listed informational types. |
| RealtimeClient.DeltaIsPartial | src/utils/Gpt4oRealtimeClient.ts:314-331 | A frame of either delta type, with any other properties, calls `onPartial` with its `delta` value exactly when that value is truthy, and otherwise calls nothing |
| RealtimeClient.TranscriptIsFinal | src/utils/Gpt4oRealtimeClient.ts:320-337 | A frame of either final type, with any other properties, calls `onFinal` with its `transcript` value exactly when that value is truthy, and otherwise calls nothing |
| RealtimeClient.EmptyTextIsIgnored | src/utils/Gpt4oRealtimeClient.ts:315-334 | A frame object that is not of type `error` and whose `delta` and `transcript` are missing or falsy calls no callback, whatever else it carries |
| RealtimeClient.InformationalIsSilent | src/utils/Gpt4oRealtimeClient.ts:298-359 | A frame of an informational type calls no callback, whatever else it carries |
| RealtimeClient.ErrorFrameMessage | src/utils/Gpt4oRealtimeClient.ts:361-364 | An `error` frame reports `error.message` when that is truthy, and "Unknown server error" otherwise |
| RealtimeClient.SessionConfigFor | src/utils/Gpt4oRealtimeClient.ts:148-171 | The `session.update` frame names the deployment as the transcription model and the prompt as the instructions, with PCM16 audio in both directions and the language `en` |
| RealtimeClient.AudioFrameRoundTrip | src/utils/Gpt4oRealtimeClient.ts:226-274 | The `audio` of an append frame decodes to the PCM16 bytes of the samples, and has length 4·⌈2n/3⌉ |
| RealtimeClient.ArrayBufferToBase64 | src/utils/Gpt4oRealtimeClient.ts:282-289 | The loop that builds the binary string, followed by `btoa`, gives the base 64 encoding of the bytes |
| RealtimeClient.EncodeSamples | src/utils/Gpt4oRealtimeClient.ts:263-270 | Converting a sample buffer and encoding its bytes gives exactly the frame's `audio` |
| RealtimeClient.Client.constructor | src/utils/Gpt4oRealtimeClient.ts:33-35 | A new client keeps its options and holds no socket, stream, context, worklet or session |
| RealtimeClient.Client.Start | src/utils/Gpt4oRealtimeClient.ts:38-133 | With a missing value, exactly one `onError` call with that value's message, and no socket, stream or session change. Otherwise it is what `OpenWith` states: a failed microphone or URL reports its message; success opens a connecting socket at `SocketUrl` and records what its listeners captured. |
| RealtimeClient.Client.OpenWith | src/utils/Gpt4oRealtimeClient.ts:81-133 | A failed microphone reports its message and opens nothing. A URL that cannot be built reports its message and keeps the stream. Otherwise the stream is open, one connecting socket at `SocketUrl` exists, and its listeners capture the deployment, prompt and sample rate (defaults 24000 and the transcription prompt). |
| RealtimeClient.Client.OnOpen | src/utils/Gpt4oRealtimeClient.ts:113-279 | The socket becomes open and exactly one `session.update` frame is sent. A new audio context is made unless creating it fails, in which case the context is left as it was, because the fallback's own attempt fails too. The worklet exists only when registration succeeded. Nothing else changes. |
| RealtimeClient.Client.AudioBuffer | src/utils/Gpt4oRealtimeClient.ts:197-275 | A buffer of samples sends exactly one append frame with its audio when the socket is open, and nothing otherwise |
| RealtimeClient.Client.OnMessage | src/utils/Gpt4oRealtimeClient.ts:119 | The callback list grows by what `Dispatch` gives for the frame, and by nothing else |
| RealtimeClient.Client.OnSocketError | src/utils/Gpt4oRealtimeClient.ts:120-123 | The socket's error event is passed to `onError` |
| RealtimeClient.Client.OnSocketClose | src/utils/Gpt4oRealtimeClient.ts:124-127 | The close event is passed to `onError` with its code and reason, and the socket is closed |
| RealtimeClient.Client.Stop | src/utils/Gpt4oRealtimeClient.ts:136-145 | Every resource that is present is released in the source's order, and all four fields are reset |
| RealtimeClient.StopTwice | src/utils/Gpt4oRealtimeClient.ts:136-145 | A second `stop` releases nothing more: the releases are those of the first call alone |
| Pcm16.Clamp | src/utils/Gpt4oRealtimeClient.ts:199 | `Math.max(-1, Math.min(1, x))` gives NaN exactly for NaN, and otherwise a finite value in [-1, 1] |
| Pcm16.Convert | src/utils/Gpt4oRealtimeClient.ts:199-200 | Every sample becomes a value in the 16-bit range, and NaN becomes 0 |
| Pcm16.Wrap16 | src/utils/Gpt4oRealtimeClient.ts:200 | ToInt16's reduction gives the value in [-32768, 32767] that is congruent to its input modulo 2^16 |
| Pcm16.ConvertNoWrap | src/utils/Gpt4oRealtimeClient.ts:199-200 | A NaN sample gives 0. Otherwise the clamped and scaled sample is finite and is rounded toward zero with no wrap-around, so every value is a 16-bit one. |
| Pcm16.ConvertReferencePoints | src/utils/Gpt4oRealtimeClient.ts:199-200 | 1.0 gives 32767, -1.0 gives -32768 and 0 gives 0; the infinities give the range ends |
| Pcm16.ConvertMonotonic | src/utils/Gpt4oRealtimeClient.ts:199-200 | A larger sample never gives a smaller PCM16 value |
| Pcm16.ConvertAll | src/utils/Gpt4oRealtimeClient.ts:197-201 | The converted buffer has the input's length, and each element is the conversion of the sample at its index |
| Pcm16.LeBytesRoundTrip | src/utils/Gpt4oRealtimeClient.ts:263-270 | The buffer's bytes, read back as signed 16-bit values, give the values |
| Pcm16.FrameBytesRoundTrip | src/utils/Gpt4oRealtimeClient.ts:197-229 | The bytes of a frame, read back, are exactly the converted samples. There are two bytes per sample. |
| Pcm16.ConvertSamples | src/utils/Gpt4oRealtimeClient.ts:197-201 | The loop fills a fresh array of the same length with the converted samples, each a 16-bit value |
| Base64.ValueOfCharOf | src/utils/Gpt4oRealtimeClient.ts:288 | The alphabet of section 4 of RFC 4648 is one-to-one: each 6-bit value's character decodes back to it |
| Base64.OctetsSextets | src/utils/Gpt4oRealtimeClient.ts:288 | The four 6-bit groups of three bytes give the three bytes back |
| Base64.DecodeEncode | src/utils/Gpt4oRealtimeClient.ts:288 | Decoding the encoding of any byte string gives that byte string back |
| Base64.EncodeLength | src/utils/Gpt4oRealtimeClient.ts:288 | The encoding has 4·⌈n/3⌉ characters |
| Base64.Encode | src/utils/Gpt4oRealtimeClient.ts:288 | The encoding is a whole number of four-character quanta, and empty exactly for no bytes |
| Base64.EncodeAlphabet | src/utils/Gpt4oRealtimeClient.ts:288 | Every character of an encoding is in the alphabet or is `=` |
| Base64.Latin1 | src/utils/Gpt4oRealtimeClient.ts:283-287 | The binary string has one character per byte, whose code is that byte |
| Base64.Btoa | src/utils/Gpt4oRealtimeClient.ts:288 | `btoa` succeeds exactly when every character code is below 256 |
| Base64.BtoaLatin1 | src/utils/Gpt4oRealtimeClient.ts:283-288 | `btoa` of the binary string of some bytes is the encoding of those bytes |
| LiveRoom.Decimal | src/components/LiveInterviewRoom.tsx:95 | `toString()` of a natural number is decimal digits: one for n < 10, two for 10 ≤ n < 100 |
| LiveRoom.DecimalValueOfDecimal | src/components/LiveInterviewRoom.tsx:95 | The digits of `toString()` read back as the number |
| LiveRoom.Pad2 | src/components/LiveInterviewRoom.tsx:95 | `padStart(2, '0')` keeps a string of length two or more. A shorter one is extended to length two with leading zeros. |
| LiveRoom.FormatTime | src/components/LiveInterviewRoom.tsx:94-95 | The display is at least five characters and ends in `:` and exactly two digits, with only digits before the `:` |
| LiveRoom.FormatTimeRoundTrip | src/components/LiveInterviewRoom.tsx:94-95 | The display is the padded minutes, `:` and the two padded digits of the seconds, and it reads back as the number of seconds |
| LiveRoom.FormatTimeShort | src/components/LiveInterviewRoom.tsx:94-95 | Below 6000 seconds the display has five characters |
| LiveRoom.SpeakingTotal | src/components/LiveInterviewRoom.tsx:153 | The mean exceeds 20 exactly when there are bins and their sum exceeds 20 per bin; an empty array gives NaN, which is not speaking |
| LiveRoom.IsSpeaking | src/components/LiveInterviewRoom.tsx:153 | A frame counts as speaking only if it has bins and at least one bin above 20 |
| LiveRoom.SpeakingThreshold | src/components/LiveInterviewRoom.tsx:147-153 | With the 128 bins of `fftSize` 256, speaking holds exactly when the sum exceeds 2560 |
| LiveRoom.SpeakingMonotonic | src/components/LiveInterviewRoom.tsx:153 | Raising one bin never turns speaking off |
| LiveRoom.ClosingSendsAppend | src/components/LiveInterviewRoom.tsx:101-104 | Counting closing instructions distributes over concatenation |
| LiveRoom.Room.constructor | src/components/LiveInterviewRoom.tsx:30-51 | Every state cell and ref has its initial value; nothing has been sent or called |
| LiveRoom.Room.SetStatus | src/components/LiveInterviewRoom.tsx:198-214 | The status is set. On a change, the old status's transcription client is stopped, and a new one is started exactly when the new status is `connected`. |
| LiveRoom.Room.Tick | src/components/LiveInterviewRoom.tsx:88-92 | The timer grows by exactly 1 while the call is active and connected, and stays put otherwise |
| LiveRoom.Room.ClosingEffect | src/components/LiveInterviewRoom.tsx:98-107 | When connected, not yet sent and `timer ≥ durationSec − 30`, the instruction is sent on an open channel and the flag is set. Nothing changes otherwise. A send happens only under those conditions, and the invariant (at most one send ever) is kept. |
| LiveRoom.Room.TickAndCheck | src/components/LiveInterviewRoom.tsx:88-107 | A tick followed by the closing effect keeps the closing instruction sent at most once |
| LiveRoom.Room.StartSetup | src/components/LiveInterviewRoom.tsx:110-115 | The setup run captures `isCallActive` and `userInteracted`, and sets the status to `connecting`. Leaving `connected` stops the transcription client; nothing else is logged. |
| LiveRoom.Room.PeerCreated | src/components/LiveInterviewRoom.tsx:121-129 | The peer connection exists and is held by its ref, before the microphone is requested; the channel ref is untouched |
| LiveRoom.Room.ChannelCreated | src/components/LiveInterviewRoom.tsx:162-163 | After the microphone is granted, the channel ref holds a data channel that is still opening |
| LiveRoom.Room.SetupFailed | src/components/LiveInterviewRoom.tsx:189-192 | The error message is shown and the status is `error`. Leaving `connected` stops the transcription client; nothing else is logged. |
| LiveRoom.Room.ChannelOpened | src/components/LiveInterviewRoom.tsx:164-167 | The introduction and then `ai.start` are sent, in that order |
| LiveRoom.Room.ChannelMessage | src/components/LiveInterviewRoom.tsx:168-170 | An `ai.speaking` message sets the speaking flag from its `value`; any other message, or one that does not parse, changes nothing |
| LiveRoom.Room.EnsureAudioCtx | src/components/LiveInterviewRoom.tsx:64-68 | A context is created only when none exists |
| LiveRoom.Room.TryPlayAudio | src/components/LiveInterviewRoom.tsx:70-74 | Without a source only the status changes (to `no source`); with one, the element is unmuted and `play` is called |
| LiveRoom.Room.PlaySettled | src/components/LiveInterviewRoom.tsx:75-76 | Playback is `playing` on success; on failure it is `failed` and the element is muted |
| LiveRoom.Room.HandleUserInteraction | src/components/LiveInterviewRoom.tsx:79-85 | Only the first call plays and resumes the context; later calls change nothing, because `userInteracted` latches |
| LiveRoom.Room.AutoInteractionFired | src/components/LiveInterviewRoom.tsx:79-158 | The delayed handler, whose closure captured `userInteracted` as false, always unlocks the audio. If the user has clicked already, only the play and resume calls happen and the call is left alone. Otherwise it does exactly what a first click does: unlocks, closes the connection, channel and context, and sets the call up again. |
| LiveRoom.Room.AttachSource | src/components/LiveInterviewRoom.tsx:141-155 | The stream becomes the source, a context exists, and the monitor keeps running exactly when the setup captured an active call |
| LiveRoom.Room.PlayOrSchedule | src/components/LiveInterviewRoom.tsx:157-158 | After an interaction the audio is played. Otherwise the delayed interaction is scheduled, once per setup run. |
| LiveRoom.Room.AudioTrack | src/components/LiveInterviewRoom.tsx:139-160 | A remote audio track connects the room, wires the audio, and plays it or schedules its unlock. The transcription effect of the new status follows, in that order. |
| LiveRoom.Room.MonitorFrame | src/components/LiveInterviewRoom.tsx:150-155 | While the monitor runs, the speaking flag is the speaking test of the bins; otherwise it is unchanged |
| LiveRoom.Room.IceStateChanged | src/components/LiveInterviewRoom.tsx:182-187 | `closed`, `failed` and `disconnected` end the call and notify the parent once; any other state changes nothing |
| LiveRoom.Room.Restart | src/components/LiveInterviewRoom.tsx:110-195 | A change of a setup dependency runs the cleanup and then a new setup. The connection, channel and context are closed, the status becomes `connecting`, and the new run captures the current flags. Its calls are the cleanup's closes, then the transcription stop if the room was `connected`. |
| LiveRoom.Room.FirstInteraction | src/components/LiveInterviewRoom.tsx:79-85 | The handler with the flag still false: first the play (when there is a source) and the resume, then the restart's closes, the context included, then the status change. Afterwards the context is closed and the status is `connecting`. |
| LiveRoom.Room.TeardownSetup | src/components/LiveInterviewRoom.tsx:194 | The connection, the channel and the context are closed, in that order, when they exist |
| LiveRoom.Room.Click | src/components/LiveInterviewRoom.tsx:79-85 | A later click leaves every field unchanged. The first one has exactly the calls, closes and new state that `FirstInteraction` states: it unlocks the audio, then tears the call down and sets it up again, because `userInteracted` is a dependency of the setup. |
| LiveRoom.Room.OnPartial | src/components/LiveInterviewRoom.tsx:202 | A partial transcript replaces the caption's partial line |
| LiveRoom.Room.OnFinal | src/components/LiveInterviewRoom.tsx:203-207 | A final transcript clears the partial line, sets the final one and requests grading of exactly that text |
| LiveRoom.Room.OnTranscriberCallback | src/components/LiveInterviewRoom.tsx:201-209 | Partials and finals act as above; errors change nothing |
| LiveRoom.SlotOf | src/components/LiveInterviewRoom.tsx:224-225 | A missing reply field is stored as `undefined`, a JSON `null` as `null`, and any other value as itself |
| LiveRoom.Room.GradingReply | src/components/LiveInterviewRoom.tsx:217-227 | A thrown request or a `null` body leaves score and feedback unchanged. Any other body sets both from its fields, to `undefined` when absent and `null` when `null`. |
| LiveRoom.Room.CaptionsShown | src/components/LiveInterviewRoom.tsx:238 | The captions show when the partial line or the final line is a non-empty string, and are hidden when both are empty or absent |
| LiveRoom.Room.FeedbackShown | src/components/LiveInterviewRoom.tsx:246 | The feedback box shows for any stored score, `undefined` included, and is hidden for `null` |
| LiveRoom.Room.EndCall | src/components/LiveInterviewRoom.tsx:230 | The transcription client, the channel and the connection are closed, in that order, when present. The call ends, the parent is notified on every call, and the status is unchanged. |
| LiveRoom.Room.DeniedSetup | src/components/LiveInterviewRoom.tsx:110-192 | A setup whose microphone request is denied. The new connection stays in its ref, the channel ref is untouched, the error is shown and the status is `error`. The only calls are those of the status change to `connecting`. |
| LiveRoom.Room.DeniedSetupThenEnd | src/components/LiveInterviewRoom.tsx:110-230 | A denied setup, then End. The exact log is the setup's status change, then `endCall`'s calls on the new connection and on whatever channel the ref held. With no earlier channel, the connection is closed and no channel is. Afterwards the status is `error` and the call is inactive. |
| LiveRoom.EndCallTwice | src/components/LiveInterviewRoom.tsx:230 | Ending twice makes `endCall`'s calls twice, the second time on the links the first closed. The parent is notified exactly twice more: nothing guards against a second `onEnd`. |
| Catalogue.Lookup | src/pages/api/interviews.ts:335-341 | `record[key]` finds a value exactly when the key is present, and that value is the key's entry |
| Catalogue.First | src/pages/api/interviews.ts:326-327 | A single value is used as is. A repeated parameter contributes its first value, or none when the list is empty. An absent parameter has none. |
| Catalogue.Normalize | src/pages/api/interviews.ts:331 | The key is never longer than the parameter, and is empty exactly when the parameter is blank |
| Text.DashSpacesLength | src/pages/api/interviews.ts:331 | Replacing runs of white space by `-` never lengthens a string, and leaves only the empty string empty |
| Catalogue.Select | src/pages/api/interviews.ts:340-346 | The list is always drawn from the category's roles. With no role it is all of them. |
| Catalogue.NormalizeShape | src/pages/api/interviews.ts:331 | A normalized key is lower case and has no white space |
| Catalogue.NormalizeIdempotent | src/pages/api/interviews.ts:331 | Normalizing a key again changes nothing |
| Catalogue.NormalizeDataScience | src/pages/api/interviews.ts:331 | "Data Science" normalizes to "data-science" |
| Catalogue.RolesGroup | src/pages/api/interviews.ts:335-336 | A known key selects its group; an unknown one selects the software group |
| Catalogue.Handler | src/pages/api/interviews.ts:322-349 | Every request is answered with 200 |
| Catalogue.SameKeySameAnswer | src/pages/api/interviews.ts:330-336 | Requests with the same category key get the same answer |
| Catalogue.NoCategoryIsSoftware | src/pages/api/interviews.ts:330-332 | An absent or empty category, or an empty list, is answered as software |
| Catalogue.UnknownCategoryFallsBack | src/pages/api/interviews.ts:335-336 | A category key that is not in the table is answered as software |
| Catalogue.FirstValueCounts | src/pages/api/interviews.ts:326-327 | A repeated parameter counts with its first value only |
| Catalogue.KnownRole | src/pages/api/interviews.ts:340-342 | A non-empty role that is a key of the group returns exactly that role's list |
| Catalogue.AllRoles | src/pages/api/interviews.ts:343-346 | A missing, empty or unknown role returns the concatenation of the group's lists, whose length is the sum of theirs |
| Catalogue.FlattenMembers | src/pages/api/interviews.ts:345 | An interview is in the flattened group exactly when it is in one of the role lists |
| CatalogueTable.SoftwareRequest | src/pages/api/interviews.ts:330-336 | A software request is answered from the software group of the table |
| CatalogueTable.SoftwareRoles | src/pages/api/interviews.ts:7-29 | "frontend" is a software role key and "Frontend" is not |
| CatalogueTable.RoleNotNormalized | src/pages/api/interviews.ts:340-346 | The role is matched exactly: "frontend" gives its list, while "Frontend" gives every software list |
| InterviewsPage.Tag | src/pages/interviews/index.tsx:95 | Tagging keeps every interview, in order, and gives each the category |
| InterviewsPage.TagAllMembers | src/pages/interviews/index.tsx:87-97 | A tagged interview is in the catalogue exactly when it is in the chunk of its category |
| InterviewsPage.TagAllLength | src/pages/interviews/index.tsx:91-97 | The catalogue is as long as the chunks together |
| InterviewsPage.Matches | src/pages/interviews/index.tsx:105-108 | Every match is in the catalogue and has the query in its lower-cased title or subtitle |
| InterviewsPage.InCategory | src/pages/interviews/index.tsx:115 | Filtering by category never returns more entries than the matches |
| InterviewsPage.Search | src/pages/interviews/index.tsx:101-119 | Only a query that is not blank changes the view. The role is kept or cleared. When the category changes, the role is cleared and at least one interview is shown. |
| InterviewsPage.Header | src/pages/interviews/index.tsx:137-140 | The header is at least 16 characters longer than the category. It is longer than that exactly when a role is set, and then ` - ` follows the category. |
| InterviewsPage.MatchesComplete | src/pages/interviews/index.tsx:105-108 | Every catalogue entry that matches is among the matches |
| InterviewsPage.MatchesAppend | src/pages/interviews/index.tsx:105 | The filter distributes over concatenation: the matches keep catalogue order |
| InterviewsPage.NoSubtitleMatchesByTitle | src/pages/interviews/index.tsx:106-107 | An interview without a subtitle matches only by its title |
| InterviewsPage.InCategoryMembers | src/pages/interviews/index.tsx:115 | An interview is shown exactly when it is a match tagged with that category |
| InterviewsPage.FirstMatchShown | src/pages/interviews/index.tsx:111-115 | With a match, the first match is the first interview shown |
| InterviewsPage.SearchBlank | src/pages/interviews/index.tsx:102-103 | A query that is empty after trimming leaves category, role and the shown list untouched |
| InterviewsPage.SearchShown | src/pages/interviews/index.tsx:105-115 | With a match, the category becomes the first match's and the role becomes empty. An interview is then shown exactly when it is a match in that category. |
| InterviewsPage.SearchNothing | src/pages/interviews/index.tsx:116-118 | With no match the shown list becomes empty and nothing else changes |
| InterviewsPage.FetchParams | src/pages/interviews/index.tsx:124-125 | The fetch has one parameter without a role and two with one |
| InterviewsPage.FetchQueryParams | src/pages/interviews/index.tsx:124-126 | The query string parses back to its parameters: first the category, with `role` present exactly when the role is not empty |
| InterviewsPage.HeaderNames | src/pages/interviews/index.tsx:137-140 | The header starts with the capitalized category and ends with " Mock Interviews". A set role appears, capitalized, right after ` - `. Its length is fixed by the two names. Capitalizing changes only the case of the first letter. |
| InterviewsPage.Page.constructor | src/pages/interviews/index.tsx:81-85 | The initial state cells: software, no role, no search, nothing loaded or fetched |
| InterviewsPage.Page.SearchEffect | src/pages/interviews/index.tsx:101-119 | The category, role and shown list become what `Search` makes of them |
| InterviewsPage.Page.FetchEffect | src/pages/interviews/index.tsx:122-129 | A fetch of the category and role is requested exactly when the trimmed search is empty |
| InterviewsPage.Page.FetchResolved | src/pages/interviews/index.tsx:127-128 | A fetch's list is shown |
| InterviewsPage.Page.LoadResolved | src/pages/interviews/index.tsx:91-119 | The catalogue is every chunk tagged and joined in category order, and the search effect re-runs on it |
| InterviewsPage.Page.SearchEffects | src/pages/interviews/index.tsx:101-129 | The search effect and then the fetch effect, each as stated |
| InterviewsPage.Page.SearchTyped | src/pages/interviews/index.tsx:155 | The search is set. The same value re-renders nothing; a new value re-runs the search and fetch effects. |
| InterviewsPage.Page.CategorySelected | src/pages/interviews/index.tsx:169 | The category is set and the role and search are cleared. A fetch of the new category is requested exactly when an input changed. |
| InterviewsPage.Page.RoleSelected | src/pages/interviews/index.tsx:172 | The role is set and the search is cleared. A fetch is requested exactly when an input changed. |
| SessionStore.Store.constructor | src/lib/InMemory.ts:13 | The store starts empty |
| SessionStore.Store.Distinct | src/lib/InMemory.ts:13-19 | Records under different keys are different objects |
| SessionStore.Store.Create | src/lib/InMemory.ts:16-19 | The record is stored under its id, replacing any earlier one, and is returned. The invariant (each record under its own id) is kept. |
| SessionStore.Store.Get | src/lib/InMemory.ts:20-22 | A record is found exactly when the id is stored, and it is the stored record |
| SessionStore.Store.AddTurn | src/lib/InMemory.ts:23-26 | A stored record gets exactly one turn at the end of its turns, and its `finished` and `score` stay as they were. An unknown id changes nothing, and no other record's turns change. |
| SessionStore.Store.CreateThenGet | src/lib/InMemory.ts:16-22 | `get` after `create` returns the record just created |
| InterviewCard.Utf16 | src/components/InterviewCard.tsx:30 | A character has one UTF-16 code unit below U+10000 and two otherwise, each below 0x10000 |
| InterviewCard.GradientIndex | src/components/InterviewCard.tsx:29-31 | The index is the code-unit sum modulo 5: `Math.abs` has no effect, and the index lies inside the five-entry table |
| InterviewCard.CardGradient | src/components/InterviewCard.tsx:14-32 | The card's colours are always an entry of the table |
| InterviewCard.SumOfCodeUnits | src/components/InterviewCard.tsx:30 | The sum of code units is the sum of each character's units |
| InterviewCard.SumByPermutation | src/components/InterviewCard.tsx:30 | The sum depends only on which characters occur |
| InterviewCard.IndexPermutation | src/components/InterviewCard.tsx:29-31 | Permuting an id's characters leaves its index unchanged |
| InterviewCard.EmptyIndex | src/components/InterviewCard.tsx:14-32 | The empty id takes index 0, the first gradient |
| InterviewCard.IndexAppend | src/components/InterviewCard.tsx:29-31 | Appending a character adds its code units to the index modulo 5 (its code, below U+10000) |
| InterviewGrid.GradientIndex | src/components/InterviewGrid.tsx:29-31 | The grid's index is the code-unit sum modulo 5, inside the table |
| InterviewGrid.GridGradient | src/components/InterviewGrid.tsx:14-32 | The colours are always an entry of the grid's table |
| InterviewGrid.SameAsCard | src/components/InterviewGrid.tsx:14-32 | The duplicate has the same table as the card and gives the same index and colours for every id |
| InterviewGrid.IndexPermutation | src/components/InterviewGrid.tsx:30 | Permuting an id's characters leaves the grid's index unchanged |
| InterviewGrid.EmptyIndex | src/components/InterviewGrid.tsx:29-32 | The empty id takes index 0 |
| GradeApi.Coalesce | src/pages/api/grade.ts:47 | `??` keeps a value that is defined and not `null`, and gives the default otherwise |
| GradeApi.Content | src/pages/api/grade.ts:47 | Content is found only in a reply whose `choices` is a non-empty array whose first element is an object with a `message` |
| GradeApi.Handler | src/pages/api/grade.ts:7-58 | The statuses are 405, 400, 502, 500 and 200, or a throw. No upstream call is made exactly when the answer is 405 or 400. |
| GradeApi.AnswerIsProperty | src/pages/api/grade.ts:13 | `req.body ?? {}` does not change which answer is read |
| GradeApi.NonPostRejected | src/pages/api/grade.ts:11 | A non-POST request gets 405 before the body is read, and no call is made |
| GradeApi.MissingAnswer | src/pages/api/grade.ts:13-14 | A missing or falsy answer gets 400 "Missing `answer`", and no call is made |
| GradeApi.EmptyAnswer | src/pages/api/grade.ts:14 | The empty string is a missing answer |
| GradeApi.CallCarriesAnswer | src/pages/api/grade.ts:16-33 | Past both guards, one call goes to the chat-completions URL with the assessor prompt and then the answer, unchanged |
| GradeApi.UpstreamFailure | src/pages/api/grade.ts:41-44 | A non-success upstream status gets 502 "Grading failed" |
| GradeApi.MissingContentIsEmpty | src/pages/api/grade.ts:46-57 | A reply without `choices[0].message.content` is parsed as `'{}'` and gives 200 with an empty object |
| GradeApi.InvalidContent | src/pages/api/grade.ts:49-55 | Content that does not parse gets 500 "Invalid grader response" |
| GradeApi.ParsedPassedThrough | src/pages/api/grade.ts:49-57 | Parsed content is sent with 200 unchanged; the score is not checked |
| GradeApi.NullReplyThrows | src/pages/api/grade.ts:46-47 | A `null` reply body throws, because its `choices` cannot be read |
| SessionApi.StripTrailingSlash | src/pages/api/realtime/session.ts:17 | At most one `/` is removed, and it is removed exactly when the endpoint ends in `/` |
| SessionApi.Voice | src/pages/api/realtime/session.ts:14 | The voice is the configured one when it is set and not empty, and `verse` otherwise |
| SessionApi.SessionBody | src/pages/api/realtime/session.ts:29-47 | The settings object carries the chosen voice, and a `model` exactly when a deployment is configured, with that name |
| SessionApi.Handler | src/pages/api/realtime/session.ts:4-69 | No call is made exactly for a non-POST request or an unset endpoint. Only the 405 reply has headers. A 200 reply carries a non-`null` payload. |
| SessionApi.NonPostRejected | src/pages/api/realtime/session.ts:5-8 | A non-POST request gets 405 with `Allow: POST`, and no call is made |
| SessionApi.UrlShape | src/pages/api/realtime/session.ts:17-18 | The URL is the endpoint, less at most one trailing `/`, then the sessions path and the version |
| SessionApi.OneSlashOnly | src/pages/api/realtime/session.ts:17 | An endpoint ending in `//` keeps one `/` |
| SessionApi.UnsetVersion | src/pages/api/realtime/session.ts:18 | An unset version reads as `undefined` in the URL |
| SessionApi.StatusRelayed | src/pages/api/realtime/session.ts:50-54 | A non-success upstream status is relayed with its text as the error |
| SessionApi.PayloadPassedThrough | src/pages/api/realtime/session.ts:56-64 | A success reply is 200 with the parsed payload unchanged |
| SessionApi.ThrownIsInternalError | src/pages/api/realtime/session.ts:65-68 | A rejected call, a body that does not parse, or a `null` payload gets 500 |
| SessionApi.UnsetEndpointThrows | src/pages/api/realtime/session.ts:17 | An unset endpoint throws before the `try`: no call is made and no response is written |
| SessionApi.ModelWhenConfigured | src/pages/api/realtime/session.ts:29-47 | The request names the deployment as `model` exactly when one is configured, and carries the voice |
| Query.SplitJoin | src/pages/interviews/index.tsx:126 | Splitting a join of separator-free pieces gives the pieces back |
| Query.ParseSerialize | src/pages/interviews/index.tsx:124-126 | Well-formed parameters serialize and parse back to themselves, in order |
| Query.ParseWellFormed | src/utils/Gpt4oRealtimeClient.ts:106-107 | Every parameter read from a query string is well formed |
| Text.TrimStart | src/pages/api/interviews.ts:331 | Removes exactly the white space at the front |
| Text.TrimEnd | src/pages/api/interviews.ts:331 | Removes exactly the white space at the end |
| Text.Lower | src/pages/api/interviews.ts:331 | Lower-casing keeps the length and maps each character |
| Text.DashSpacesShape | src/pages/api/interviews.ts:331 | Replacing white-space runs leaves no white space and keeps lower case |
| Text.DashSpacesOfNoSpace | src/pages/api/interviews.ts:331 | A string without white space is unchanged by the replacement |
| Text.CapitalizeKeepsLetters | src/pages/interviews/index.tsx:138-139 | Capitalizing upper-cases the first character and keeps the rest and the length |

## Left out

- Browser media and transport are not modelled: `RTCPeerConnection`, the SDP offer and answer, its STUN servers, `getUserMedia`, `AudioContext`, and the worklet and `ScriptProcessor` wiring. The same goes for `WebSocket`, `requestAnimationFrame`, `setInterval` and `setTimeout`. These are I/O and scheduling. Their events are method calls whose parameters carry what the browser reported.
- The `fetch` calls and `JSON.parse`/`JSON.stringify` are not modelled. Upstream results are values of an `Upstream` datatype, and `parse` is a function parameter.
- `new URL` and `URLSearchParams` are modelled only as splitting on `?`, `&` and `=`. Percent-encoding and URL normalisation are not, and a URL `new URL` rejects is an input of `Start`.
- Pcm16: the IEEE-754 rounding of the multiplication is not modelled (samples are reals). The host is taken to be little-endian for `Int16Array.buffer`.
- Base64: `btoa` is modelled from section 4 of RFC 4648, not from the browser's implementation.
- LiveRoom.EndCall: "the parent is notified exactly once" is not claimed, because the code does not ensure it. `endCall` and the ICE handler each call `onEnd` unconditionally, as `EndCallTwice` shows.
- RealtimeClient.Client.Start: the `await` on `getUserMedia` (Gpt4oRealtimeClient.ts line 85) is taken as atomic. A `stop()` or a second `start()` that runs while the microphone request is pending is not modelled; in the source, such a `stop()` finds nothing to release, and the stream and socket are still created afterwards.
- RealtimeClient.Client.OnOpen: the `await` on `addModule` (Gpt4oRealtimeClient.ts line 219) is taken as atomic. Frames, socket errors or a `stop()` that arrive while the worklet module loads are not modelled, nor is the rest of the pipeline then running on a context that `stop()` closed or cleared.
- LiveRoom.Room.TeardownSetup: the setup's `await`s (the session-key `fetch` and its `json()` at LiveInterviewRoom.tsx lines 116-118, then `getUserMedia` and the SDP exchange) are taken as atomic. A cleanup that runs before `pc` is assigned (line 121) finds `pc` undefined and cannot close the connection that the abandoned run creates later; the model closes the room's current connection instead.
- LiveRoom.Room.MonitorFrame: the monitor reads the `isCallActive` its effect captured, so in React it never stops. The model keeps an explicit `monitorRunning` flag and claims nothing about termination.
- LiveRoom.Room.ChannelMessage: the speaking flag keeps only the truthiness of the message's `value`, not the raw value.
- LiveRoom.Room.ClosingEffect: on a channel that is not open, `send` throws inside the effect. That is modelled as nothing changing, and React's handling of the error is not modelled.
- The webcam preview effect and `toggleControls` are not modelled. They only show video and controls.
- CatalogueTable: the table holds only the software and writing categories. Lookups of the other categories fall back to software in the model, as unknown keys do in the source. Duplicate interview ids in the table play no role in the handler.
- Catalogue.Lookup: JavaScript prototype keys (`constructor`, `__proto__` and similar) are not modelled as present keys.
- Json: optional indexing `?.[0]` is modelled for arrays only; on other values it reads nothing.
- Text.Lower: `toLowerCase` and `toUpperCase` are modelled for ASCII letters only; other letters keep their case. `trim` and `\s` follow ECMAScript's white space and line terminators in full.
- RealtimeClient.ConfigMessage: only the first line of each missing-value message is modelled. The current-values dump after it is not.
- RealtimeClient.Client: every callback call is recorded, also when the options supply no such callback (`?.` makes that a no-op).
- InterviewsPage.InCategory: the shown interviews drop the `category` tag that the source's objects still carry.
- InterviewsPage.Page.FetchResolved: responses that arrive late or out of order are not modelled: each one is shown when it resolves.
- The navigation's role list (`rolesMap[category] ?? []`, index.tsx line 131) is not modelled. It only feeds the navigation component.
- GradeApi.Handler and SessionApi.Handler: a throw out of the handler is the `Threw` reply, not the framework's default 500.
- Logging (`console.*`), styling and all JSX rendering are left out. Captions and feedback visibility are modelled only as `CaptionsShown` and `FeedbackShown`.
- Not modelled because they are thin wrappers, UI or routing:
  - src/pages/api/score.ts and src/lib/azureOpenAI.ts (SDK wrappers);
  - src/pages/api/simple-session.ts (environment defaults around a fetch);
  - src/components/CategoryNav.tsx, src/pages/index.tsx, src/pages/_app.tsx and src/pages/interviews/[id].tsx;
  - src/pages/api/test.ts.
