# Vapi voice widget: credential validator and listening toggle

A Dafny model of the two pieces of logic in the Mardi voice-assistant widget:

- **The credential validator** of `lib/env.js`. `validateEnvironmentVariables` checks a fixed,
  context-dependent list of variables: `NEXT_PUBLIC_VAPI_KEY` and
  `NEXT_PUBLIC_VAPI_ASSISTANT_ID` on the client side, and `VAPI_PRIVATE_KEY` as well on the server
  side. A missing (falsy) value adds an error. A set value is stored in `envVars` and adds a warning
  when it does not have the 8-4-4-4-12 hexadecimal layout of a UUID (section 4 of RFC 9562). The
  client and server wrappers fix the side. `getVapiConfig` turns a valid result into a
  configuration record and throws otherwise.
- **The listening toggle** of `app/components/VoiceAssistant.js`. Two state fields, `isListening`
  and `status`, are changed by `toggleListening` (main button), `stopListening` (close button) and
  the keyboard handler. The keyboard handler toggles only on Enter or Space inside the main button.

Files:

- `wrappers.dfy`: `Option` (a value that may be `undefined`) and `Result` (a call that may throw).
- `uuid.dfy`: the anchored, case-insensitive UUID regular expression, written as hex runs of
  lengths 8, 4, 4, 4, 12 separated by hyphens. Lemmas give its character-by-character reading.
- `env.dfy`: the validator. `CheckVars` is a left fold that specifies the `forEach` loop.
  `ValidateEnvironmentVariables` is the loop itself, proved equal to that fold. The fold is related by
  lemmas to independent descriptions of each output: `MissingErrors`, `FormatWarnings` and
  `StoredVars`.
- `voice_assistant.dfy`: the transitions as functions on a `UiState` value, their properties, and
  the component as a class whose methods update `isListening` and `status` in place.

The process environment is a `map<string, string>` parameter; an absent key stands for
`undefined`. JavaScript truthiness of the value (defined and not `""`) is `Present`. The
`isClientSide` default (`typeof window !== 'undefined'`) becomes an explicit parameter.

## Model

| member | source | states |
|---|---|---|
| Uuid.MatchesGroupsLayout | lib/env.js:57 | a string matches hex runs separated by single hyphens, anchored at both ends, exactly when it has the runs' total length, hyphens at the separator positions and hex digits elsewhere |
| Uuid.UuidShape | lib/env.js:57 | the UUID test accepts exactly the 36-character strings with `-` at positions 8, 13, 18, 23 and a case-insensitive hex digit everywhere else |
| Uuid.UuidExamples | lib/env.js:57 | an upper-case UUID is accepted; the same digits without hyphens, or followed by a newline, are rejected (`$` anchors at end of input) |
| EnvValidation.CheckList | lib/env.js:16-43 | the client side checks exactly `NEXT_PUBLIC_VAPI_KEY` and `NEXT_PUBLIC_VAPI_ASSISTANT_ID` in that order, the server side those two and then `VAPI_PRIVATE_KEY`; every entry is required and no key repeats |
| EnvValidation.ErrorsInCheckOrder | lib/env.js:46-54 | the errors are exactly one "Missing required environment variable" message per required variable that is unset or empty, in checking order |
| EnvValidation.WarningsOnlyFromFormat | lib/env.js:49-63 | when every variable is required, the optional-variable warning never occurs: the warnings are exactly one UUID-format warning per set, non-UUID variable, in checking order |
| EnvValidation.StoredExactlyPresent | lib/env.js:55-64 | `envVars` holds exactly the checked keys whose values are truthy, each with its environment value, UUID-shaped or not |
| EnvValidation.EachKeyCountedOnce | lib/env.js:46-65 | with required, distinct keys, each key adds either one error or one `envVars` entry, so the number of errors plus the number of entries equals the number of keys checked |
| EnvValidation.NoErrorsIffAllPresent | lib/env.js:46-54 | with every variable required, there are no errors exactly when every checked variable is set |
| EnvValidation.ValidIffAllPresent | lib/env.js:67-72 | `isValid` holds iff `errors` is empty, iff the public key, the assistant id and (server side only) the private key are all set |
| EnvValidation.ValidationOutputs | lib/env.js:10-73 | the result's errors, warnings and `envVars` equal the independent descriptions, and errors plus entries number 2 on the client side and 3 on the server side |
| EnvValidation.NonUuidValueOnlyWarns | lib/env.js:55-63 | a set value that is not a UUID is still stored in `envVars` with its value and adds a format warning |
| EnvValidation.FormatNeverAffectsValidity | lib/env.js:49-68 | two environments that agree on which variables are set give the same `isValid` and the same errors, whatever the values look like |
| EnvValidation.ValidateEnvironmentVariables | lib/env.js:10-73 | the loop over the entries yields exactly the result of the fold `Validate`, whose outputs the lemmas above characterise |
| EnvValidation.ValidateClientEnvironmentVariables | lib/env.js:79-81 | equals the validation with `isClientSide = true`, and stores only the two public keys |
| EnvValidation.ValidateServerEnvironmentVariables | lib/env.js:87-89 | equals the validation with `isClientSide = false`, and stores only the three checked keys |
| EnvValidation.LogEnvironmentValidation | lib/env.js:96-123 | returns the validation result unchanged |
| EnvValidation.GetVapiConfig | lib/env.js:130-141 | fails, with the side-specific message, exactly when validation is invalid; on success `publicKey` and `assistantId` are the environment's values and `privateKey` is absent on the client side and the environment's value on the server side |
| VoiceAssistantUi.InitialState | app/components/VoiceAssistant.js:6-7 | the initial state is not listening with status "Click to start voice assistant", and is consistent |
| VoiceAssistantUi.ToggleFlips | app/components/VoiceAssistant.js:24-34 | toggling flips `isListening`; from not listening the status becomes "Listening... Speak now", from listening "Voice assistant stopped" |
| VoiceAssistantUi.ToggleInvolution | app/components/VoiceAssistant.js:24-34 | two toggles restore `isListening`, and restore the whole state from any consistent state other than the initial prompt |
| VoiceAssistantUi.StopIdempotent | app/components/VoiceAssistant.js:36-40 | stopping always ends not listening with "Voice assistant stopped"; stopping twice equals stopping once |
| VoiceAssistantUi.KeyPressOnlyOnActivation | app/components/VoiceAssistant.js:11-17 | a key press toggles when the target is inside the button and the key is `Enter` or space, and changes nothing otherwise; in particular a press outside the button never changes the state |
| VoiceAssistantUi.StatusDeterminesListening | app/components/VoiceAssistant.js:24-40 | in a consistent state, the assistant is listening exactly when the status is the listening message |
| VoiceAssistantUi.ReachableConsistent | app/components/VoiceAssistant.js:6-87 | any sequence of main-button clicks, close-button clicks and key presses from a consistent state keeps the state consistent |
| VoiceAssistantUi.IgnoredKeysChangeNothing | app/components/VoiceAssistant.js:11-17 | a run of key presses none of which is Enter or space inside the button leaves the state unchanged |
| VoiceAssistantUi.VoiceAssistant.constructor | app/components/VoiceAssistant.js:6-7 | the component starts in the initial state |
| VoiceAssistantUi.VoiceAssistant.ToggleListening | app/components/VoiceAssistant.js:24-34 | flips `isListening` in place and sets the status of the new mode; the new state is consistent |
| VoiceAssistantUi.VoiceAssistant.StopListening | app/components/VoiceAssistant.js:36-40 | sets `isListening` to false and the status to "Voice assistant stopped" |
| VoiceAssistantUi.VoiceAssistant.HandleKeyPress | app/components/VoiceAssistant.js:11-17 | prevents the default action and toggles exactly on Enter or space inside the button; otherwise both fields are unchanged |

## Left out

- Reading `process.env` and detecting the side with `typeof window`: the environment and `isClientSide` are parameters.
- The console output of `logEnvironmentValidation` (lib/env.js:99-120), including the masking of non-public values in development mode: it is I/O. Only the returned result is modelled.
- The `description` texts are carried into the error messages but have no other role.
- JavaScript strings are UTF-16; the model uses Unicode characters. This only changes the length of strings that contain non-hex characters, and those never match the UUID test.
- The JSX of the component (wave rings, tooltip, icons, CSS classes, aria attributes): presentation. Its one effect on behaviour is that the close button exists only while listening, which `Step` models.
- `document.addEventListener`/`removeEventListener` and `event.target.closest('.voice-assistant-button')`: DOM plumbing. Whether the target lies inside the button is a boolean input.
- Starting and stopping a Vapi session: the component only has comments where this would happen.
- tailwind.config.js, app/layout.js and app/page.js: configuration, fonts and page layout, without logic.
