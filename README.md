# Weather Calendar client: a Dafny model of its logic

This project models the logic of the Weather Calendar mobile client (React Native, TypeScript), a thin client over a REST backend that stores trips as events and checks the weather along them. Screens are modelled where they decide something. The model covers:

- the input checks: the SQL-keyword denylist of the event form, the email shape, the password policy and the name rules;
- how the login, signup and email-verification screens validate their fields, call the backend and route on the account's `is_activated` flag;
- the older login and signup screens and the way they show an error line below the field whose keyword it mentions;
- the API client: how `doFetch` builds a request and turns a response into a value or a thrown error, and the URL and headers of every endpoint helper;
- saving an event, deleting the current event, and the `events` Redux slice they update;
- the privacy-policy agreement gate and its modal's scroll threshold;
- the app-wide modal slot;
- the web date-time input, whose text is parsed back into a date;
- the text fallbacks of the event detail screen and the token guard of its layout.

JavaScript values are a datatype (`JsValues.JsValue`), with truthiness, property reads that throw on `null`/`undefined`, `||`, `String(v)` and `Number(s)` written out. The backend is an oracle. Each flow is given the outcome of each request it makes: a decoded JSON body or a rejection. A `Network` object records the calls, in order, so that "no request was made" and the order of the calls can be stated. Screens whose handlers update `useState` slots are classes whose methods update those fields. Each such method is specified by pure functions of the inputs, and the properties are proved about those functions.

## Model

| member | source | states |
|---|---|---|
| JsValues.Or | utils/fetchAPI.ts:27 | `a \|\| b` is the first operand exactly when it is truthy, the second otherwise |
| JsValues.ReadProp | utils/fetchAPI.ts:40 | reading a property throws exactly when the value is `null` or `undefined`; otherwise it yields the property's value |
| JsValues.ToNumber | app/AddEventView/DatetimePicker/index.tsx:54-55 | on the digit fields a datetime-local value yields, `Number(s)` is a number exactly for strings of decimal digits, and 0 for the empty string |
| JsValues.Utf16Length | app/LoginView/index.tsx:23 | a string's `length` counts one unit per character up to U+FFFF and two beyond it, so it lies between the character count and twice that |
| JsValues.Utf16LengthOfBmp | app/LoginView.tsx:17 | a text with no character beyond U+FFFF has a `length` equal to its character count |
| JsValues.NatTextRoundTrip | app/AddEventView/DatetimePicker/index.tsx:42-55 | reading back the decimal text of a natural number gives the number |
| JsValues.PadNatRoundTrip | app/AddEventView/DatetimePicker/index.tsx:42-55 | zero-padding a number's text to any width never changes the number it reads back as |
| JsValues.ToIsoString | app/AddEventView/index.tsx:78-82 | `toISOString` throws exactly on an invalid date |
| JsValues.CharAbsent | app/LoginView.tsx:60-69 | a text never includes a keyword that has a character the text lacks |
| JsValues.PairAbsent | app/SignupView.tsx:43-60 | `a + b` never includes a keyword whose first two characters are never adjacent in `a` and whose second character `b` lacks |
| JsValues.IncludesPrefix | app/SignupView.tsx:43-51 | a text includes its own beginning |
| Validators.Any | app/LoginView/index.tsx:23 | a character-class search succeeds exactly when some character is in the class |
| Validators.All | app/SignupView/index.tsx:21-28 | a full-string class match succeeds exactly when every character is in the class |
| Validators.FirstForbidden | app/AddEventView/index.tsx:50-53 | the regular-expression search returns the leftmost position where a denylisted alternative matches, or none when there is none |
| Validators.ValidateInput | app/AddEventView/index.tsx:50-53 | the input is accepted exactly when no denylisted pattern (`;`, `--`, DROP … UNION) matches anywhere, ignoring letter case |
| Validators.ValidateInputRefusesEmbedded | app/AddEventView/index.tsx:50-53 | any spelling of a denylisted pattern in any letter case, with any text around it, is refused |
| Validators.ValidateInputExamples | app/AddEventView/index.tsx:50-53 | "Trip; DROP TABLE events" and even "Drop-off at the airport" are refused; the empty string is accepted |
| Validators.IsEmailMatchesRegex | app/LoginView/index.tsx:19 | the email check accepts exactly the strings `^[^\s@]+@[^\s@]+\.[^\s@]+$` matches (both directions) |
| Validators.IsEmailSound | app/LoginView/index.tsx:19 | an accepted email is three `[^\s@]+` segments joined by `@` and `.` |
| Validators.IsEmailComplete | app/LoginView/index.tsx:19 | every such three-segment string is accepted |
| Validators.IsEmailAcceptsPlainAddress | app/LoginView/index.tsx:19 | "ann@example.com" is accepted |
| Validators.IsEmailNeedsDot | app/LoginView/index.tsx:19 | an address without a dot is refused |
| Validators.PasswordMeetsPolicy | app/LoginView/index.tsx:23 | accepted exactly when its `length` (UTF-16 code units) is at least 8 and it holds a digit and one of `!@#$%^&*` |
| Validators.LegacyPasswordLongEnough | app/LoginView.tsx:17 | the older rule accepts exactly the passwords whose `length` (UTF-16 code units) is at least 6 |
| Validators.PolicyIsStricterThanLegacy | app/LoginView/index.tsx:23 | every password the policy accepts, the older rule accepts, but "abcdef" passes only the older rule |
| Validators.AstralCharactersCountTwice | app/LoginView/index.tsx:23 | three emoji pass the older length rule and three emoji followed by "1!" pass the policy, since each emoji counts two units |
| Validators.FirstNameValid | app/SignupView/index.tsx:21 | non-empty, ASCII letters and hyphens only |
| Validators.LastNameValid | app/SignupView/index.tsx:25 | non-empty, ASCII letters only |
| Validators.HyphenOnlyInFirstName | app/SignupView/index.tsx:21-28 | joining two valid last names with a hyphen gives a valid first name and an invalid last name |
| Platform.RequestIp | app/LoginView/index.tsx:32 | requests go to the mission address when it is set, to the API address otherwise, and never to an empty address when the API address is set |
| Platform.TokenOrEmpty | app/DeleteEventHeaderButton.tsx:22 | a missing token reads as the empty string, a stored one as itself |
| Platform.Router.Push | app/LoginView/index.tsx:37-40 | a push appends exactly one navigation to the history |
| Platform.Router.Replace | app/DeleteEventHeaderButton.tsx:30 | a replace appends exactly one replace navigation |
| Platform.Router.Navigate | app/LoginView.tsx:22 | `navigate` appends exactly one navigation by name |
| Platform.SecureStorage.SaveToken | utils/fetchAPI.ts:43 | saving the token replaces the stored one |
| Platform.ProfileSlice.SetProfile | app/LoginView/index.tsx:34 | `setProfile` replaces the stored profile |
| FetchApi.RequestOptions | utils/fetchAPI.ts:14-23 | the JSON content type is always present and caller headers override it; a body is attached exactly when it is truthy |
| FetchApi.DoFetchResult | utils/fetchAPI.ts:24-30 | a rejection propagates; a null body throws a TypeError; a truthy `error` (else `errors`) is thrown as the message; anything else is returned unchanged and is not nullish |
| FetchApi.BearerOptions | utils/fetchAPI.ts:14-20 | an authenticated request carries exactly the JSON content type and `Bearer <token>` |
| FetchApi.LoginRequest | utils/fetchAPI.ts:32-39 | login posts `{email, password}` to `/auth/login` with only the JSON header |
| FetchApi.ProfileRequest | utils/fetchAPI.ts:44-48 | the profile is fetched with GET from `/auth/me` with the bearer token and no body |
| FetchApi.SignupRequest | utils/fetchAPI.ts:61-66 | registration posts exactly first_name, last_name, email and password to `/auth/register` |
| FetchApi.UpdateProfileRequest | utils/fetchAPI.ts:77-85 | the profile update is a PUT to `/auth/me`, authenticated, with the user as body when truthy |
| FetchApi.UpdatePasswordRequest | utils/fetchAPI.ts:87-103 | the current-password argument is sent as `new_password`, with `confirm_password`, to `/auth/me/password` |
| FetchApi.LogoutRequest | utils/fetchAPI.ts:105-112 | logout is an authenticated POST to `/auth/logout` with no body |
| FetchApi.VerifyEmailCodeRequest | utils/fetchAPI.ts:114-120 | the code goes unencoded into the query string of an authenticated GET with no body |
| FetchApi.ResendVerificationRequest | utils/fetchAPI.ts:122-129 | the resend is an authenticated POST of `{email}` to `/auth/verifyemail` |
| FetchApi.CreateEventRequest | utils/fetchAPI.ts:131-143 | events are posted to the API address, or to `localhost` when none is configured |
| FetchApi.Network.DoFetch | utils/fetchAPI.ts:24-30 | one call is recorded and its result is the normalised outcome |
| FetchApi.Network.FetchEvents | app/AddEventView/index.tsx:86 | one `fetchEvents` call is recorded; its result is the oracle's |
| FetchApi.Network.DeleteEvent | app/DeleteEventHeaderButton.tsx:24 | one `deleteEvent` call is recorded; its result is the oracle's |
| FetchApi.LoginToken | utils/fetchAPI.ts:35-42 | after a successful request the result is `data.token` exactly when that token is truthy, and otherwise "Invalid email or password"; a nullish `data` throws the TypeError of reading `token`; a failed request propagates |
| FetchApi.ProfileResult | utils/fetchAPI.ts:44-49 | after a successful request the step succeeds exactly when `data` is not nullish, pairing `data.profile` with the login token; a nullish `data` throws the TypeError of reading `profile`; a failed request propagates |
| FetchApi.LoginAttempt | utils/fetchAPI.ts:32-50 | the login's failure ends the attempt; otherwise the outcome is the profile step's |
| FetchApi.LoginCalls | utils/fetchAPI.ts:35-48 | login is always requested; the profile is requested, with the returned token, exactly when a token came back |
| FetchApi.LoginAndFetchProfile | utils/fetchAPI.ts:32-50 | the result is `LoginAttempt`'s and the calls are `LoginCalls`; the token is stored exactly when one came back, and the stored token is otherwise untouched |
| FetchApi.SignupData | utils/fetchAPI.ts:62-69 | a response without truthy `data` throws the server's message or "Invalid email or password"; otherwise `data` is returned |
| FetchApi.SignupProfile | utils/fetchAPI.ts:71-73 | the dispatched profile has exactly first_name, last_name, email and is_activated, copied from the data |
| FetchApi.SignupAndFetchProfile | utils/fetchAPI.ts:52-75 | one registration request; on failure nothing is stored or dispatched; on success `data.token` is stored and the profile dispatched when a dispatcher is given |
| EventsSlice.InitialState | Redux/features/eventsSlice.ts:3-6 | no events and no current event |
| EventsSlice.Reduce | Redux/features/eventsSlice.ts:12-23 | each reducer replaces its own slot and keeps the other; `setEvents` takes `payload.data` and throws on a nullish payload |
| EventsSlice.CurrentEventSurvivesListUpdates | Redux/features/eventsSlice.ts:12-17 | any run of list actions leaves the current event as it was |
| EventsSlice.EventsSurviveCurrentEventUpdates | Redux/features/eventsSlice.ts:18-23 | any run of current-event actions leaves the list as it was |
| EventsSlice.ClearingIsIdempotent | Redux/features/eventsSlice.ts:15-23 | `clearEvents` and `deleteCurrentEvent` are idempotent |
| EventsSlice.EventsStore.constructor | Redux/features/eventsSlice.ts:3-6 | the store starts in the initial state |
| EventsSlice.EventsStore.SetEvents | Redux/features/eventsSlice.ts:12-14 | the store moves as `Reduce` says, and keeps its state when the reducer throws |
| EventsSlice.EventsStore.ClearEvents | Redux/features/eventsSlice.ts:15-17 | the store moves as `Reduce` says |
| EventsSlice.EventsStore.SetCurrentEvent | Redux/features/eventsSlice.ts:18-20 | the store moves as `Reduce` says |
| EventsSlice.EventsStore.DeleteCurrentEvent | Redux/features/eventsSlice.ts:21-23 | the store moves as `Reduce` says |
| PrivacyPolicy.InitialFlags | app/SignupView/usePrivacyPolicy.ts:5-7 | all three flags start false |
| PrivacyPolicy.Step | app/SignupView/usePrivacyPolicy.ts:9-25 | open and close set visibility; scrolling sets the scrolled flag; toggling flips agreement only after scrolling; the raw setter sets agreement |
| PrivacyPolicy.ScrolledStaysScrolled | app/SignupView/usePrivacyPolicy.ts:17-19 | once scrolled, no handler resets the scrolled flag |
| PrivacyPolicy.AgreementRequiresScroll | app/SignupView/usePrivacyPolicy.ts:21-25 | through the four handlers, agreement implies scrolled is an invariant |
| PrivacyPolicy.NoAgreementWithoutScrolling | app/SignupView/usePrivacyPolicy.ts:21-25 | from a fresh hook, no sequence of handlers without the scroll handler reaches agreement |
| PrivacyPolicy.NeverScrolled | app/SignupView/usePrivacyPolicy.ts:21-25 | without the scroll handler, the scrolled flag and agreement never change |
| PrivacyPolicy.DoubleToggleRestores | app/SignupView/usePrivacyPolicy.ts:21-25 | after scrolling, two toggles restore the original agreement |
| PrivacyPolicy.ScrollIsIdempotent | app/SignupView/usePrivacyPolicy.ts:17-19 | scrolling twice is scrolling once |
| PrivacyPolicy.PolicyGate.constructor | app/SignupView/usePrivacyPolicy.ts:5-7 | the hook starts in the initial flags |
| PrivacyPolicy.PolicyGate.HandleOpenPolicy | app/SignupView/usePrivacyPolicy.ts:9-11 | the flags move as `Step` says |
| PrivacyPolicy.PolicyGate.HandleClosePolicy | app/SignupView/usePrivacyPolicy.ts:13-15 | the flags move as `Step` says |
| PrivacyPolicy.PolicyGate.HandleScrollToPolicyBottom | app/SignupView/usePrivacyPolicy.ts:17-19 | the flags move as `Step` says |
| PrivacyPolicy.PolicyGate.HandleToggleAgreement | app/SignupView/usePrivacyPolicy.ts:21-25 | the flags move as `Step` says |
| PrivacyPolicy.PolicyGate.SetHasAgreedToPolicy | app/SignupView/usePrivacyPolicy.ts:35 | the raw setter bypasses the scroll gate |
| PrivacyPolicyModal.PolicyFor | app/SignupView/PrivacyPolicyModal.tsx:17 | the Chinese document is chosen exactly for the language code `zh` |
| PrivacyPolicyModal.IsCloseToBottom | app/SignupView/PrivacyPolicyModal.tsx:19-22 | an event is close to the bottom exactly when the content's end is at most 20 points past the visible part |
| PrivacyPolicyModal.BottomCallbacks | app/SignupView/PrivacyPolicyModal.tsx:19-25 | the callback fires at most once per scroll event, never exactly when no event is within the threshold, and for a single event exactly when it is within the threshold |
| PrivacyPolicyModal.BottomCallbacksAppend | app/SignupView/PrivacyPolicyModal.tsx:19-25 | the count over two scroll sequences played one after the other is the sum of their counts |
| PrivacyPolicyModal.EveryBottomEventFires | app/SignupView/PrivacyPolicyModal.tsx:19-25 | k qualifying events fire the callback k times: there is no de-duplication |
| PrivacyPolicyModal.ThresholdIsInclusive | app/SignupView/PrivacyPolicyModal.tsx:21 | the bottom is reached at exactly 20 points from the end and not beyond |
| PrivacyPolicyModal.CallbackOf | app/SignupView/PrivacyPolicyModal.tsx:32-47 | the close button and the back request both invoke `onClose` |
| ModalContext.InitialModal | app/ModalContext.tsx:8-13 | the modal starts hidden with no content |
| ModalContext.AppModal | app/ModalContext.tsx:15-20 | nothing is rendered exactly when the modal is not visible; the rendered modal shows the slot's content |
| ModalContext.ShownExactly | app/ModalContext.tsx:18-20 | the modal is on screen exactly when it is visible and its content is not `null` |
| ModalContext.ModalProvider.constructor | app/ModalContext.tsx:52-53 | the provider starts in the initial state |
| ModalContext.ModalProvider.SetModalVisible | app/ModalContext.tsx:52 | visibility changes and the content stays |
| ModalContext.ModalProvider.SetModalContent | app/ModalContext.tsx:53 | the content changes and visibility stays |
| ModalContext.ModalProvider.Dismiss | app/ModalContext.tsx:23-33 | both dismiss gestures hide the modal and keep its content |
| ModalContext.SetVisibleThrough | app/ModalContext.tsx:8-13 | with a provider the setter updates it; without one it does nothing |
| ModalContext.SetContentThrough | app/ModalContext.tsx:8-13 | with a provider the setter updates it; without one it does nothing |
| DatetimePicker.SplitOn | app/AddEventView/DatetimePicker/index.tsx:49 | `split` yields at least one piece, no piece holds the separator, and a string without it is one piece |
| DatetimePicker.SplitJoinRoundTrip | app/AddEventView/DatetimePicker/index.tsx:49 | joining the pieces with the separator gives the input back |
| DatetimePicker.SplitAtFirst | app/AddEventView/DatetimePicker/index.tsx:49 | the text before the first separator comes off as the first piece |
| DatetimePicker.Field | app/AddEventView/DatetimePicker/index.tsx:54-55 | a destructured element past the end is NaN; otherwise it is `Number` of the piece |
| DatetimePicker.LocalDate | app/AddEventView/DatetimePicker/index.tsx:56 | NaN in any argument gives an invalid date; otherwise month − 1, seconds 0, and years 0–99 taken as 1900 + year |
| DatetimePicker.ParseDatetimeLocal | app/AddEventView/DatetimePicker/index.tsx:48-57 | an input without `T` is rejected and logged; a forwarded valid date has seconds 0 |
| DatetimePicker.ParseParts | app/AddEventView/DatetimePicker/index.tsx:49-56 | a non-empty date part and time part around `T` are split on `-` and `:` into the five fields |
| DatetimePicker.RejectsEmptyParts | app/AddEventView/DatetimePicker/index.tsx:49-53 | with a `T` present, the input is rejected exactly when the date part before it or the time part after it is empty |
| DatetimePicker.SplitDate | app/AddEventView/DatetimePicker/index.tsx:54 | `YYYY-MM-DD` splits into year, month and day |
| DatetimePicker.SplitTime | app/AddEventView/DatetimePicker/index.tsx:55 | `HH:MM`, with or without seconds, yields hour and minute first |
| DatetimePicker.ParseWellFormed | app/AddEventView/DatetimePicker/index.tsx:48-57 | a well-formed value parses field by field, whatever seconds follow |
| DatetimePicker.Prefix | app/AddEventView/DatetimePicker/index.tsx:44 | `slice(0, n)` is a prefix of length min(n, length) |
| DatetimePicker.DisplayValue | app/AddEventView/DatetimePicker/index.tsx:41-45 | the shown value is the first 16 characters of the ISO text; an invalid date throws |
| DatetimePicker.DisplayShown | app/AddEventView/DatetimePicker/index.tsx:41-45 | a date with fields in range is shown as `YYYY-MM-DDTHH:MM`, each field zero-padded, the month one higher |
| DatetimePicker.ShownFields | app/AddEventView/DatetimePicker/index.tsx:54-56 | the shown fields build back the same date, seconds dropped, except that a year below 100 gains 1900 |
| DatetimePicker.DisplayParse | app/AddEventView/DatetimePicker/index.tsx:41-57 | showing a date with a year up to 9999 and parsing the shown text gives the date to the minute, a year below 100 coming back 1900 years later |
| DatetimePicker.DisplayParseRoundTrip | app/AddEventView/DatetimePicker/index.tsx:41-57 | showing a date with a year from 100 to 9999 and parsing the shown text gives the same date to the minute |
| DatetimePicker.TwoDigitYearsDoNotRoundTrip | app/AddEventView/DatetimePicker/index.tsx:41-57 | the year 50 comes back as 1950 |
| DatetimePicker.AndroidChange | app/AddEventView/DatetimePicker/index.tsx:14-17 | Android forwards the selection as it comes, with or without a date |
| DatetimePicker.AndroidForwardsMissingDate | app/AddEventView/DatetimePicker/index.tsx:14-17 | a change without a date is forwarded on Android and dropped on iOS; with a date both forward it |
| DatetimePicker.IosChange | app/AddEventView/DatetimePicker/index.tsx:115-117 | iOS forwards exactly when a date is present, and forwards that date |
| DatetimePicker.DatePicker.PressField | app/AddEventView/DatetimePicker/index.tsx:97 | pressing the field toggles the picker and forwards nothing |
| DatetimePicker.DatePicker.Close | app/AddEventView/DatetimePicker/index.tsx:71 | Close hides the picker and forwards nothing |
| DatetimePicker.DatePicker.WebInputChanged | app/AddEventView/DatetimePicker/index.tsx:47-58 | a parsed change forwards its date; a rejected one only logs the input |
| DatetimePicker.DatePicker.NativeChanged | app/AddEventView/DatetimePicker/index.tsx:14-17 | Android forwards every change, even without a date; iOS only a present date |
| AddEventView.TravelModeLabel | app/AddEventView/index.tsx:25-31 | a label exists exactly for modes 0 to 4, and it is the caption of the option with that value; otherwise reading it throws |
| AddEventView.TravelModeLabels | app/AddEventView/index.tsx:146 | mode 0 shows "Car", mode 4 "Flight", and the captions are distinct |
| AddEventView.SaveCheck | app/AddEventView/index.tsx:56-69 | the denylist runs first, then both texts present, then both times present; the first failure wins and all passing means no refusal |
| AddEventView.SaveCheckIgnoresTimeOrder | app/AddEventView/index.tsx:66-69 | swapping start and end never changes the verdict, so an end before the start is accepted |
| AddEventView.EventJson | app/AddEventView/index.tsx:76-83 | the payload is an object, so always truthy and always sent |
| AddEventView.EventPayload | app/AddEventView/index.tsx:76-83 | the payload carries the form's title, address and mode and the three ISO texts; any invalid date throws a RangeError |
| AddEventView.SaveAttempt | app/AddEventView/index.tsx:73-87 | without a token nothing is sent and "Not authenticated" is thrown; an invalid date throws before any call; otherwise create is always sent and fetch follows exactly when create succeeded; a failed create, a failed fetch or a nullish fetched value ends the attempt with its own error; the attempt succeeds exactly when both succeed and the fetched value is not nullish, and then carries that value |
| AddEventView.Check | app/AddEventView/index.tsx:56-69 | a form that passes the checks has a non-empty title and address free of denylisted patterns and both times |
| AddEventView.SavedAlert | app/AddEventView/index.tsx:88 | titled "Event Saved", with the message `Event "<title>" has been saved successfully!`, the title between the quotes |
| AddEventView.AttemptFor | app/AddEventView/index.tsx:72-87 | a missing or empty stored token sends nothing and throws "Not authenticated"; an invalid date sends nothing and throws; a successful attempt made both calls, the second fetching with the stored token, and carries the fetched events |
| AddEventView.NoTokenNoEvent | app/AddEventView/index.tsx:73-75 | without a stored token no HTTP request is made |
| AddEventView.FailureAlert | app/AddEventView/index.tsx:95-96 | the error alert shows the message, or "Failed to save event." when it is empty |
| AddEventView.BlankForm | app/AddEventView/index.tsx:89-94 | the reset form has empty texts, mode 0 and every date set to now |
| AddEventView.DisplayedErrorAsWritten | app/AddEventView/index.tsx:180 | the form shows an error line exactly when `errors.required` is non-empty, and the line is that text |
| AddEventView.ForbiddenMessageNeverShown | app/AddEventView/index.tsx:58 | the denylist refusal is stored under `password` and never shown |
| AddEventView.DisplayedError | app/AddEventView/index.tsx:56-65 | an error line is shown exactly when `required` or `password` is set; it is one of the stored messages, `required`'s when that is set |
| AddEventView.RefusalsAreShown | app/AddEventView/index.tsx:56-65 | both refusals that set `errors` are shown |
| AddEventView.TrySave | app/AddEventView/index.tsx:71-87 | the calls and the failure are those of `SaveAttempt`; the store is updated only when nothing was thrown |
| AddEventView.SubmitEvent | app/AddEventView/index.tsx:84-87 | create, fetch and `setEvents` in order, stopping at the first that throws |
| AddEventView.AddEventScreen.constructor | app/AddEventView/index.tsx:34-43 | the screen starts with a blank form, not loading, with no errors |
| AddEventView.AddEventScreen.ShownError | app/AddEventView/index.tsx:180 | the screen shows an error line exactly when `errors.required` is non-empty, and the line is that text |
| AddEventView.AddEventScreen.HandleSaveEvent | app/AddEventView/index.tsx:55-100 | a refused save changes only `errors` or the alerts and sends nothing; otherwise loading goes true then false, and the attempt ends in the saved alert, store update and reset, or in the error alert with form and store untouched |
| AddEventView.AddEventScreen.RunSave | app/AddEventView/index.tsx:70-99 | loading is set around the attempt and cleared whatever happens |
| AddEventView.AddEventScreen.Conclude | app/AddEventView/index.tsx:88-99 | the alert and the reset follow the failure, and `finally` clears loading |
| LoginView.LoginCheck | app/LoginView/index.tsx:19-30 | email, then password policy, then server address; the first failure wins and all passing means no error |
| LoginView.LegacyPasswordRefused | app/LoginView/index.tsx:23-26 | a six-character password that the older screen accepted is refused |
| LoginView.LoginRoute | app/LoginView/index.tsx:33-41 | no navigation exactly for a falsy profile; `/EmailVerify` with the token exactly when `is_activated === false`; `/(tabs)` otherwise |
| LoginView.MissingActivationFlagLetsIn | app/LoginView/index.tsx:36 | a missing flag, or 0, routes to `/(tabs)` |
| LoginView.LoginFailureText | app/LoginView/index.tsx:45-46 | the error is the thrown message, or "A server error occurred. Please try again." when it is empty |
| LoginView.MissingTokenReported | utils/fetchAPI.ts:40-42 | a login without a token shows "Invalid email or password" |
| LoginView.LoginScreen.constructor | app/LoginView/index.tsx:11-13 | the screen starts with empty email, password and error |
| LoginView.LoginScreen.ValidateAndLogin | app/LoginView/index.tsx:18-50 | a refused check sets its error and sends nothing; otherwise the login calls are made, the token is stored when one came back, the password is cleared, and the profile, route, fields and error follow the attempt |
| LoginView.LoginScreen.ConcludeLogin | app/LoginView/index.tsx:33-49 | the error, profile, route and field resets after the login settled |
| SignupView.SignupCheck | app/SignupView/index.tsx:21-40 | first name, last name, email, password policy, server address; the first failure wins |
| SignupView.HyphenatedLastNameRefused | app/SignupView/index.tsx:21-28 | a hyphenated name passes as a first name and is refused as a last name |
| SignupView.SignupRoute | app/SignupView/index.tsx:57-61 | `/EmailVerify` with `data.token` exactly when `is_activated === false`, `/(tabs)` otherwise |
| SignupView.SignupFailureText | app/SignupView/index.tsx:62-63 | the thrown message, or the translated general error when it is empty |
| SignupView.ServerMessageReported | utils/fetchAPI.ts:67-69 | a registration answered without data shows the server's message |
| SignupView.SignupScreen.constructor | app/SignupView/index.tsx:11-15 | the screen starts with every field and the error empty |
| SignupView.SignupScreen.ValidateAndSignup | app/SignupView/index.tsx:20-67 | a refused check sets its error and sends nothing; otherwise one request; on success every field and the error are cleared, the token is stored, the profile dispatched and the route pushed; on failure only the error and the password change; the password is cleared in every case |
| SignupView.SignupScreen.ConcludeSignup | app/SignupView/index.tsx:51-66 | the resets, route and error after the signup settled |
| LegacyLoginView.LegacyLoginCheck | app/LoginView.tsx:12-23 | a bad email shape, then a password whose `length` is below 6; the first failure wins; no message exactly when both pass |
| LegacyLoginView.EmptyErrorIsHidden | app/LoginView.tsx:60-69 | a cleared error is shown under no field |
| LegacyLoginView.InvalidEmailShownUnderEmail | app/LoginView.tsx:60-69 | the email error is shown under the email field and not under the password field |
| LegacyLoginView.ShortPasswordShownUnderPassword | app/LoginView.tsx:60-69 | the password error is shown under the password field and not under the email field |
| LegacyLoginView.LegacyLoginScreen.constructor | app/LoginView.tsx:7-9 | the screen starts with empty email, password and error |
| LegacyLoginView.LegacyLoginScreen.ValidateAndLogin | app/LoginView.tsx:12-23 | a failed check sets its message and stays; otherwise the error is cleared and the screen navigates to `index`; the fields never change |
| LegacySignupView.LegacySignupCheck | app/SignupView.tsx:14-33 | first name, last name, email, then a password `length` below 6; the first failure wins; no message exactly when all four pass |
| LegacySignupView.HyphenatedLastNameRefused | app/SignupView.tsx:15-22 | a hyphenated last name is refused though it would pass as a first name |
| LegacySignupView.FirstNameErrorOffLastName | app/SignupView.tsx:51 | the first-name error is not shown under the last-name field |
| LegacySignupView.FirstNameErrorOffPassword | app/SignupView.tsx:69 | the first-name error is not shown under the password field |
| LegacySignupView.FirstNameErrorOffEmail | app/SignupView.tsx:60 | the first-name error is not shown under the email field |
| LegacySignupView.FirstNameErrorShownUnderFirstName | app/SignupView.tsx:43-69 | the first-name error is shown under the first-name field only |
| LegacySignupView.LastNameErrorOffFirstName | app/SignupView.tsx:43 | the last-name error is not shown under the first-name field |
| LegacySignupView.LastNameErrorOffPassword | app/SignupView.tsx:69 | the last-name error is not shown under the password field |
| LegacySignupView.LastNameErrorOffEmail | app/SignupView.tsx:60 | the last-name error is not shown under the email field |
| LegacySignupView.LastNameErrorShownUnderLastName | app/SignupView.tsx:43-69 | the last-name error is shown under the last-name field only |
| LegacySignupView.InvalidEmailNotShownUnderNames | app/SignupView.tsx:43-51 | the email error is shown under neither name field |
| LegacySignupView.ShortPasswordOffFirstName | app/SignupView.tsx:43 | the password error is not shown under the first-name field |
| LegacySignupView.ShortPasswordOffLastName | app/SignupView.tsx:51 | the password error is not shown under the last-name field |
| LegacySignupView.ShortPasswordNotShownUnderNames | app/SignupView.tsx:43-51 | the password error is shown under neither name field |
| LegacySignupView.LegacySignupScreen.constructor | app/SignupView.tsx:7-11 | the screen starts with every field and the error empty |
| LegacySignupView.LegacySignupScreen.ValidateAndSignup | app/SignupView.tsx:14-33 | a failed check sets its message and stays; otherwise the error is cleared and the screen navigates to `index` |
| EmailVerify.ParamValue | app/EmailVerify/index.tsx:13 | a missing parameter is `undefined`, one value a string, several an array of the same length and values |
| EmailVerify.UserToken | app/EmailVerify/index.tsx:14 | the token is `undefined` exactly for a missing parameter or an empty array, otherwise a string, the first one of an array |
| EmailVerify.UserTokenOfParamValue | app/EmailVerify/index.tsx:14 | the token is the first element of an array parameter (`undefined` for an empty one) and the parameter itself otherwise |
| EmailVerify.TokenText | app/EmailVerify/index.tsx:14 | the token text is the single value or the first of several; a missing token is spelled "undefined" |
| EmailVerify.CodeAccepted | app/EmailVerify/index.tsx:36-37 | the code counts as accepted exactly when `data.success === true`; a failed request or missing `data` throws |
| EmailVerify.VerifyEndOf | app/EmailVerify/index.tsx:36-46 | verified exactly when the code was accepted and the update went through, storing the update's `data`; refused exactly when `success` is not `true`; a failure otherwise |
| EmailVerify.VerifyCalls | app/EmailVerify/index.tsx:36-38 | the code check is always sent; the activation update is sent exactly when the code was accepted |
| EmailVerify.ActivationSendsFlag | app/EmailVerify/index.tsx:38 | the update sends `{is_activated: true}` with the same bearer header as the code check |
| EmailVerify.MissingTokenSentAsUndefined | app/EmailVerify/index.tsx:14-36 | a screen opened without a token sends "Bearer undefined" |
| EmailVerify.ResendMessage | app/EmailVerify/index.tsx:66-74 | the "already sent" notice exactly when `data.message` is "Verification email sent"; the failure text in every other case |
| EmailVerify.RedirectOnActivation | app/EmailVerify/index.tsx:79-83 | a push to `/(tabs)` with the raw parameter exactly when the profile exists, `is_activated === true` and the parameter is truthy |
| EmailVerify.EmptyTokenListStillRedirects | app/EmailVerify/index.tsx:79-83 | an empty array parameter still redirects, though the requests would carry no token |
| EmailVerify.TruthyFlagDoesNotRedirect | app/EmailVerify/index.tsx:80 | an activation flag of 1 does not redirect |
| EmailVerify.ConfirmCode | app/EmailVerify/index.tsx:36-46 | the calls are `VerifyCalls`, and lines, profile and navigation follow `VerifyEndOf` |
| EmailVerify.RequestResend | app/EmailVerify/index.tsx:66-74 | one resend request, and the line `ResendMessage` gives |
| EmailVerify.EmailVerifyScreen.constructor | app/EmailVerify/index.tsx:18-22 | the screen starts with an empty code and lines, not loading |
| EmailVerify.EmailVerifyScreen.HandleVerify | app/EmailVerify/index.tsx:26-50 | without a server address: the error, no request, loading reset twice; otherwise the calls of `VerifyCalls`, and lines, stored profile and navigation as `VerifyEndOf` says; loading always ends false |
| EmailVerify.EmailVerifyScreen.HandleResend | app/EmailVerify/index.tsx:51-77 | without a server address or a user: the error and no request; otherwise one request with the profile's email, cleared success line and the `ResendMessage` line |
| EmailVerify.EmailVerifyScreen.RedirectIfActivated | app/EmailVerify/index.tsx:79-83 | the effect performs the navigation `RedirectOnActivation` gives, and no other |
| DeleteEventButton.DeleteEndOf | app/DeleteEventHeaderButton.tsx:22-33 | the guard fails exactly without an id or a token; each later stage is reached exactly when all earlier ones succeeded |
| DeleteEventButton.DeleteCalls | app/DeleteEventHeaderButton.tsx:23-25 | no call past a failed guard; the delete first, then the reload, only after a successful delete |
| DeleteEventButton.FailedRefetchKeepsCurrentEvent | app/DeleteEventHeaderButton.tsx:24-33 | a failed reload leaves the current event and the modal as they were |
| DeleteEventButton.DeletionIsAllOrNothing | app/DeleteEventHeaderButton.tsx:24-30 | the current event is cleared, and the screen navigates, exactly when every step ran |
| DeleteEventButton.DeleteEventHeaderButton.constructor | app/DeleteEventHeaderButton.tsx:15 | the button starts not deleting |
| DeleteEventButton.DeleteEventHeaderButton.HandleDelete | app/DeleteEventHeaderButton.tsx:19-36 | `deleting` goes true then false; the calls follow `DeleteCalls`; the list, current event, modal and route change only when every step ran |
| DeleteEventButton.DeleteEventHeaderButton.DeleteSteps | app/DeleteEventHeaderButton.tsx:21-33 | the guard, then the steps in order, stopping at the first that throws |
| DeleteEventButton.DeleteEventHeaderButton.PressIcon | app/DeleteEventHeaderButton.tsx:40-50 | the content is set first, with visibility unchanged, and the modal is then shown |
| DeleteEventButton.DeleteEventHeaderButton.Cancel | app/DeleteEventHeaderButton.tsx:46 | cancel hides the modal and keeps its content |
| EventDetailView.AddressShown | app/EventDetailView.tsx:73 | the location's address when it is truthy, the event's own address otherwise |
| EventDetailView.FlatAddressWithoutLocation | app/EventDetailView.tsx:73 | an event without a location shows its own address |
| EventDetailView.TravelModeShown | app/EventDetailView.tsx:77 | always truthy; a truthy mode is shown as it is; "N/A" exactly when the mode is falsy (or is itself "N/A") |
| EventDetailView.ZeroTravelModeShownAsMissing | app/EventDetailView.tsx:77 | a travel mode of 0 shows the same as a missing one |
| EventDetailView.WeatherText | app/EventDetailView.tsx:82 | the weather's text when truthy, "N/A" otherwise |
| EventDetailView.UnitText | app/EventDetailView.tsx:84 | a truthy unit is shown as its string; a falsy one as "C" |
| EventDetailView.TemperatureSuffix | app/EventDetailView.tsx:83-85 | the suffix is empty exactly when the temperature is `undefined` or `null`; otherwise it is ", ", the temperature's string, the sign and the unit text, in that order |
| EventDetailView.WeatherLineAsWritten | app/EventDetailView.tsx:82-85 | without a temperature the line is the weather text; with one it is the weather text, ", ", the temperature, "Â°" and the unit text |
| EventDetailView.StrayCharacterBeforeDegree | app/EventDetailView.tsx:84 | the line as written differs from the intended one exactly when a temperature is shown, with U+00C2 before the degree sign |
| EventDetailView.WeatherLine | app/EventDetailView.tsx:82-85 | without a temperature the line is the weather text; with one it is the weather text, ", ", the temperature, "°" and the unit text |
| EventDetailView.DegreeSignPrecedesUnit | app/EventDetailView.tsx:83-85 | with a temperature the line ends in the degree sign followed by the unit |
| EventDetailView.ZeroTemperatureShown | app/EventDetailView.tsx:83-84 | a temperature of 0 with no unit reads ", 0°C" |
| EventDetailView.MountRedirect | app/EventDetailView/_layout.tsx:9-12 | a replace by `/LoginView` exactly when no non-empty token is stored, and nothing otherwise |
| EventDetailView.EventDetailLayout.constructor | app/EventDetailView/_layout.tsx:6-8 | the mount effect has not run |
| EventDetailView.EventDetailLayout.AfterRender | app/EventDetailView/_layout.tsx:8-14 | the effect runs after the first render only, performing `MountRedirect`; later renders navigate nowhere |

## Left out

- The network. `fetch` and `response.json()` are replaced by outcomes given as parameters. `fetchEvents` and `deleteEvent` are imported by the screens but defined in no file of this model, so they are oracles too.
- `JSON.stringify`. Request bodies are kept as the value that would be serialised.
- The text of a thrown error as the platform prints it. Only the error's name and message are kept.
- Numbers are integers. The scroll measurements of the privacy-policy modal are reals. Fractional temperatures and NaN values in JSON bodies are not modelled.
- Time zones and locale formatting. The device time zone is taken to be UTC, so the local shift before `toISOString` in the date picker is zero. `formatEventTime`, `toLocaleDateString` and `toLocaleTimeString` are left out, because they belong to date libraries and platform locales.
- DatetimePicker.LocalDate: fields outside their ranges (month 13, minute 75) are kept as given. JavaScript would carry them into the next field.
- DatetimePicker.LocalDate: the ±8.64e15 ms range of a JavaScript `Date` is not modelled. `new Date(300000, 0, 1)` is an Invalid Date in JavaScript but a valid date here.
- JsValues.ToNumber: only decimal digit strings are read as numbers. Signs, surrounding whitespace, decimals, hexadecimal and exponents, which JavaScript's `Number` accepts (`"+7"`, `" 7"`, `"1.5"`, `"0x1A"`, `"1e3"`), read as NaN here. Only the digit fields of a datetime-local value reach it.
- Translation. An i18n key is kept as `Translated(key)`; the text `t(key)` resolves to is not part of this model.
- React's render cycle.
  - State updates are applied at once and in program order; batching and the re-render between two `await`s are not modelled.
  - Each handler's `loading`/`deleting` history records the values set, not the frames rendered.
  - The order of effects across separate objects (router, store, storage) within one handler is not recorded, only their final states. `PressIcon` is the exception, because its order is the point of the property.
- Concurrency. Two handlers running at once (a double tap on Save, for example) are not modelled.
- Logging. `console.log` and `console.error` are not modelled, except the date picker's rejected input, which is recorded.
- The profile slices. `Redux/features/profileSlice` and `app/profileSlice` are not part of this model. `setProfile` is taken to replace `state.profile.profile`, and one profile slot serves both stores.
- The events slice of `app/eventsSlice`. It is imported by the add-event screen but is not part of this model. It is taken to be the reducer of `Redux/features/eventsSlice.ts`.
- The `deleting` prop of the delete confirmation modal. The modal content is a snapshot taken when the icon is pressed, and the model keeps only which component it is.
- EventDetailView.AddressShown, TravelModeShown: return the value `<Text>` renders. How React prints a non-string child is not modelled.
- The route parameter `event` of the detail screen is required to be an object: the screen reads `event.timezone` before any of the modelled fields and would throw otherwise.
- FetchApi.LoginAndFetchProfile: the token is stored as `String(token)`, which is what the web branch of `saveData` (`localStorage.setItem`) keeps. On native, `SecureStore.setItemAsync` rejects a value that is not a string (a missing `data.token`, say), and the source then throws before it dispatches or navigates. `utils/storage.tsx` is not part of this model.
- FetchApi.SignupAndFetchProfile: the token is stored as `String(token)`, which is what the web branch of `saveData` (`localStorage.setItem`) keeps. On native, `SecureStore.setItemAsync` rejects a value that is not a string (a missing `data.token`, say), and the source then throws before it dispatches or navigates. `utils/storage.tsx` is not part of this model.
- DeleteEventButton.DeleteEventHeaderButton.HandleDelete: the source's confirm handler is a closure made when the icon is pressed, so it deletes the event that was current at that press. The model reads the current event from the store when the deletion is confirmed.
- `SetCode` and the other `onChangeText` setters only replace one field and are not modelled as members.

## Findings

| source | as written | input that shows it | evidently intended | confidence | as-written member | corrected member |
|---|---|---|---|---|---|---|
| app/EventDetailView.tsx:84 | the template holds the bytes C3 82 C2 B0, that is "Â°", between the temperature and its unit | an event with temperature 20 and no unit shows "N/A, 20Â°C" | "°" alone, as app/EventDetailView/[eventId].tsx:102 prints it | high; not executed | EventDetailView.WeatherLineAsWritten | EventDetailView.WeatherLine |
| app/AddEventView/index.tsx:58 | the denylist refusal is stored as `errors.password`, but the form renders only `errors.required` (line 180) | a title "Trip; DROP TABLE events" sets an error that is never displayed | the refusal is shown to the user, like the missing-field message | medium; not executed | AddEventView.DisplayedErrorAsWritten | AddEventView.DisplayedError |
