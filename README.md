# Notification client core, modelled in Dafny

This project models the client-side core of an Angular notification application:

- the session store of `AuthService`: tokens and the cached user in `localStorage`, and
  the current-user and authenticated `BehaviorSubject`s;
- the notification projection of `NotificationService`: the stats value, the ordered
  effects of each inbound event, the toast option mapping, the list query parameters and
  the topic wiring;
- the decision logic of the sign-up form: the declared field rules, the password-match
  validator, the `isSubmitting` guard, the error mapping and the template helpers;
- the header's reconnect check, its disconnect on destroy and its sidebar toggle;
- the system-notification card's source heuristic, icon and badges;
- the notification records and enumerations.

Where the code's behaviour and its documented intent part, the model follows the code. For
example, at start-up the service restores the stored user whatever the token's expiry, so
it can hold a current user while it reports itself unauthenticated
(`Auth.StoredUserOutlivesExpiredToken`).

State that the code changes in place is modelled as Dafny classes whose methods name what
they modify. Decision logic is pure functions with lemmas.

Three kinds of collaborator calls are recorded, in call order, as `Effect` values on the
object that makes them:

- HTTP requests;
- WebSocket calls and toasts;
- sounds and navigations.

An asynchronous answer is a later method call that receives the answer as an argument:

- `CompleteProfileLoad` and `CompleteStatsLoad`;
- `OnRegisterSuccess` and `OnRegisterError`;
- `FireDeferredOpen`, the 50 ms timer.

A `BehaviorSubject` is its initial value plus the log of values pushed with `next`. Its
`value` is the last one pushed.

Other parameters stand for things the code calls out to:

- Base64 and JSON decoding of the token payload are `parsePayload`.
- JSON parsing and writing of the stored user are `parseUser` and `serializeUser`.
- The clock is `nowMs`.
- `Date.prototype.toString` is `showDate`.

Files:

- `wrappers.dfy`: `Option`, `Result`.
- `routes.dfy`: the sign-in route that both sign-out and registration navigate to.
- `toastr.dfy`: the toast record shared by the notification service and the sign-up form.
- `text.dfy`: the JavaScript string operations the core relies on:
  - `includes`;
  - `toLowerCase`;
  - `length` in UTF-16 code units;
  - `Number.prototype.toString` on integers of magnitude below 10^21.
- `rx.dfy`: the `BehaviorSubject` model.
- `notification_model.dfy`: the records.
- `auth_service.dfy`, `notification_service.dfy`, `signup.dfy`, `header_sidebar.dfy`,
  `system_notification.dfy`: one file per core source file.

## Model

| member | source | states |
|---|---|---|
| NotificationModel.TypeOfWire | src/app/models/notification.model.ts:3-7 | reading a wire string gives the member whose value it is, and any other string is kept, so the name of the result is the input |
| NotificationModel.PriorityOfWire | src/app/models/notification.model.ts:9-13 | the same for priorities |
| NotificationModel.PriorityWireRoundTrip | src/app/models/notification.model.ts:9-13 | writing a priority as it can arrive on the wire and reading it back gives the same priority |
| NotificationModel.TypeWireRoundTrip | src/app/models/notification.model.ts:3-7 | the same for notification types |
| Rx.Create | src/app/services/notification.service.ts:26-31 | a new subject's value is its initial value and nothing has been emitted |
| Rx.Behavior.Next | src/app/services/notification.service.ts:60 | after `next(x)` the value is `x` and `x` is appended to the emission log |
| Text.Includes | src/app/views/notification/system-notification/system-notification.component.ts:26-34 | `includes` is true iff the needle occurs at some position of the text |
| Text.ToLowerCase | src/app/views/notification/system-notification/system-notification.component.ts:24 | the result has the input's length and is the character-wise lower-casing |
| Text.NatToDecimal | src/app/views/sessions/signup/signup.component.ts:121-122 | the text of a count is one or more decimal digits without a leading zero |
| Text.IntToDecimal | src/app/services/notification.service.ts:140 | a non-negative number's text is its digits; a negative one's is a minus sign before the digits of its magnitude |
| Text.DecimalRoundTrip | src/app/views/sessions/signup/signup.component.ts:121-122 | reading the decimal text back gives the number |
| Text.Utf16Length | src/app/views/sessions/signup/signup.component.ts:27-57 | a string's `length` is between its character count and twice that |
| Text.Utf16LengthOfBmp | src/app/views/sessions/signup/signup.component.ts:27-57 | on Basic Multilingual Plane text, `length` is the character count |
| Auth.TokensStored | src/app/services/auth.service.ts:182-187 | the access token is always written; the refresh token is written only when the response's is non-empty, otherwise the stored one is kept; no other key changes |
| Auth.UserStored | src/app/services/auth.service.ts:192-194 | the user's JSON text is stored under `user` and no other key changes |
| Auth.UserFromStorage | src/app/services/auth.service.ts:199-210 | no user when `user` is missing or empty, otherwise the parse of the stored text, which is no user when it does not parse |
| Auth.StoredUserIsRestored | src/app/services/auth.service.ts:192-210 | a stored user is read back when its JSON text is non-empty and parses to the same user |
| Auth.DecodeToken | src/app/services/auth.service.ts:215-231 | a malformed payload gives no user; otherwise id is `userId` or else `sub`, email is `email` or else `sub`, first and last names default to empty, the phone is empty, and roles default to empty |
| Auth.SubjectStandsInForMissingClaims | src/app/services/auth.service.ts:219-221 | without `userId` and `email` claims, both id and email are the subject |
| Auth.HasValidToken | src/app/services/auth.service.ts:236-248 | false with no token, an empty token, a malformed payload or no `exp`; when valid, `nowMs < exp*1000`; when `exp*1000` is inside the Date range, exactly that comparison |
| Auth.StoredUserOutlivesExpiredToken | src/app/services/auth.service.ts:39-50 | with a parseable stored user and an expired token, start-up restores that user and reports no valid token |
| Auth.UserHasRole | src/app/services/auth.service.ts:144-147 | no user or no role list gives false; true only when the role is in the user's list |
| Auth.SomeHeld | src/app/services/auth.service.ts:155 | `some(r => held.includes(r))` is true iff some candidate is held |
| Auth.UserHasAnyRole | src/app/services/auth.service.ts:144-156 | `hasAnyRole` is true iff `hasRole` holds for some listed role, so it is false for an empty list or no user |
| Auth.ClearSession | src/app/services/auth.service.ts:280-283 | all three session keys are gone and every other key is kept |
| Auth.SignedOut | src/app/services/auth.service.ts:280-288 | after sign-out no session key is stored, `sessionStorage` is empty, the user is `null` and the flag is false |
| Auth.SignoutIdempotent | src/app/services/auth.service.ts:271-292 | signing out twice leaves the same storage and subject values as signing out once |
| Auth.ReloadAfterSignoutIsAnonymous | src/app/services/auth.service.ts:39-50 | a service built on the storage left by sign-out has no user and no valid token, whatever the clock and parsers |
| Auth.AuthService.constructor | src/app/services/auth.service.ts:39-50 | the user subject starts with the stored user, the flag subject with `hasValidToken()`, and only a valid token requests the profile |
| Auth.AuthService.GetToken | src/app/services/auth.service.ts:116-118 | the stored access token, or `null` when the key is absent |
| Auth.AuthService.GetRefreshToken | src/app/services/auth.service.ts:123-125 | the stored refresh token, or `null` when the key is absent |
| Auth.AuthService.GetCurrentUser | src/app/services/auth.service.ts:130-132 | the last user pushed into the subject, or the one it started with |
| Auth.AuthService.IsAuthenticated | src/app/services/auth.service.ts:137-139 | true only with a non-empty stored token whose payload parses and whose `exp` lies after the clock |
| Auth.AuthService.HasRole | src/app/services/auth.service.ts:144-147 | false without a current user; otherwise true iff the user has a role list containing the role |
| Auth.AuthService.HasAnyRole | src/app/services/auth.service.ts:152-156 | true iff `hasRole` holds for some listed role, so false for an empty list or without a current user |
| Auth.AuthService.GetUserFromStorage | src/app/services/auth.service.ts:199-210 | no user when the `user` key is missing or empty, otherwise the parse of the stored text |
| Auth.AuthService.StoreTokens | src/app/services/auth.service.ts:182-187 | `localStorage` becomes `TokensStored` of its old value |
| Auth.AuthService.StoreUser | src/app/services/auth.service.ts:192-194 | `localStorage` becomes `UserStored` of its old value |
| Auth.AuthService.LoadCurrentUser | src/app/services/auth.service.ts:253-268 | one profile request is logged |
| Auth.AuthService.CompleteProfileLoad | src/app/services/auth.service.ts:259-265 | a profile is stored and published; an error changes nothing |
| Auth.AuthService.HandleAuthenticationResponse | src/app/services/auth.service.ts:161-177 | tokens are always stored and `true` is always published; the decoded user is stored and published only when decoding succeeds; a profile load follows |
| Auth.AuthService.Signin | src/app/services/auth.service.ts:56-67 | a failed login leaves storage and both subjects as they were and logs only the request; a successful one stores and publishes exactly as `handleAuthenticationResponse` does, so the tokens are stored, `true` is published, and the decoded user is stored and published when the token decodes |
| Auth.AuthService.Signout | src/app/services/auth.service.ts:271-292 | the new session view is `SignedOut` of the old one, `null` and `false` are emitted, and this holds even when the disconnect throws |
| Auth.AuthService.RefreshToken | src/app/services/auth.service.ts:88-111 | without a refresh token it signs out and fails before any request; a failed request signs out and fails; a success stores the new tokens and changes nothing else |
| Notifications.ToastFor | src/app/services/notification.service.ts:89-113 | urgent gives an error that never auto-dismisses, normal a warning, low and other priorities info with 5000 ms; the title is "New " plus the type and the message is the notification's |
| Notifications.QueryParams | src/app/services/notification.service.ts:136-143 | a key is a parameter iff some entry with that key has a value that is neither `null` nor `undefined`; with distinct keys, each such key maps to its value's text |
| Notifications.BuildParams | src/app/services/notification.service.ts:134-143 | the loop builds exactly `QueryParams` of the filter's entries, and no filter gives no parameters |
| Notifications.ParamOfEntry | src/app/services/notification.service.ts:137-142 | with distinct keys, an entry's key is a parameter iff its value is present, and then holds its text |
| Notifications.FilterEntriesDistinct | src/app/models/notification.model.ts:41-51 | a typed filter has its nine property names, once each |
| Notifications.TypedFilterEnumParams | src/app/services/notification.service.ts:137-142 | status, type, priority and sort direction become parameters iff set, holding the member's value |
| Notifications.TypedFilterOtherParams | src/app/services/notification.service.ts:137-142 | dates, page, size and sort key become parameters iff set; page and size hold their `toString` text, with a minus sign when negative |
| Notifications.TypedFilterKeys | src/app/services/notification.service.ts:137-142 | a typed filter gives no parameter outside its nine property names |
| Notifications.NewNotificationEffects | src/app/services/notification.service.ts:72-84 | an inbound notification causes an emission, its toast, a stats reload and the sound, in that order |
| Notifications.ConnectEffects | src/app/services/notification.service.ts:45-67 | the connect is always requested; the two per-user topics are subscribed iff the connect result is true |
| Notifications.StatsReloadsAppend | src/app/services/notification.service.ts:72-84 | reload counts add up over concatenated logs |
| Notifications.OneReloadPerNotification | src/app/services/notification.service.ts:72-84 | each inbound notification adds exactly one stats reload |
| Notifications.NotificationService.constructor | src/app/services/notification.service.ts:26-31 | the stats start at four zeros |
| Notifications.NotificationService.InitializeWebSocket | src/app/services/notification.service.ts:45-67 | the log grows by `ConnectEffects` |
| Notifications.NotificationService.OnStatsMessage | src/app/services/notification.service.ts:57-62 | the received record replaces the stats wholesale |
| Notifications.NotificationService.HandleNewNotification | src/app/services/notification.service.ts:72-84 | the log grows by `NewNotificationEffects` |
| Notifications.NotificationService.LoadNotificationStats | src/app/services/notification.service.ts:171-176 | one stats request is logged |
| Notifications.NotificationService.CompleteStatsLoad | src/app/services/notification.service.ts:174 | the answer replaces the stats wholesale |
| Notifications.NotificationService.GetNotifications | src/app/services/notification.service.ts:133-146 | the request carries `QueryParams` of the filter |
| Notifications.NotificationService.MarkAsRead | src/app/services/notification.service.ts:151-156 | one mark request, then one stats reload iff it succeeded |
| Notifications.NotificationService.MarkAllAsRead | src/app/services/notification.service.ts:161-166 | one mark-all request, then one stats reload iff it succeeded |
| Notifications.NotificationService.GetCurrentStats | src/app/services/notification.service.ts:181-183 | the last stats record pushed, or the zeros the subject started with |
| Notifications.NotificationService.Disconnect | src/app/services/notification.service.ts:188-190 | one disconnect is logged |
| Signup.PhonePattern | src/app/views/sessions/signup/signup.component.ts:45 | a matching number has 2 to 16 characters, digits after the first, and does not end in a plus sign |
| Signup.PhonePatternExamples | src/app/views/sessions/signup/signup.component.ts:45 | the plus sign is optional, a leading zero, one digit, sixteen digits, a dash or two plus signs are refused |
| Signup.PasswordPattern | src/app/views/sessions/signup/signup.component.ts:51 | a matching password has at least four characters, one per required class |
| Signup.PasswordPatternAccepts | src/app/views/sessions/signup/signup.component.ts:51 | one character of each class suffices, and a space counts as special |
| Signup.PasswordPatternRejects | src/app/views/sessions/signup/signup.component.ts:51 | a missing class, an underscore as the only special character, or a line break is refused |
| Signup.MinLengthError | src/app/views/sessions/signup/signup.component.ts:29 | no error on the empty value; the error carries the required length; values of at least that many characters pass |
| Signup.MaxLengthError | src/app/views/sessions/signup/signup.component.ts:30 | the error carries the allowed length; more characters than that always fail |
| Signup.PatternError | src/app/views/sessions/signup/signup.component.ts:45 | no error on the empty value or a matching one |
| Signup.DeclaredErrors | src/app/views/sessions/signup/signup.component.ts:26-58 | unknown fields have no errors; `required` iff the value is empty; the empty value carries no other key; only `email` carries the e-mail error and only the phone and password carry a pattern error |
| Signup.PasswordMatchValidator | src/app/views/sessions/signup/signup.component.ts:64-72 | a mismatch iff both controls exist and their values differ |
| Signup.FormValid | src/app/views/sessions/signup/signup.component.ts:75 | a valid form has no control with errors and a confirmation equal to the password |
| Signup.IsFieldInvalid | src/app/views/sessions/signup/signup.component.ts:111-114 | an unknown field is not invalid, and an invalid field makes the form invalid |
| Signup.ValidFormMeetsDeclaredRules | src/app/views/sessions/signup/signup.component.ts:26-58 | a valid form has names of 1 to 50 characters, a non-empty e-mail, a phone number of the `^\+?[1-9]\d{1,14}$` shape, a password of 8 to 72 characters with the four classes, and a matching confirmation |
| Signup.ControlValidIffRuleMet | src/app/views/sessions/signup/signup.component.ts:27-57 | a control has no error key iff its value meets its field's declared rule |
| Signup.FormValidIffRulesMet | src/app/views/sessions/signup/signup.component.ts:26-58 | the form is valid iff every value meets its rule and the confirmation equals the password |
| Signup.GetFieldError | src/app/views/sessions/signup/signup.component.ts:116-133 | on a touched field the first of required, email, minlength, maxlength and pattern with a message wins; otherwise the mismatch message for `confirmPassword` only, and otherwise empty |
| Signup.ShownErrorMeansInvalid | src/app/views/sessions/signup/signup.component.ts:111-133 | a shown message implies `isFieldInvalid`, except the mismatch message on `confirmPassword` |
| Signup.RegistrationErrorToast | src/app/views/sessions/signup/signup.component.ts:89-95 | a 400 with a message shows it; a 409 shows the duplicate-email text; anything else shows the generic text |
| Signup.InitialControls | src/app/views/sessions/signup/signup.component.ts:26-58 | the initial form follows the declared rules and is invalid |
| Signup.SignupComponent.constructor | src/app/views/sessions/signup/signup.component.ts:26-58 | the six empty untouched controls, not submitting |
| Signup.SignupComponent.InputValue | src/app/views/sessions/signup/signup.component.ts:26-58 | a typed value replaces the control's value and its errors are recomputed by the declared rules |
| Signup.SignupComponent.OnSubmit | src/app/views/sessions/signup/signup.component.ts:74-107 | a request is made only for a valid form while not submitting, with `isSubmitting` set; otherwise every control becomes touched, a warning is shown and `isSubmitting` keeps its value |
| Signup.SignupComponent.MarkAllAsTouched | src/app/views/sessions/signup/signup.component.ts:103-105 | every control becomes touched and nothing else changes |
| Signup.SignupComponent.OnRegisterSuccess | src/app/views/sessions/signup/signup.component.ts:81-99 | success toast, navigation to sign-in, then `isSubmitting` is false |
| Signup.SignupComponent.OnRegisterError | src/app/views/sessions/signup/signup.component.ts:85-96 | only the error toast is shown; `isSubmitting` is not reset |
| HeaderSidebar.Toggle | src/app/shared/components/layouts/admin-layout-sidebar-large/header-sidebar-large/header-sidebar-large.component.ts:50-70 | both open closes the child nav only; sidenav alone open closes it; both closed opens the sidenav once, and schedules the child nav iff the item is a drop-down; sidenav closed with child nav open changes nothing |
| HeaderSidebar.PlainItemRoundTrip | src/app/shared/components/layouts/admin-layout-sidebar-large/header-sidebar-large/header-sidebar-large.component.ts:55-69 | for an item without children, two toggles return to both closed |
| HeaderSidebar.DropDownRoundTrip | src/app/shared/components/layouts/admin-layout-sidebar-large/header-sidebar-large/header-sidebar-large.component.ts:50-70 | for a drop-down, toggle, timer and two more toggles return to both closed |
| HeaderSidebar.QuickSecondToggleStrandsChildnav | src/app/shared/components/layouts/admin-layout-sidebar-large/header-sidebar-large/header-sidebar-large.component.ts:50-70 | a second toggle before the timer leaves the child nav open with the sidenav closed, where further toggles change nothing |
| HeaderSidebar.ShouldReconnect | src/app/shared/components/layouts/admin-layout-sidebar-large/header-sidebar-large/header-sidebar-large.component.ts:44 | no reconnect while connected, without a user, with an empty user id or without a non-empty token |
| HeaderSidebar.HeaderSidebarLarge.NgOnInit | src/app/shared/components/layouts/admin-layout-sidebar-large/header-sidebar-large/header-sidebar-large.component.ts:25-48 | `initializeWebSocket(user.id, token)` is called iff there is a user with a non-empty id, a non-empty token and no connection; otherwise nothing is logged |
| HeaderSidebar.HeaderSidebarLarge.NgOnDestroy | src/app/shared/components/layouts/admin-layout-sidebar-large/header-sidebar-large/header-sidebar-large.component.ts:33-37 | the channel is always disconnected |
| HeaderSidebar.HeaderSidebarLarge.Signout | src/app/shared/components/layouts/admin-layout-sidebar-large/header-sidebar-large/header-sidebar-large.component.ts:72-74 | the session view becomes `SignedOut` of the old one, `null` and `false` are pushed into the two subjects, and the effects are those of `signout` |
| HeaderSidebar.HeaderSidebarLarge.ToggleSidebar | src/app/shared/components/layouts/admin-layout-sidebar-large/header-sidebar-large/header-sidebar-large.component.ts:50-70 | the shared sidebar state becomes `Toggle` of the old one, with one more pending open iff one is scheduled; with no selected item it throws and changes nothing |
| HeaderSidebar.HeaderSidebarLarge.FireDeferredOpen | src/app/shared/components/layouts/admin-layout-sidebar-large/header-sidebar-large/header-sidebar-large.component.ts:62-64 | the timer opens the child nav whatever the panels are by then |
| SystemNotification.FirstMatchIsLeastMatch | src/app/views/notification/system-notification/system-notification.component.ts:26-38 | the first-match rule gives the source of the matching rule of least index, and the fallback only when no rule matches |
| SystemNotification.SystemSourceOf | src/app/views/notification/system-notification/system-notification.component.ts:22-39 | the source is always one of the six names |
| SystemNotification.MachineOutranksMaintenance | src/app/views/notification/system-notification/system-notification.component.ts:26-29 | a message with both "maintenance" and "machine" is attributed to Machine Monitoring System |
| SystemNotification.IconClassFor | src/app/views/notification/system-notification/system-notification.component.ts:41-51 | urgent gives the warning icon whatever the type; otherwise alert gives the bell, task the calendar, anything else the information icon |
| SystemNotification.SystemBadgeClass | src/app/views/notification/system-notification/system-notification.component.ts:53-58 | `badge-danger` iff urgent, otherwise `badge-info` |
| SystemNotification.PriorityClass | src/app/views/notification/system-notification/system-notification.component.ts:61-72 | total: danger for urgent, warning for normal, success for low, secondary for any other value |
| SystemNotification.SystemBadgeAgreesOnlyWhenUrgent | src/app/views/notification/system-notification/system-notification.component.ts:53-72 | the two badge mappings agree exactly on urgent notifications |
| SystemNotification.SystemNotificationComponent.constructor | src/app/views/notification/system-notification/system-notification.component.ts:12-15 | the bound notification is kept, and both display fields start empty |
| SystemNotification.SystemNotificationComponent.GetSystemBadgeClass | src/app/views/notification/system-notification/system-notification.component.ts:53-58 | the bound notification's badge is `badge-danger` iff it is urgent, otherwise `badge-info` |
| SystemNotification.SystemNotificationComponent.NgOnInit | src/app/views/notification/system-notification/system-notification.component.ts:17-20 | both the system source and the icon class are set |
| SystemNotification.SystemNotificationComponent.DetermineSystemSource | src/app/views/notification/system-notification/system-notification.component.ts:22-39 | the `includes` chain on the lower-cased message gives the first-matching rule of the ordered table |
| SystemNotification.SystemNotificationComponent.SetIconClass | src/app/views/notification/system-notification/system-notification.component.ts:41-51 | the icon class is `IconClassFor` of the priority and type |

## Left out

- HTTP transport, the router and the WebSocket service are not modelled. Their calls are logged effects, and their answers are method arguments. `isConnected()` is an argument of the header's `NgOnInit`.
- The HTTP interceptor and any refresh coalescing or retry are not part of this model; their sources are not part of it either.
- `atob`, `JSON.parse` and `JSON.stringify` are the parameters `parsePayload`, `parseUser` and `serializeUser`. A payload that parses to `null` counts as malformed, as the code's `try` block makes it.
- Auth.HasValidToken: `exp` is an integer claim, so a fractional `exp` and millisecond rounding are not modelled.
- Auth.AuthService.HandleAuthenticationResponse: a response without `access_token` is not modelled. JavaScript would store the text "undefined" under the token key.
- `register` and `createNotification` are single HTTP forwards with no logic. Only the registration request is logged, by `OnSubmit`.
- Rx.Behavior.Next: the two subjects of `AuthService` have separate logs, so the model does not record the relative order of their emissions.
- Text.ToLowerCase: lower-cases only ASCII and Latin-1 capitals. Full Unicode case mapping is not modelled. For example, JavaScript lower-cases the Kelvin sign U+212A to `k`, so a message spelling "task" with it is classified differently.
- `Validators.email` is Angular library code. Its verdict is an argument of `InputValue`. The other validators follow Angular's documented rules: `minLength`, `maxLength` and `pattern` accept the empty value.
- `Date.prototype.toString` in the query parameters is the parameter `showDate`. It depends on locale and time zone.
- Logging with `console` is not modelled, nor are the audio playback result, the toast rendering or the 50 ms delay itself.
- The sidebar's `selectedItem` lives in the navigation service, which is not part of this model. Its type is an argument of `ToggleSidebar`, and `None` stands for no selected item.
- Module, routing and other configuration files hold no logic of the core.
- Text.NatToDecimal / Text.IntToDecimal / Notifications.TypedFilterOtherParams: `toString` switches to exponent notation from 10^21 up, and a fractional `page` or `size` prints its fraction; the model covers integers below 10^21 in magnitude only.
- Notifications.NotificationService.InitializeWebSocket: the connect observable's outcome is one boolean, so a connection that emits more than once (say `false`, then `true`, subscribing to the topics late) is not modelled.
- Auth.DecodeToken: the `sub` claim is a string, and a token without one is represented by `""`. The code would yield `undefined` for an id or e-mail that falls back to it; both are falsy, so the reconnect guard and the role checks treat them alike.
- Notifications.QueryParams: the parameters are a map, so the insertion order of `HttpParams`, and with it the order of the query string, is not modelled.
- NotificationModel.PriorityValue and NotificationModel.TypeValue hold only values a JSON string can stand for; a record built in code with an out-of-range value is not modelled.
