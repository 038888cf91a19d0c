# Jenkins SMS notifier, modelled in Dafny

This project models the decision logic of a Jenkins plugin that sends an SMS
through the Hoiio service when a build fails or is unstable.

- **`PhoneNumberValidator`** (`phone_number_validator.dfy`): the recipient
  number check. A number is a `+`, then only ASCII digits, five to fifteen of
  them unless the length check is skipped. It also models the diagnostic that
  finds the first non-digit.
- **`SmsNotification`** (`sms_notification.dfy`): the notifier of
  `com.hoiio.jenkins.plugin`.
  - `Perform` gates on the build result, skips on missing recipients or
    credentials, composes and truncates the message, parses the recipient
    list and hands both to the SMS service. A failed send is logged and marks
    the build unstable.
  - The descriptor holds the credentials. Its `DoNumberCheck` validates the
    recipients field of the configuration form.
  - Every behaviour of `perform` is stated against one reference function,
    `PerformEffect`. It says which send is made, which error lines are
    written and whether the build is marked unstable.
- **`LegacySmsNotification`** (`legacy_sms_notification.dfy`): the superseded
  notifier of `com.hoiio.jenkins.plugins`.
  - It splits the raw recipients string and always sends `Test`.
  - Its reference function takes no build name and no build time, so the
    notifier's outcome provably does not depend on them.
  - `DriftFromCurrent` relates it to the current notifier.
- **Supporting modules:**
  - `JavaLang` (`java_lang.dfy`): the `java.lang.String` behaviour the code
    relies on, stated over `seq<char>`. This covers `trim()` as its two index
    loops, the regex class `\s`, `split(",")` (which drops trailing empty
    tokens) and null.
  - `DateFormat` (`date_format.dfy`): the `yyyy-MM-dd HH:mm:ss` format of
    calendar fields.
  - `Jenkins` and `Hoiio` (`host.dfy`): the build, the listener and the SMS
    service, which records each request and answers it through a fixed
    function.

The three `isEmpty` helpers, in the validator and in both notifiers, are the
same test: null, or nothing left after `trim()`. All three are modelled by
`JavaLang.IsBlank`.

Null Java strings are `Option<string>`. `build.getResult()` is
`Option<BuildResult>`, because a build may have no result yet.

## Notes on the code

- **Message prefix.** The current notifier's message starts
  `"Jenkins Build failed: "` and names the project, from
  `build.getProject().getDisplayName()`
  (src/main/java/com/hoiio/jenkins/plugin/SMSNotification.java:84). The older
  notifier's `"Build failed: "` message names the build, and is never sent.
- **Empty pieces.** Java's `split(",")` drops trailing empty pieces. So
  `"+12345,"` gives one recipient and `","` gives none. Leading and inner
  empty pieces are kept, and are handed to the SMS service as empty strings.
- **Error text.** The form check's error text ends with a full stop
  (src/main/java/com/hoiio/jenkins/plugin/SMSNotification.java:181).

## Model

| member | source | states |
|---|---|---|
| PhoneNumberValidator.FindNonDigitChars | src/main/java/com/hoiio/jenkins/plugin/PhoneNumberValidator.java:96-110 | null for null input; otherwise null exactly when every character is a digit, else the one-character string holding the first non-digit (all characters before it are digits) |
| PhoneNumberValidator.FirstNonDigit | src/main/java/com/hoiio/jenkins/plugin/PhoneNumberValidator.java:101-104 | the index of the first non-digit of `[^0-9]`'s search, or the length; everything before it is a digit |
| PhoneNumberValidator.HasInvalidChars | src/main/java/com/hoiio/jenkins/plugin/PhoneNumberValidator.java:80-86 | holds exactly for a non-null string with a character outside `0-9` |
| PhoneNumberValidator.HasPlusSign | src/main/java/com/hoiio/jenkins/plugin/PhoneNumberValidator.java:73-78 | character 0 is `+`; the caller has already excluded null and blank strings, so index 0 exists |
| PhoneNumberValidator.ValidLength | src/main/java/com/hoiio/jenkins/plugin/PhoneNumberValidator.java:88-94 | false for null, otherwise the length lies between 5 and 15 inclusive |
| PhoneNumberValidator.ValidatePhoneNumberWith | src/main/java/com/hoiio/jenkins/plugin/PhoneNumberValidator.java:43-63 | true exactly for a non-null `+` followed only by digits, 5 to 15 of them unless the length check is skipped |
| PhoneNumberValidator.ValidatePhoneNumber | src/main/java/com/hoiio/jenkins/plugin/PhoneNumberValidator.java:39-41 | the same characterisation with the length check on |
| PhoneNumberValidator.RejectsBlank | src/main/java/com/hoiio/jenkins/plugin/PhoneNumberValidator.java:45-47 | null and blank strings are refused whatever `skipLengthCheck` is |
| PhoneNumberValidator.RejectsWithoutLeadingPlus | src/main/java/com/hoiio/jenkins/plugin/PhoneNumberValidator.java:48-50 | character 0 of the untrimmed string must be `+`, so `" +12345"` is refused |
| PhoneNumberValidator.RejectsNonDigit | src/main/java/com/hoiio/jenkins/plugin/PhoneNumberValidator.java:51-53 | any non-digit after index 0 makes the number invalid |
| PhoneNumberValidator.TrailingSpaceAndSecondPlusRefused | src/main/java/com/hoiio/jenkins/plugin/PhoneNumberValidator.java:51-53 | `"+12345 "` and `"+123+45"` are refused |
| PhoneNumberValidator.LengthCheckedCharacterisation | src/main/java/com/hoiio/jenkins/plugin/PhoneNumberValidator.java:55-60 | with the check on, exactly `+` and 5 to 15 digits pass |
| PhoneNumberValidator.SkippedLengthCharacterisation | src/main/java/com/hoiio/jenkins/plugin/PhoneNumberValidator.java:43-62 | with the check skipped, exactly `+` and any number of digits pass |
| PhoneNumberValidator.OverloadsAgree | src/main/java/com/hoiio/jenkins/plugin/PhoneNumberValidator.java:39-41 | the one-argument overload is the call with `false`, and passing with the check on implies passing without it |
| PhoneNumberValidator.InvalidCharsIffFound | src/main/java/com/hoiio/jenkins/plugin/PhoneNumberValidator.java:80-110 | `hasInvalidChars` holds exactly when `findNonDigitChars` is non-null, and `"12a45"` yields `"a"` |
| PhoneNumberValidator.ShortNumbersNeedSkip | src/main/java/com/hoiio/jenkins/plugin/PhoneNumberValidator.java:55-60 | `"+123"` and `"+"` fail with the length check and pass without it |
| PhoneNumberValidator.LengthBoundaries | src/main/java/com/hoiio/jenkins/plugin/PhoneNumberValidator.java:33-34 | five digits pass and sixteen fail |
| PhoneNumberValidator.FifteenDigitsAccepted | src/main/java/com/hoiio/jenkins/plugin/PhoneNumberValidator.java:33-34 | fifteen digits, the upper bound, pass |
| PhoneNumberValidator.LetterAndNullRefused | src/main/java/com/hoiio/jenkins/plugin/PhoneNumberValidator.java:43-53 | a letter among the digits is refused, and null is refused even with the check skipped |
| JavaLang.IsBlank | src/main/java/com/hoiio/jenkins/plugin/SMSNotification.java:193-195 | `isEmpty`: null, or every character at or below U+0020 |
| JavaLang.IsSpace | src/main/java/com/hoiio/jenkins/plugin/SMSNotification.java:93 | the regex class `\s`: space, tab, newline, vertical tab, form feed and carriage return |
| JavaLang.NullToString | src/main/java/com/hoiio/jenkins/plugin/SMSNotification.java:101 | string concatenation renders a null message as `null` |
| JavaLang.TrimStart | src/main/java/com/hoiio/jenkins/plugin/SMSNotification.java:93 | the first index at or after `st` above U+0020; everything skipped is at or below it |
| JavaLang.TrimEnd | src/main/java/com/hoiio/jenkins/plugin/SMSNotification.java:93 | the end index after dropping trailing characters at or below U+0020, never below `st` |
| JavaLang.Trim | src/main/java/com/hoiio/jenkins/plugin/SMSNotification.java:93 | `trim()`: `s` with a run of characters at or below U+0020 removed at each end; empty exactly for an all-blank string, otherwise it starts and ends above U+0020 |
| JavaLang.TrimUnchanged | src/main/java/com/hoiio/jenkins/plugin/SMSNotification.java:93 | a string that starts and ends above U+0020 is unchanged by `trim()` |
| JavaLang.TrimPadded | src/main/java/com/hoiio/jenkins/plugin/SMSNotification.java:93 | one blank on each side is removed |
| JavaLang.TrimIdempotent | src/main/java/com/hoiio/jenkins/plugin/SMSNotification.java:93 | trimming twice is trimming once |
| JavaLang.RemoveSpaces | src/main/java/com/hoiio/jenkins/plugin/SMSNotification.java:93 | `replaceAll("\\s","")`: no `\s` character is left, and a string without any is unchanged |
| JavaLang.RemoveSpacesKeepsOthers | src/main/java/com/hoiio/jenkins/plugin/SMSNotification.java:93 | nothing is added, and every character outside `\s` is kept as often as it occurs, so only `\s` characters are deleted |
| JavaLang.RemoveSpacesAppend | src/main/java/com/hoiio/jenkins/plugin/SMSNotification.java:93 | removal distributes over concatenation, so the kept characters keep their order |
| JavaLang.RemoveSpaceAfterComma | src/main/java/com/hoiio/jenkins/plugin/SMSNotification.java:93 | the blank after a comma is deleted |
| JavaLang.Tokens | src/main/java/com/hoiio/jenkins/plugin/SMSNotification.java:94 | at least one piece, none holding a comma |
| JavaLang.JoinTokens | src/main/java/com/hoiio/jenkins/plugin/SMSNotification.java:94 | joining the pieces with commas gives the string back |
| JavaLang.TokensJoin | src/main/java/com/hoiio/jenkins/plugin/SMSNotification.java:94 | one or more comma-free pieces joined by commas split back into exactly those pieces (`Tokens` of the empty string is `[""]`) |
| JavaLang.TokensHaveNoSpace | src/main/java/com/hoiio/jenkins/plugin/SMSNotification.java:94 | pieces of a space-free string are space-free |
| JavaLang.DropTrailingEmpty | src/main/java/com/hoiio/jenkins/plugin/SMSNotification.java:94 | a prefix of the pieces; only empty pieces are dropped, and the last kept one is non-empty |
| JavaLang.Split | src/main/java/com/hoiio/jenkins/plugin/SMSNotification.java:94 | `split(",")`: `[s]` without a comma, otherwise the pieces in order less the trailing empty ones |
| JavaLang.SplitJoin | src/main/java/com/hoiio/jenkins/plugin/SMSNotification.java:94 | two or more comma-free pieces joined by commas (so the text holds a comma) split back into those pieces less the trailing empty ones; a single piece is returned whole, as `[s]` |
| JavaLang.JoinAllAbove | src/main/java/com/hoiio/jenkins/plugin/SMSNotification.java:94 | joining pieces without blanks gives a string without blanks |
| DateFormat.Format | src/main/java/com/hoiio/jenkins/plugin/SMSNotification.java:197-199 | the `yyyy-MM-dd HH:mm:ss` text of a valid date has 19 to 24 characters, and exactly 19 for four-digit years |
| DateFormat.ZeroPad | src/main/java/com/hoiio/jenkins/plugin/SMSNotification.java:197-199 | digits only, at least `width` of them |
| DateFormat.ZeroPadValue | src/main/java/com/hoiio/jenkins/plugin/SMSNotification.java:197-199 | the padded field denotes the field's number |
| DateFormat.DecimalValue | src/main/java/com/hoiio/jenkins/plugin/SMSNotification.java:197-199 | reading the decimal digits back gives the number |
| DateFormat.FieldLengths | src/main/java/com/hoiio/jenkins/plugin/SMSNotification.java:197-199 | each padded field has two digits, and the year has four to nine |
| DateFormat.FormatExample | src/main/java/com/hoiio/jenkins/plugin/SMSNotification.java:197-199 | 1 May 2013 at ten o'clock is `2013-05-01 10:00:00` |
| Jenkins.Build.SetResult | src/main/java/com/hoiio/jenkins/plugin/SMSNotification.java:102 | the requested result becomes the build's result |
| Jenkins.BuildListener.Error | src/main/java/com/hoiio/jenkins/plugin/SMSNotification.java:73-74 | one more error line, appended |
| Hoiio.SmsService.SendBulk | src/main/java/com/hoiio/jenkins/plugin/SMSNotification.java:97-98 | the request is recorded and answered |
| SmsNotification.ComposeMessage | src/main/java/com/hoiio/jenkins/plugin/SMSNotification.java:84-88 | the full message when it has at most 150 characters; otherwise the prefix, the name's first 100 characters, `"... "`, then `" at "` and the date |
| SmsNotification.ParseRecipients | src/main/java/com/hoiio/jenkins/plugin/SMSNotification.java:92-94 | no piece holds whitespace or a comma |
| SmsNotification.ReportsOn | src/main/java/com/hoiio/jenkins/plugin/SMSNotification.java:67 | only a FAILURE or UNSTABLE result is reported; null and every other result are not |
| SmsNotification.FullMessage | src/main/java/com/hoiio/jenkins/plugin/SMSNotification.java:84 | the untruncated text: prefix, project name, `" at "`, date |
| SmsNotification.PerformEffect | src/main/java/com/hoiio/jenkins/plugin/SMSNotification.java:65-107 | the reference behaviour the current `Perform` contract uses: nothing for other results, then the recipients line, then the credentials line, else the send of `NotificationRequest` with `SendEffect`; `EffectShape` and the path lemmas are proved about it |
| SmsNotification.NotificationRequest | src/main/java/com/hoiio/jenkins/plugin/SMSNotification.java:97-98 | the `sendBulk` arguments: the credentials, `ParseRecipients` of the recipients and `ComposeMessage` of the name and date |
| SmsNotification.SendEffect | src/main/java/com/hoiio/jenkins/plugin/SMSNotification.java:96-103 | one send; a `Failed` answer adds the prefixed message (null shown as `null`) and marks the build unstable, a `Delivered` one adds nothing |
| SmsNotification.Descriptor.constructor | src/main/java/com/hoiio/jenkins/plugin/SMSNotification.java:135-138 | the descriptor holds the credentials it was loaded with |
| SmsNotification.Descriptor.SetAppId | src/main/java/com/hoiio/jenkins/plugin/SMSNotification.java:161-163 | sets the app id and keeps the access token |
| SmsNotification.Descriptor.SetAccessToken | src/main/java/com/hoiio/jenkins/plugin/SMSNotification.java:169-171 | sets the access token and keeps the app id |
| SmsNotification.Descriptor.DoNumberCheck | src/main/java/com/hoiio/jenkins/plugin/SMSNotification.java:173-186 | a warning for blank input; otherwise ok exactly when every parsed piece is a valid number with the length check on, else the error |
| SmsNotification.Descriptor.AllValid | src/main/java/com/hoiio/jenkins/plugin/SMSNotification.java:179-183 | the loop returns true exactly when every piece passes the validator |
| SmsNotification.SmsNotifier.constructor | src/main/java/com/hoiio/jenkins/plugin/SMSNotification.java:60-62 | the step holds its recipients |
| SmsNotification.SmsNotifier.Perform | src/main/java/com/hoiio/jenkins/plugin/SMSNotification.java:65-107 | returns true; the sends, error lines and result change are those of `PerformEffect` for the old result, the configuration, the project name and the formatted time |
| SmsNotification.SmsNotifier.Notify | src/main/java/com/hoiio/jenkins/plugin/SMSNotification.java:84-103 | exactly one send of the credentials, the parsed list and the composed message; its failure handling is `SendEffect` |
| SmsNotification.SmsNotifier.BuildMessage | src/main/java/com/hoiio/jenkins/plugin/SMSNotification.java:84-88 | the reassigned local `message` is the composed message |
| SmsNotification.SmsNotifier.BuildReceiverList | src/main/java/com/hoiio/jenkins/plugin/SMSNotification.java:90-94 | the filled list is the parsed recipients |
| SmsNotification.SmsNotifier.Send | src/main/java/com/hoiio/jenkins/plugin/SMSNotification.java:96-103 | the request is sent once; an exception adds one `Failed to send SMS notification: ` line and marks the build unstable, and a success changes nothing else |
| SmsNotification.OnlyFailedOrUnstableReported | src/main/java/com/hoiio/jenkins/plugin/SMSNotification.java:67 | any other result, null included, gives no send, no line and no result change |
| SmsNotification.MissingRecipientsSkip | src/main/java/com/hoiio/jenkins/plugin/SMSNotification.java:72-76 | blank recipients give exactly `No recipients` and no send, whatever the credentials |
| SmsNotification.MissingCredentialsSkip | src/main/java/com/hoiio/jenkins/plugin/SMSNotification.java:78-82 | with recipients but a blank credential, exactly the credentials line and no send |
| SmsNotification.SendAndFailureHandling | src/main/java/com/hoiio/jenkins/plugin/SMSNotification.java:84-103 | a complete configuration gives one send; a failure gives one line with the exception's message and marks the build unstable; a success gives neither |
| SmsNotification.EffectShape | src/main/java/com/hoiio/jenkins/plugin/SMSNotification.java:65-107 | at most one error line; a send exactly when reported on and configured; unstable exactly when the send failed |
| SmsNotification.TruncationThreshold | src/main/java/com/hoiio/jenkins/plugin/SMSNotification.java:84-88 | with a 19-character date, truncation fires exactly for names over 105 characters, the message never exceeds 150, and a truncated one has 149 |
| SmsNotification.MessageExample | src/main/java/com/hoiio/jenkins/plugin/SMSNotification.java:84 | `MyProject` gives `Jenkins Build failed: MyProject at ` and the date |
| SmsNotification.RecipientOrder | src/main/java/com/hoiio/jenkins/plugin/SMSNotification.java:93-94 | the list is the comma pieces of the stripped string, in order, with only empty pieces after it |
| SmsNotification.ParseJoined | src/main/java/com/hoiio/jenkins/plugin/SMSNotification.java:93-94 | two or more comma-free pieces without blanks, joined by commas, come back less the trailing empty ones |
| SmsNotification.EmptyPiecesKept | src/main/java/com/hoiio/jenkins/plugin/SMSNotification.java:93-94 | leading and inner empty pieces are kept when the last piece is non-empty |
| SmsNotification.TrailingCommaDropped | src/main/java/com/hoiio/jenkins/plugin/SMSNotification.java:93-94 | a trailing comma adds no piece |
| SmsNotification.TrailingCommaExample | src/main/java/com/hoiio/jenkins/plugin/SMSNotification.java:93-94 | `"+12345,"` gives `["+12345"]` |
| SmsNotification.EmptyPiecesExample | src/main/java/com/hoiio/jenkins/plugin/SMSNotification.java:93-94 | `",+1,,+2"` gives `["", "+1", "", "+2"]` |
| SmsNotification.LoneComma | src/main/java/com/hoiio/jenkins/plugin/SMSNotification.java:93-94 | `","` gives no recipients |
| SmsNotification.SpacesRemoved | src/main/java/com/hoiio/jenkins/plugin/SMSNotification.java:93-94 | blanks around the list and after a comma are removed |
| SmsNotification.NumberCheckAcceptsLoneComma | src/main/java/com/hoiio/jenkins/plugin/SMSNotification.java:173-186 | `","` is not blank and leaves no piece to refuse, so the check is ok |
| SmsNotification.NumberCheckAcceptsTrailingComma | src/main/java/com/hoiio/jenkins/plugin/SMSNotification.java:173-186 | `"+12345,"` is ok |
| LegacySmsNotification.ParseRecipients | src/main/java/com/hoiio/jenkins/plugins/SMSNotification.java:54-55 | the raw `split(",")`: no piece holds a comma, and a comma-free string is passed whole |
| LegacySmsNotification.LegacyRequest | src/main/java/com/hoiio/jenkins/plugins/SMSNotification.java:54-59 | the `sendBulk` arguments: the credentials, the raw pieces and `Test` |
| LegacySmsNotification.PerformEffect | src/main/java/com/hoiio/jenkins/plugins/SMSNotification.java:33-68 | the reference behaviour of the older `perform`, with no build name or time among its inputs: the same gating and skips, else the send of `LegacyRequest` with `SendEffect` |
| LegacySmsNotification.Descriptor.constructor | src/main/java/com/hoiio/jenkins/plugins/SMSNotification.java:96-99 | the descriptor holds the credentials it was loaded with |
| LegacySmsNotification.Descriptor.SetAppId | src/main/java/com/hoiio/jenkins/plugins/SMSNotification.java:122-124 | sets the app id and keeps the access token |
| LegacySmsNotification.Descriptor.SetAccessToken | src/main/java/com/hoiio/jenkins/plugins/SMSNotification.java:130-132 | sets the access token and keeps the app id |
| LegacySmsNotification.SmsNotifier.constructor | src/main/java/com/hoiio/jenkins/plugins/SMSNotification.java:28-30 | the step holds its recipients |
| LegacySmsNotification.SmsNotifier.Perform | src/main/java/com/hoiio/jenkins/plugins/SMSNotification.java:33-68 | returns true; the sends, error lines and result change are those of the legacy `PerformEffect`, which takes no build name or time |
| LegacySmsNotification.SmsNotifier.Notify | src/main/java/com/hoiio/jenkins/plugins/SMSNotification.java:52-64 | one send of `Test` to the raw pieces whatever message was composed; its failure handling is `SendEffect` |
| LegacySmsNotification.GatingAndSkipOrder | src/main/java/com/hoiio/jenkins/plugins/SMSNotification.java:35-50 | other results do nothing; blank recipients give `No recipients` before the credentials are looked at; then the credentials line; no send in each case |
| LegacySmsNotification.SendsTest | src/main/java/com/hoiio/jenkins/plugins/SMSNotification.java:57-64 | a complete configuration sends `Test` once; a failure logs one line and marks the build unstable, a success nothing |
| LegacySmsNotification.DriftFromCurrent | src/main/java/com/hoiio/jenkins/plugins/SMSNotification.java:33-68 | the same decision to send as the current notifier, and the same lines whenever nothing is sent; a send differs only in its text (`Test`) and its unstripped pieces, and the two sends log and mark the build alike when the service answers them alike |
| LegacySmsNotification.RawPieces | src/main/java/com/hoiio/jenkins/plugins/SMSNotification.java:54-55 | two comma-free pieces, the second non-empty, joined by a comma come back as written, blanks included |
| LegacySmsNotification.RawSplitExample | src/main/java/com/hoiio/jenkins/plugins/SMSNotification.java:55 | `" +1, +2"` gives `[" +1", " +2"]` |
| LegacySmsNotification.BlanksKeptHereStrippedThere | src/main/java/com/hoiio/jenkins/plugins/SMSNotification.java:54-55 | blanks around the list and after the comma stay in both pieces here, and both pieces are then invalid numbers, while the current notifier strips them to `[a, b]` |
| LegacySmsNotification.OnlyCommas | src/main/java/com/hoiio/jenkins/plugins/SMSNotification.java:55 | `",,,"` gives no pieces |

## Left out

- **Hoiio SDK.** `new Hoiio(appId, accessToken)` and
  `getSmsService().sendBulk` are network calls. They become `SmsService`, which
  records each request and answers through a fixed `respond` function.
- **Exceptions.** Only `HoiioException` is modelled, as a `Failed` answer
  with a message that may be null. Other runtime exceptions are not modelled.
- **Jenkins plumbing.** The model leaves out:
  - descriptor `load`, `save` and `configure` (reading the JSON form);
  - `isApplicable`, `getDisplayName`, `getRequiredMonitorService` and
    `getDescriptor`;
  - the stapler and extension registration.

  The getters are plain fields. The launcher argument of `perform` is
  unused and dropped.
- **Date conversion.** `getDateString` converts a `java.util.Date` to
  calendar fields using the default time zone and locale. That conversion is
  an input here: the build's time is given as fields, and only their
  `yyyy-MM-dd HH:mm:ss` formatting is modelled. Era and week rules of the
  calendar are not modelled.
- **Long dates.** `ComposeMessage` requires the date text to have at most 24
  characters, the most any `java.util.Date` produces. This keeps
  `substring(0, 100)` in range. A longer date string cannot arise from a
  real date, so the Java `StringIndexOutOfBoundsException` is not modelled.
- **Result merging.** `setResult(UNSTABLE)` is modelled as the result becoming
  unstable. Jenkins actually keeps the worse of the old and new results, so a
  failed build stays failed; that merging is host behaviour.
- **Regex and character units.** `[^0-9]` and `\s` are character predicates
  over `char`. Java's regex engine, and the difference between UTF-16 code
  units and code points, are not modelled.
- **Concurrency.** The code has none. Unsynchronised descriptor reads are not
  modelled.
- LegacySmsNotification.SmsNotifier.Notify: the message built from
  `"Build failed: "`, the build's display name and its time is computed and
  discarded. It appears in the method body but in no contract, since nothing
  observable depends on it.
