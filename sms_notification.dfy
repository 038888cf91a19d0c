/**
 * The SMS notifier of `com.hoiio.jenkins.plugin`: after a failed or
 * unstable build it checks its configuration, composes one message of at
 * most 150 characters, splits the configured recipients and hands both to
 * the SMS service; a failed send is logged and makes the build unstable.
 * The descriptor holds the Hoiio credentials and checks the recipients
 * field of the configuration form.
 */
module SmsNotification {
  import opened JavaLang
  import opened Jenkins
  import opened Hoiio
  import DateFormat
  import PhoneNumberValidator

  const NoRecipientsError := "No recipients"
  const NoCredentialsError := "Hoiio credentials not configured; cannot send SMS notification"
  const SendFailedPrefix := "Failed to send SMS notification: "
  const MustFillWarning := "You must fill recipients' numbers!"
  const InvalidNumbersError := "Formats of some recipients' numbers are invalid."

  const MessagePrefix := "Jenkins Build failed: "
  const MaxMessageLength: nat := 150
  const TruncatedNameLength: nat := 100

  /**
   * The longest text `getDateString` produces: years of a `java.util.Date`
   * have at most nine digits, so at most 24 characters.
   */
  const MaxDateLength: nat := 24

  /** Only failed and unstable builds are reported. */
  predicate ReportsOn(result: Option<BuildResult>) {
    result == Some(Failure) || result == Some(Unstable)
  }

  /** The message before any truncation. */
  function FullMessage(displayName: string, date: string): string {
    MessagePrefix + displayName + " at " + date
  }

  /**
   * The SMS text: the full message when it has at most 150 characters,
   * otherwise the same with the name cut to its first 100 characters and
   * followed by `"... "` (so two spaces come before `at`).
   */
  function ComposeMessage(displayName: string, date: string): (m: string)
    requires |date| <= MaxDateLength
    ensures |m| >= |MessagePrefix| && m[..|MessagePrefix|] == MessagePrefix
    ensures |m| >= 4 + |date| && m[|m| - 4 - |date|..] == " at " + date
    ensures |FullMessage(displayName, date)| <= MaxMessageLength ==> m == FullMessage(displayName, date)
    ensures |FullMessage(displayName, date)| > MaxMessageLength ==>
      && |displayName| > TruncatedNameLength
      && |m| == |MessagePrefix| + TruncatedNameLength + 8 + |date|
      && m[|MessagePrefix|..|MessagePrefix| + TruncatedNameLength] == displayName[..TruncatedNameLength]
      && m[|MessagePrefix| + TruncatedNameLength..|MessagePrefix| + TruncatedNameLength + 4] == "... "
  {
    var message := FullMessage(displayName, date);
    if |message| > MaxMessageLength then
      MessagePrefix + displayName[..TruncatedNameLength] + "... " + " at " + date
    else
      message
  }

  /**
   * `recipients.trim().replaceAll("\\s", "").split(",")`: the pieces hold
   * no whitespace and no comma, and they are the comma-separated pieces of
   * the stripped string in order, less the trailing empty ones.
   */
  function ParseRecipients(recipients: string): (r: seq<string>)
    ensures forall k :: 0 <= k < |r| ==> HasNoSpace(r[k]) && Comma !in r[k]
  {
    var stripped := RemoveSpaces(Trim(recipients));
    TokensHaveNoSpace(stripped);
    Split(stripped)
  }

  /** Every piece passes the validator with the length check on. */
  predicate AllPhoneNumbers(tokens: seq<string>) {
    forall k :: 0 <= k < |tokens| ==> PhoneNumberValidator.IsPhoneNumber(tokens[k], false)
  }

  /** What one call of `perform` does besides returning `true`. */
  datatype Effect = Effect(
    /** The `sendBulk` call made, if any. */
    request: Option<SmsRequest>,
    /** The lines written with `listener.error`. */
    errors: seq<string>,
    /** Whether `build.setResult(Result.UNSTABLE)` was called. */
    marksUnstable: bool)

  /** The sends of an effect, as a list. */
  function Sends(e: Effect): seq<SmsRequest> {
    if e.request.Some? then [e.request.value] else []
  }

  /**
   * The reference behaviour of `perform` for a build with result `result`,
   * the step's `recipients`, the descriptor's credentials, the project's
   * display name, the formatted build time and the SMS service's answers.
   */
  function PerformEffect(result: Option<BuildResult>, recipients: Option<string>,
                         appId: Option<string>, accessToken: Option<string>,
                         displayName: string, date: string,
                         respond: SmsRequest -> SendOutcome): Effect
    requires |date| <= MaxDateLength
  {
    if !ReportsOn(result) then Effect(None, [], false)
    else if IsBlank(recipients) then Effect(None, [NoRecipientsError], false)
    else if IsBlank(appId) || IsBlank(accessToken) then Effect(None, [NoCredentialsError], false)
    else
      var request := NotificationRequest(appId.value, accessToken.value, recipients.value, displayName, date);
      SendEffect(request, respond(request))
  }

  /** The `sendBulk` call: the credentials, the parsed recipients and the composed message. */
  function NotificationRequest(appId: string, accessToken: string, recipients: string,
                               displayName: string, date: string): SmsRequest
    requires |date| <= MaxDateLength
  {
    SmsRequest(appId, accessToken, ParseRecipients(recipients), ComposeMessage(displayName, date))
  }

  /** The send itself: one request, and on an exception one error line and an unstable build. */
  function SendEffect(request: SmsRequest, outcome: SendOutcome): Effect {
    match outcome
    case Delivered => Effect(Some(request), [], false)
    case Failed(msg) => Effect(Some(request), [SendFailedPrefix + NullToString(msg)], true)
  }

  /** `DescriptorImpl`: the Hoiio credentials, shared by every notifier step. */
  class Descriptor {
    var appId: Option<string>
    var accessToken: Option<string>

    /** The descriptor with the credentials `load()` restored. */
    constructor (appId: Option<string>, accessToken: Option<string>)
      ensures this.appId == appId && this.accessToken == accessToken
    {
      this.appId := appId;
      this.accessToken := accessToken;
    }

    method SetAppId(appId: Option<string>)
      modifies this
      ensures this.appId == appId && accessToken == old(accessToken)
    {
      this.appId := appId;
    }

    method SetAccessToken(accessToken: Option<string>)
      modifies this
      ensures this.accessToken == accessToken && appId == old(appId)
    {
      this.accessToken := accessToken;
    }

    /**
     * `doNumberCheck`: a warning for a blank field; otherwise ok exactly
     * when every piece of the parsed list is a valid number with the
     * length check on, and an error at the first piece that is not.
     */
    method DoNumberCheck(param: Option<string>) returns (v: FormValidation)
      ensures IsBlank(param) ==> v == Warning(MustFillWarning)
      ensures !IsBlank(param) ==> v == Ok || v == Error(InvalidNumbersError)
      ensures !IsBlank(param) ==> (v == Ok <==> AllPhoneNumbers(ParseRecipients(param.value)))
    {
      if IsBlank(param) {
        return Warning(MustFillWarning);
      }
      var tokens := Split(RemoveSpaces(Trim(param.value)));
      assert tokens == ParseRecipients(param.value);
      var valid := AllValid(tokens);
      return if valid then Ok else Error(InvalidNumbersError);
    }

    /** The `for` loop of `doNumberCheck`: it stops at the first piece the validator refuses. */
    static method AllValid(tokens: seq<string>) returns (valid: bool)
      ensures valid <==> AllPhoneNumbers(tokens)
    {
      for i := 0 to |tokens|
        invariant forall k :: 0 <= k < i ==> PhoneNumberValidator.IsPhoneNumber(tokens[k], false)
      {
        if !PhoneNumberValidator.ValidatePhoneNumber(Some(tokens[i])) {
          return false;
        }
      }
      return true;
    }
  }

  /** `SMSNotification`: the notifier step with its configured recipients. */
  class SmsNotifier {
    const recipients: Option<string>
    const descriptor: Descriptor

    constructor (recipients: Option<string>, descriptor: Descriptor)
      ensures this.recipients == recipients && this.descriptor == descriptor
    {
      this.recipients := recipients;
      this.descriptor := descriptor;
    }

    /**
     * `perform`: always reports the step as handled; what it logs, sends
     * and does to the build result is `PerformEffect`.
     */
    method Perform(build: Build, listener: BuildListener, sms: SmsService) returns (handled: bool)
      requires DateFormat.IsValid(build.time)
      modifies build, listener, sms
      ensures handled
      ensures var e := PerformEffect(old(build.result), recipients, descriptor.appId, descriptor.accessToken,
                                     build.projectDisplayName, DateFormat.Format(build.time), sms.respond);
        && sms.requests == old(sms.requests) + Sends(e)
        && listener.errors == old(listener.errors) + e.errors
        && build.result == (if e.marksUnstable then Some(Unstable) else old(build.result))
    {
      handled := true;
      if build.result == Some(Failure) || build.result == Some(Unstable) {
        var appId := descriptor.appId;
        var accessToken := descriptor.accessToken;
        var date := DateFormat.Format(build.time);
        if IsBlank(recipients) {
          MissingRecipientsSkip(build.result, recipients, appId, accessToken, build.projectDisplayName, date, sms.respond);
          listener.Error(NoRecipientsError);
          return;
        }
        if IsBlank(appId) || IsBlank(accessToken) {
          MissingCredentialsSkip(build.result, recipients, appId, accessToken, build.projectDisplayName, date, sms.respond);
          listener.Error(NoCredentialsError);
          return;
        }
        SendAndFailureHandling(build.result, recipients, appId, accessToken, build.projectDisplayName, date, sms.respond);
        Notify(appId.value, accessToken.value, recipients.value, build, listener, sms);
      } else {
        OnlyFailedOrUnstableReported(build.result, recipients, descriptor.appId, descriptor.accessToken,
                                     build.projectDisplayName, DateFormat.Format(build.time), sms.respond);
      }
    }

    /** Composing the message, filling the receiver list and sending, once the configuration is complete. */
    static method Notify(appId: string, accessToken: string, recipients: string,
                         build: Build, listener: BuildListener, sms: SmsService)
      requires DateFormat.IsValid(build.time)
      modifies build, listener, sms
      ensures var request := NotificationRequest(appId, accessToken, recipients,
                                                 build.projectDisplayName, DateFormat.Format(build.time));
        var e := SendEffect(request, sms.respond(request));
        && sms.requests == old(sms.requests) + [request]
        && listener.errors == old(listener.errors) + e.errors
        && build.result == (if e.marksUnstable then Some(Unstable) else old(build.result))
    {
      var date := DateFormat.Format(build.time);
      var message := BuildMessage(build.projectDisplayName, date);
      var receiverList := BuildReceiverList(recipients);
      Send(SmsRequest(appId, accessToken, receiverList, message), build, listener, sms);
    }

    /** The local `message`: the full text, replaced by the truncated one when too long. */
    static method BuildMessage(displayName: string, date: string) returns (message: string)
      requires |date| <= MaxDateLength
      ensures message == ComposeMessage(displayName, date)
    {
      message := MessagePrefix + displayName + " at " + date;
      if |message| > MaxMessageLength {
        message := MessagePrefix + displayName[..TruncatedNameLength] + "... " + " at " + date;
      }
    }

    /** The `receiverList` filled with `addAll` from the stripped and split recipients. */
    static method BuildReceiverList(recipients: string) returns (receiverList: seq<string>)
      ensures receiverList == ParseRecipients(recipients)
    {
      receiverList := [];
      var recipientStr := RemoveSpaces(Trim(recipients));
      receiverList := receiverList + Split(recipientStr);
    }

    /** The `try` block around `sendBulk` and its `catch (HoiioException e)`. */
    static method Send(request: SmsRequest, build: Build, listener: BuildListener, sms: SmsService)
      modifies build, listener, sms
      ensures var e := SendEffect(request, sms.respond(request));
        && sms.requests == old(sms.requests) + [request]
        && listener.errors == old(listener.errors) + e.errors
        && build.result == (if e.marksUnstable then Some(Unstable) else old(build.result))
    {
      var outcome := sms.SendBulk(request);
      if outcome.Failed? {
        listener.Error(SendFailedPrefix + NullToString(outcome.message));
        build.SetResult(Unstable);
      }
    }
  }

  // ---------------------------------------------------------------------
  // Properties of perform
  // ---------------------------------------------------------------------

  /** A build that neither failed nor is unstable is left alone: nothing sent, logged or changed. */
  lemma OnlyFailedOrUnstableReported(result: Option<BuildResult>, recipients: Option<string>,
                                     appId: Option<string>, accessToken: Option<string>,
                                     displayName: string, date: string, respond: SmsRequest -> SendOutcome)
    requires |date| <= MaxDateLength
    requires !ReportsOn(result)
    ensures PerformEffect(result, recipients, appId, accessToken, displayName, date, respond) == Effect(None, [], false)
    ensures !ReportsOn(Some(Success)) && !ReportsOn(None) && ReportsOn(Some(Failure)) && ReportsOn(Some(Unstable))
  {
  }

  /** Missing recipients are reported with one error line before the credentials are looked at. */
  lemma MissingRecipientsSkip(result: Option<BuildResult>, recipients: Option<string>,
                              appId: Option<string>, accessToken: Option<string>,
                              displayName: string, date: string, respond: SmsRequest -> SendOutcome)
    requires |date| <= MaxDateLength
    requires ReportsOn(result) && IsBlank(recipients)
    ensures PerformEffect(result, recipients, appId, accessToken, displayName, date, respond)
         == Effect(None, [NoRecipientsError], false)
  {
  }

  /** With recipients but a blank app id or access token, one credentials error and no send. */
  lemma MissingCredentialsSkip(result: Option<BuildResult>, recipients: Option<string>,
                               appId: Option<string>, accessToken: Option<string>,
                               displayName: string, date: string, respond: SmsRequest -> SendOutcome)
    requires |date| <= MaxDateLength
    requires ReportsOn(result) && !IsBlank(recipients) && (IsBlank(appId) || IsBlank(accessToken))
    ensures PerformEffect(result, recipients, appId, accessToken, displayName, date, respond)
         == Effect(None, [NoCredentialsError], false)
  {
  }

  /**
   * Once the configuration is complete, exactly one send is made with the
   * credentials, the parsed recipients and the composed message; a failure
   * logs one line with the exception's message and marks the build
   * unstable, a success changes nothing else.
   */
  lemma SendAndFailureHandling(result: Option<BuildResult>, recipients: Option<string>,
                               appId: Option<string>, accessToken: Option<string>,
                               displayName: string, date: string, respond: SmsRequest -> SendOutcome)
    requires |date| <= MaxDateLength
    requires ReportsOn(result) && !IsBlank(recipients) && !IsBlank(appId) && !IsBlank(accessToken)
    ensures var e := PerformEffect(result, recipients, appId, accessToken, displayName, date, respond);
      var request := SmsRequest(appId.value, accessToken.value,
                                ParseRecipients(recipients.value), ComposeMessage(displayName, date));
      && request == NotificationRequest(appId.value, accessToken.value, recipients.value, displayName, date)
      && e == SendEffect(request, respond(request))
      && e.request == Some(request)
      && (respond(request).Delivered? ==> e.errors == [] && !e.marksUnstable)
      && (respond(request).Failed? ==>
            e.errors == [SendFailedPrefix + NullToString(respond(request).message)] && e.marksUnstable)
  {
  }

  /**
   * Every path writes at most one error line; a send happens exactly when
   * the build is reported on and the configuration is complete; only a
   * failed send marks the build unstable.
   */
  lemma EffectShape(result: Option<BuildResult>, recipients: Option<string>,
                    appId: Option<string>, accessToken: Option<string>,
                    displayName: string, date: string, respond: SmsRequest -> SendOutcome)
    requires |date| <= MaxDateLength
    ensures var e := PerformEffect(result, recipients, appId, accessToken, displayName, date, respond);
      && |e.errors| <= 1
      && (e.request.Some? <==> ReportsOn(result) && !IsBlank(recipients) && !IsBlank(appId) && !IsBlank(accessToken))
      && (e.marksUnstable <==> e.request.Some? && respond(e.request.value).Failed?)
  {
    if !ReportsOn(result) {
      OnlyFailedOrUnstableReported(result, recipients, appId, accessToken, displayName, date, respond);
    } else if IsBlank(recipients) {
      MissingRecipientsSkip(result, recipients, appId, accessToken, displayName, date, respond);
    } else if IsBlank(appId) || IsBlank(accessToken) {
      MissingCredentialsSkip(result, recipients, appId, accessToken, displayName, date, respond);
    } else {
      SendAndFailureHandling(result, recipients, appId, accessToken, displayName, date, respond);
    }
  }

  // ---------------------------------------------------------------------
  // Properties of the message
  // ---------------------------------------------------------------------

  /**
   * With the 19-character dates of years 0 to 9999, truncation happens
   * exactly for names longer than 105 characters, the result never exceeds
   * 150 characters, and a truncated message has exactly 149.
   */
  lemma TruncationThreshold(displayName: string, date: string)
    requires |date| == 19
    ensures |FullMessage(displayName, date)| > MaxMessageLength <==> |displayName| > 105
    ensures |ComposeMessage(displayName, date)| <= MaxMessageLength
    ensures |displayName| > 105 ==> |ComposeMessage(displayName, date)| == 149
  {
  }

  /** An example project name, with any 19-character date. */
  lemma MessageExample(date: string)
    requires |date| == 19
    ensures ComposeMessage("MyProject", date) == "Jenkins Build failed: MyProject at " + date
  {
  }

  // ---------------------------------------------------------------------
  // Properties of the recipient list
  // ---------------------------------------------------------------------

  /**
   * The parsed list follows the stripped string: its pieces, in order,
   * are the comma-separated pieces of the stripped string with only empty
   * pieces after them.
   */
  lemma RecipientOrder(recipients: string)
    ensures var stripped := RemoveSpaces(Trim(recipients)); var r := ParseRecipients(recipients);
      && Join(Tokens(stripped)) == stripped
      && |r| <= |Tokens(stripped)|
      && r == Tokens(stripped)[..|r|]
      && (forall k :: |r| <= k < |Tokens(stripped)| ==> Tokens(stripped)[k] == [])
  {
    JoinTokens(RemoveSpaces(Trim(recipients)));
  }

  /**
   * A piece written without commas and without any character at or below
   * U+0020 (so without whitespace), such as `+6512345678` or the empty piece.
   */
  predicate Piece(a: string) {
    Comma !in a && AllAbove(a)
  }

  /**
   * Pieces joined with commas and nothing else come back in order, with
   * the trailing empty ones dropped: `"+12345,"` is one number, `",+1,,+2"`
   * is `["", "+1", "", "+2"]`.
   */
  lemma ParseJoined(ts: seq<string>)
    requires |ts| >= 2
    requires forall i :: 0 <= i < |ts| ==> Piece(ts[i])
    ensures ParseRecipients(Join(ts)) == DropTrailingEmpty(ts)
  {
    var s := Join(ts);
    JoinAllAbove(ts);
    assert Join(ts) == ts[0] + ([Comma] + Join(ts[1..]));
    assert HasNoSpace(s) by {
      forall k | 0 <= k < |s| ensures !IsSpace(s[k]) {
        assert !IsTrimmable(s[k]);
      }
    }
    TrimUnchanged(s);
    SplitJoin(ts);
  }

  /** Empty pieces at the front or between numbers are kept when the last piece is a number. */
  lemma EmptyPiecesKept(ts: seq<string>)
    requires |ts| >= 2 && ts[|ts| - 1] != []
    requires forall i :: 0 <= i < |ts| ==> Piece(ts[i])
    ensures ParseRecipients(Join(ts)) == ts
  {
    ParseJoined(ts);
    DropTrailingEmptyKeeps(ts);
  }

  /** A trailing comma adds nothing. */
  lemma TrailingCommaDropped(a: string)
    requires Piece(a) && a != []
    ensures ParseRecipients(a + [Comma]) == [a]
  {
    JoinPair(a, "");
    assert [Comma] + "" == [Comma];
    assert Piece("");
    ParseJoined([a, ""]);
  }

  /** The case `"+12345,"`. */
  lemma TrailingCommaExample()
    ensures ParseRecipients("+12345,") == ["+12345"]
  {
    TrailingCommaDropped("+12345");
    assert "+12345," == "+12345" + [Comma];
  }

  /** The case `",+1,,+2"`. */
  lemma EmptyPiecesExample()
    ensures ParseRecipients(",+1,,+2") == ["", "+1", "", "+2"]
  {
    var ts := ["", "+1", "", "+2"];
    assert Join(ts) == ",+1,,+2" by {
      assert ts[1..][1..][1..] == ["+2"];
      assert Join(ts[1..][1..]) == ",+2";
    }
    assert Piece("+1") && Piece("+2") && Piece("");
    EmptyPiecesKept(ts);
  }

  /** A lone comma gives no recipients at all. */
  lemma LoneComma()
    ensures ParseRecipients(",") == []
  {
    assert Trim(",") == ",";
    assert RemoveSpaces(",") == ",";
    assert Split(",") == [];
  }

  /** Blanks around the list and after a comma are removed: `" a, b "` gives `[a, b]`. */
  lemma SpacesRemoved(a: string, b: string)
    requires Piece(a) && Piece(b) && a != [] && b != []
    ensures ParseRecipients([' '] + (a + ([Comma] + ([' '] + b))) + [' ']) == [a, b]
  {
    var inner := a + ([Comma] + ([' '] + b));
    assert Trim([' '] + inner + [' ']) == inner by {
      assert inner[0] == a[0] && inner[|inner| - 1] == b[|b| - 1];
      TrimPadded(inner);
    }
    assert RemoveSpaces(inner) == Join([a, b]) by {
      assert HasNoSpace(a) && HasNoSpace(b);
      RemoveSpaceAfterComma(a, b);
      JoinPair(a, b);
    }
    assert Split(Join([a, b])) == [a, b] by {
      SplitJoin([a, b]);
    }
  }

  /** `doNumberCheck` accepts `","`: not blank, and no piece to refuse. */
  lemma NumberCheckAcceptsLoneComma()
    ensures !IsBlank(Some(",")) && AllPhoneNumbers(ParseRecipients(","))
  {
    assert !IsTrimmable(","[0]);
    LoneComma();
  }

  /** `doNumberCheck` accepts `"+12345,"`: its one piece is a valid number. */
  lemma NumberCheckAcceptsTrailingComma()
    ensures !IsBlank(Some("+12345,")) && AllPhoneNumbers(ParseRecipients("+12345,"))
  {
    assert !IsTrimmable("+12345,"[0]);
    TrailingCommaExample();
    PhoneNumberValidator.LengthBoundaries();
  }
}
