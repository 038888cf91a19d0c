/**
 * The older notifier of `com.hoiio.jenkins.plugins`, kept beside the
 * current one. It gates, skips and handles a failed send as the current
 * notifier does, but it hands the raw `split(",")` of the recipients to
 * the SMS service and always sends the text `Test`: the message it
 * composes from the build's name and time is never used.
 */
module LegacySmsNotification {
  import opened JavaLang
  import opened Jenkins
  import opened Hoiio
  import DateFormat
  import SmsNotification
  import PhoneNumberValidator

  /** The text every send carries. */
  const TestMessage := "Test"

  /** The start of the message that is composed and then dropped. */
  const UnusedMessagePrefix := "Build failed: "

  /**
   * `recipients.split(",")` with no trimming and no whitespace removal:
   * blanks stay inside the pieces.
   */
  function ParseRecipients(recipients: string): (r: seq<string>)
    ensures forall k :: 0 <= k < |r| ==> Comma !in r[k]
    ensures Comma !in recipients ==> r == [recipients]
  {
    Split(recipients)
  }

  /** The `sendBulk` call: the credentials, the raw pieces and `Test`. */
  function LegacyRequest(appId: string, accessToken: string, recipients: string): SmsRequest {
    SmsRequest(appId, accessToken, ParseRecipients(recipients), TestMessage)
  }

  /**
   * The reference behaviour of this `perform`. It takes no build name and no
   * build time: nothing it does depends on them.
   */
  function PerformEffect(result: Option<BuildResult>, recipients: Option<string>,
                         appId: Option<string>, accessToken: Option<string>,
                         respond: SmsRequest -> SendOutcome): SmsNotification.Effect
  {
    if !SmsNotification.ReportsOn(result) then SmsNotification.Effect(None, [], false)
    else if IsBlank(recipients) then SmsNotification.Effect(None, [SmsNotification.NoRecipientsError], false)
    else if IsBlank(appId) || IsBlank(accessToken) then
      SmsNotification.Effect(None, [SmsNotification.NoCredentialsError], false)
    else
      var request := LegacyRequest(appId.value, accessToken.value, recipients.value);
      SmsNotification.SendEffect(request, respond(request))
  }

  /** `DescriptorImpl` of this package: the same two credentials. */
  class Descriptor {
    var appId: Option<string>
    var accessToken: Option<string>

    constructor (appId: Option<string>, accessToken: Option<string>)
      ensures this.appId == appId && this.accessToken == accessToken
    {
      this.appId := appId;
      this.accessToken := accessToken;
    }

    method SetAppId(appId: Option<string>)
      modifies this
      ensures this.appId == appId && accessToken == old(accessToken)
    {
      this.appId := appId;
    }

    method SetAccessToken(accessToken: Option<string>)
      modifies this
      ensures this.accessToken == accessToken && appId == old(appId)
    {
      this.accessToken := accessToken;
    }
  }

  /** `SMSNotification` of this package. */
  class SmsNotifier {
    const recipients: Option<string>
    const descriptor: Descriptor

    constructor (recipients: Option<string>, descriptor: Descriptor)
      ensures this.recipients == recipients && this.descriptor == descriptor
    {
      this.recipients := recipients;
      this.descriptor := descriptor;
    }

    /**
     * `perform`: always reports the step as handled; what it logs, sends
     * and does to the build result is `PerformEffect`, whatever the
     * build's name and time.
     */
    method Perform(build: Build, listener: BuildListener, sms: SmsService) returns (handled: bool)
      modifies build, listener, sms
      ensures handled
      ensures var e := PerformEffect(old(build.result), recipients, descriptor.appId, descriptor.accessToken, sms.respond);
        && sms.requests == old(sms.requests) + SmsNotification.Sends(e)
        && listener.errors == old(listener.errors) + e.errors
        && build.result == (if e.marksUnstable then Some(Unstable) else old(build.result))
    {
      handled := true;
      GatingAndSkipOrder(build.result, recipients, descriptor.appId, descriptor.accessToken, sms.respond);
      if build.result == Some(Failure) || build.result == Some(Unstable) {
        var appId := descriptor.appId;
        var accessToken := descriptor.accessToken;
        if IsBlank(recipients) {
          listener.Error(SmsNotification.NoRecipientsError);
          return;
        }
        if IsBlank(appId) || IsBlank(accessToken) {
          listener.Error(SmsNotification.NoCredentialsError);
          return;
        }
        SendsTest(build.result, recipients, appId, accessToken, sms.respond);
        Notify(appId.value, accessToken.value, recipients.value, build, listener, sms);
      }
    }

    /**
     * Composing the unused message, filling the receiver list and sending
     * `Test`, once the configuration is complete.
     */
    static method Notify(appId: string, accessToken: string, recipients: string,
                         build: Build, listener: BuildListener, sms: SmsService)
      modifies build, listener, sms
      ensures var request := LegacyRequest(appId, accessToken, recipients);
        var e := SmsNotification.SendEffect(request, sms.respond(request));
        && sms.requests == old(sms.requests) + [request]
        && listener.errors == old(listener.errors) + e.errors
        && build.result == (if e.marksUnstable then Some(Unstable) else old(build.result))
    {
      var message := UnusedMessagePrefix + build.displayName + " at " + DateFormat.Format(build.time);
      var receiverList: seq<string> := [];
      receiverList := receiverList + Split(recipients);
      assert receiverList == ParseRecipients(recipients);
      SmsNotification.SmsNotifier.Send(SmsRequest(appId, accessToken, receiverList, TestMessage), build, listener, sms);
    }
  }

  // ---------------------------------------------------------------------
  // Properties
  // ---------------------------------------------------------------------

  /**
   * Gating and skips: nothing for other results, then one `No recipients`
   * line, then one credentials line, with no send and no result change.
   */
  lemma GatingAndSkipOrder(result: Option<BuildResult>, recipients: Option<string>,
                           appId: Option<string>, accessToken: Option<string>,
                           respond: SmsRequest -> SendOutcome)
    ensures var e := PerformEffect(result, recipients, appId, accessToken, respond);
      && (!SmsNotification.ReportsOn(result) ==> e == SmsNotification.Effect(None, [], false))
      && (SmsNotification.ReportsOn(result) && IsBlank(recipients) ==>
            e == SmsNotification.Effect(None, [SmsNotification.NoRecipientsError], false))
      && (SmsNotification.ReportsOn(result) && !IsBlank(recipients) && (IsBlank(appId) || IsBlank(accessToken)) ==>
            e == SmsNotification.Effect(None, [SmsNotification.NoCredentialsError], false))
  {
  }

  /**
   * With a complete configuration exactly one send is made, of `Test` to
   * the raw pieces; a failure logs one line and marks the build unstable.
   */
  lemma SendsTest(result: Option<BuildResult>, recipients: Option<string>,
                  appId: Option<string>, accessToken: Option<string>,
                  respond: SmsRequest -> SendOutcome)
    requires SmsNotification.ReportsOn(result) && !IsBlank(recipients) && !IsBlank(appId) && !IsBlank(accessToken)
    ensures var e := PerformEffect(result, recipients, appId, accessToken, respond);
      var request := SmsRequest(appId.value, accessToken.value, Split(recipients.value), TestMessage);
      && request == LegacyRequest(appId.value, accessToken.value, recipients.value)
      && e == SmsNotification.SendEffect(request, respond(request))
      && e.request == Some(request)
      && (respond(request).Delivered? ==> e.errors == [] && !e.marksUnstable)
      && (respond(request).Failed? ==>
            e.errors == [SmsNotification.SendFailedPrefix + NullToString(respond(request).message)] && e.marksUnstable)
  {
  }

  /**
   * Against the current notifier: the same inputs give the same decision
   * to send, and the same log lines whenever nothing is sent. A send goes
   * to the same account, but with `Test` in place of the composed message
   * and the raw pieces in place of the stripped ones; the two requests then
   * log the same and mark the build alike when the service answers them
   * alike.
   */
  lemma DriftFromCurrent(result: Option<BuildResult>, recipients: Option<string>,
                         appId: Option<string>, accessToken: Option<string>,
                         displayName: string, date: string,
                         respond: SmsRequest -> SendOutcome)
    requires |date| <= SmsNotification.MaxDateLength
    ensures var legacy := PerformEffect(result, recipients, appId, accessToken, respond);
      var current := SmsNotification.PerformEffect(result, recipients, appId, accessToken, displayName, date, respond);
      && (legacy.request.Some? <==> current.request.Some?)
      && (legacy.request.None? ==> legacy == current)
      && (legacy.request.Some? ==>
            && legacy.request.value.appId == current.request.value.appId
            && legacy.request.value.accessToken == current.request.value.accessToken
            && legacy.request.value.message == TestMessage
            && current.request.value.message == SmsNotification.ComposeMessage(displayName, date)
            && legacy.request.value.receivers == Split(recipients.value)
            && current.request.value.receivers == SmsNotification.ParseRecipients(recipients.value))
      && (legacy.request.Some? && respond(legacy.request.value) == respond(current.request.value) ==>
            legacy.errors == current.errors && legacy.marksUnstable == current.marksUnstable)
  {
    if SmsNotification.ReportsOn(result) && !IsBlank(recipients) && !IsBlank(appId) && !IsBlank(accessToken) {
      SmsNotification.SendAndFailureHandling(result, recipients, appId, accessToken, displayName, date, respond);
    }
  }

  /** Two comma-free pieces come back as they are, blanks included. */
  lemma RawPieces(x: string, y: string)
    requires Comma !in x && Comma !in y && y != []
    ensures ParseRecipients(x + ([Comma] + y)) == [x, y]
  {
    JoinPair(x, y);
    SplitJoin([x, y]);
  }

  /** The case `" +1, +2"`: the pieces keep their leading blanks. */
  lemma RawSplitExample()
    ensures ParseRecipients(" +1, +2") == [" +1", " +2"]
  {
    RawPieces(" +1", " +2");
    assert " +1" + ([Comma] + " +2") == " +1, +2";
  }

  /**
   * A blank after the comma and blanks around the text, as in `" +1, +2 "`:
   * the blanks stay inside the pieces here, so neither piece is a valid
   * number, while the current notifier strips them.
   */
  lemma BlanksKeptHereStrippedThere(a: string, b: string)
    requires SmsNotification.Piece(a) && SmsNotification.Piece(b) && a != [] && b != []
    ensures ParseRecipients([' '] + (a + ([Comma] + ([' '] + b))) + [' ']) == [[' '] + a, [' '] + b + [' ']]
    ensures SmsNotification.ParseRecipients([' '] + (a + ([Comma] + ([' '] + b))) + [' ']) == [a, b]
    ensures !PhoneNumberValidator.ValidatePhoneNumber(Some([' '] + a))
    ensures !PhoneNumberValidator.ValidatePhoneNumber(Some([' '] + b + [' ']))
  {
    assert [' '] + (a + ([Comma] + ([' '] + b))) + [' '] == ([' '] + a) + ([Comma] + ([' '] + b + [' ']));
    RawPieces([' '] + a, [' '] + b + [' ']);
    SmsNotification.SpacesRemoved(a, b);
  }

  /** Only commas: every piece is empty, and all are dropped. */
  lemma OnlyCommas()
    ensures ParseRecipients(",,,") == []
  {
    assert Tokens(",,,") == ["", "", "", ""];
  }
}
