/**
 * What the notifier sees of the Jenkins build it runs after: the build's
 * result (which it may change), its names and time, the listener that
 * takes error lines, and the answer a form check gives.
 */
module Jenkins {
  import opened JavaLang
  import DateFormat

  /** `hudson.model.Result`. */
  datatype BuildResult = Success | Unstable | Failure | NotBuilt | Aborted

  /** `FormValidation.ok()`, `warning(message)` and `error(message)`. */
  datatype FormValidation = Ok | Warning(message: string) | Error(message: string)

  /** The parts of `AbstractBuild` the notifier reads or writes. */
  class Build {
    /** `getResult()`: null while no step has set a result. */
    var result: Option<BuildResult>
    /** `getDisplayName()`, such as `#42`. */
    const displayName: string
    /** `getProject().getDisplayName()`. */
    const projectDisplayName: string
    /** `getTime()`, as calendar fields. */
    const time: DateFormat.DateTime

    constructor (result: Option<BuildResult>, displayName: string, projectDisplayName: string, time: DateFormat.DateTime)
      ensures this.result == result && this.displayName == displayName
      ensures this.projectDisplayName == projectDisplayName && this.time == time
    {
      this.result := result;
      this.displayName := displayName;
      this.projectDisplayName := projectDisplayName;
      this.time := time;
    }

    /** `setResult(r)`: the requested result becomes the build's result. */
    method SetResult(r: BuildResult)
      modifies this
      ensures result == Some(r)
    {
      result := Some(r);
    }
  }

  /** The error channel of a `BuildListener`: the lines written so far. */
  class BuildListener {
    var errors: seq<string>

    constructor ()
      ensures errors == []
    {
      errors := [];
    }

    /** `error(msg)`: one more error line. */
    method Error(msg: string)
      modifies this
      ensures errors == old(errors) + [msg]
    {
      errors := errors + [msg];
    }
  }
}

/**
 * The Hoiio SDK as the notifier uses it: `new Hoiio(appId, accessToken)`
 * followed by `getSmsService().sendBulk(receivers, message)`, which returns
 * or throws a `HoiioException`.
 */
module Hoiio {
  import opened JavaLang

  /** One `sendBulk` call, with the credentials the client was built from. */
  datatype SmsRequest = SmsRequest(appId: string, accessToken: string, receivers: seq<string>, message: string)

  /** How a `sendBulk` call ends: it returns, or throws with `getMessage()` (which may be null). */
  datatype SendOutcome = Delivered | Failed(message: Option<string>)

  /**
   * The SMS service: what it answers to a request is fixed by `respond`,
   * and every request it is given is recorded.
   */
  class SmsService {
    var requests: seq<SmsRequest>
    const respond: SmsRequest -> SendOutcome

    constructor (respond: SmsRequest -> SendOutcome)
      ensures requests == [] && this.respond == respond
    {
      requests := [];
      this.respond := respond;
    }

    /** `sendBulk(receivers, message)` on a client built from `appId` and `accessToken`. */
    method SendBulk(request: SmsRequest) returns (outcome: SendOutcome)
      modifies this
      ensures requests == old(requests) + [request]
      ensures outcome == respond(request)
    {
      requests := requests + [request];
      outcome := respond(request);
    }
  }
}
