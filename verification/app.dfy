/**
 * The page of app.py: the two result renderers and `main`.
 *
 * A click on Validate sends eleven requests in a fixed order: the two uploads, then
 * nine checks that carry the upload identifiers (and, for the two certificate checks,
 * the retrieved certificate). Each result is rendered as soon as it arrives, and the
 * first request or rendering that fails ends the click with one logged error and one
 * generic message. `RunFrom` states that sequence as a step table over a `Run` value;
 * `RunSteps` performs it on the session object, one method per section of the try
 * block, and is proved to do exactly what the table says. Runs of consecutive checks
 * that write nothing to the session (`VerifyDocuments`, `VerifyProductDetails`,
 * `VerifyCertificate`) are grouped only to keep each method's proof small; app.py
 * has no such functions.
 *
 * What the page shows is kept as a log of `Notice`s in the order they are rendered.
 * A result header is rendered into the placeholder that held the step's "Verifying..."
 * heading, so on screen it replaces that heading; the log keeps both.
 */
module App {
  import opened Wrappers
  import opened JsonValue
  import opened Session
  import opened Auth
  import opened ProductHandlers

  // ----- what the page renders -----

  /** The status line of a result section. */
  datatype Status = Passed | Failed | Completed

  datatype Notice =
    | Heading(title: string)
    | VerificationShown(header: string, status: Status, explanation: Json)
    | EnhancementShown(header: string, status: Status, enhancedValue: Json, explanation: Json)
    | SuccessBanner(message: string)
    | ErrorBanner(message: string)
    | FormError(stored: Json)

  /** The text a notice leads with: a section's header or a banner's message. */
  function Label(n: Notice): string {
    match n
    case Heading(title) => title
    case VerificationShown(header, _, _) => header
    case EnhancementShown(header, _, _, _) => header
    case SuccessBanner(message) => message
    case ErrorBanner(message) => message
    case FormError(_) => ""
  }

  const NoExplanation: string := "No explanation provided."
  const NoEnhancedValue: string := "No enhanced value provided."
  const ProductUsageHeader: string := "Verified product usage"
  const CertificateRetrievedMessage: string := "Certificate retrieved successfully."
  const MissingUploadsMessage: string :=
    "Please upload both the product CSV and the company license PDF files"
  const ValidationFailedMessage: string :=
    "An error occurred during the validation process. Please check the logs for more details."

  /** What ends a click early: an exception from a handler method, or the
      `AttributeError` of calling `.get` on a result that is not a dict. */
  datatype PageError = HandlerFailed(error: ProductHandlers.Error) | ResultNotADict

  // ----- display_verification_result / display_enhancement_result -----

  /**
   * `display_verification_result`: PASSED exactly when the result's "valid" entry is
   * truthy, except under the product-usage header, which is always FAILED; the
   * explanation is shown on both branches, with a fixed text when it is missing.
   */
  function DisplayVerificationResult(header: string, result: Json): (r: Result<Notice, PageError>)
    ensures r.Failure? <==> !result.JObj?
    ensures r.Failure? ==> r.error == ResultNotADict
    ensures r.Success? ==> r.value.VerificationShown? && r.value.header == header
    ensures r.Success? ==> r.value.status != Completed
    ensures r.Success? ==> (r.value.status == Passed <==>
      header != ProductUsageHeader && "valid" in result.fields && Truthy(result.fields["valid"]))
    ensures r.Success? && "explanation" in result.fields ==> r.value.explanation == result.fields["explanation"]
    ensures r.Success? && "explanation" !in result.fields ==> r.value.explanation == JStr(NoExplanation)
  {
    match result
    case JObj(fields) =>
      var valid := Truthy(Get(fields, "valid", JBool(false))) && header != ProductUsageHeader;
      Success(VerificationShown(header, if valid then Passed else Failed,
        Get(fields, "explanation", JStr(NoExplanation))))
    case _ => Failure(ResultNotADict)
  }

  /**
   * `display_enhancement_result`: always COMPLETED, showing the enhanced value and
   * the explanation, each with a fixed text when it is missing.
   */
  function DisplayEnhancementResult(header: string, result: Json): (r: Result<Notice, PageError>)
    ensures r.Failure? <==> !result.JObj?
    ensures r.Failure? ==> r.error == ResultNotADict
    ensures r.Success? ==> r.value.EnhancementShown? && r.value.header == header
    ensures r.Success? ==> r.value.status == Completed
    ensures r.Success? && "enhanced_value" in result.fields ==> r.value.enhancedValue == result.fields["enhanced_value"]
    ensures r.Success? && "enhanced_value" !in result.fields ==> r.value.enhancedValue == JStr(NoEnhancedValue)
    ensures r.Success? && "explanation" in result.fields ==> r.value.explanation == result.fields["explanation"]
    ensures r.Success? && "explanation" !in result.fields ==> r.value.explanation == JStr(NoExplanation)
  {
    match result
    case JObj(fields) =>
      Success(EnhancementShown(header, Completed,
        Get(fields, "enhanced_value", JStr(NoEnhancedValue)),
        Get(fields, "explanation", JStr(NoExplanation))))
    case _ => Failure(ResultNotADict)
  }

  // ----- the steps of a click, as a table -----

  const StepCount: nat := 11

  /** The handler method each step calls, in the order `main` calls them. */
  const Steps: seq<Endpoint> := [
    CompanyUpload, ProductUpload, CompanyVerify, LabVerify, ProductCategoryVerify,
    ModelNumberVerify, ProductUsageVerify, CertificateRetrieve,
    CertificateManufacturerVerify, CertificateModelNumberVerify, DescriptionEnhance]

  /** The heading rendered before each step's call (the two uploads have none). */
  const Titles: seq<string> := [
    "", "",
    "Verifying company license...",
    "Verifying lab...",
    "Verifying product category...",
    "Verifying model number...",
    "Verifying product usage...",
    "Retrieving certificate...",
    "Verifying manufacturer on certificate...",
    "Verifying model number on certificate...",
    "Enhancing product description..."]

  /** The header (or banner) rendered after each step's call. */
  const Results: seq<string> := [
    "", "",
    "Verified company license",
    "Verified lab",
    "Verified product category",
    "Verified model number",
    ProductUsageHeader,
    CertificateRetrievedMessage,
    "Verified manufacturer on certificate",
    "Verified model number on certificate",
    "Enhanced product description"]

  /** Every handler method is called exactly once per complete click. */
  lemma StepsCallEachMethodOnce(e: Endpoint)
    ensures |Steps| == StepCount
    ensures multiset(Steps)[e] == 1
  {
  }

  /** What a click works with: the handler, the two uploaded files, and the server,
      which answers the n-th request of the click. */
  datatype Inputs = Inputs(h: ProductHandler, product: UploadedFile, license: UploadedFile,
                           server: (nat, Request) -> Reply)

  /** The request step `k` sends, given the values the earlier steps returned:
      value 0 is the company job id, value 1 the product job id, value 7 the certificate.
      Every check after the company check goes through the handler's shared job or
      certificate request; `StepRequestIsTheHandlerCall` names the method of each step. */
  function StepRequest(c: Inputs, k: nat, values: seq<Json>): (r: Request)
    requires k < StepCount && k <= |values|
    ensures Route(c.h, r) == Some(Steps[k]) && r.auth == c.h.auth
    ensures k == 0 ==> r == UploadCompanyLicense(c.h, c.license)
    ensures k == 1 ==> r == Upload(c.h, c.product)
    ensures k == 2 ==> r == VerifyCompany(c.h, values[1], c.product.name, values[0])
    ensures k > 2 && k != 8 && k != 9 ==> r == JobRequest(c.h, Steps[k], values[1], c.product.name)
    ensures k == 8 || k == 9 ==> r == CertificateRequest(c.h, Steps[k], values[7], values[1], c.product.name)
  {
    if k == 0 then UploadCompanyLicense(c.h, c.license)
    else if k == 1 then Upload(c.h, c.product)
    else if k == 2 then VerifyCompany(c.h, values[1], c.product.name, values[0])
    else if k == 8 || k == 9 then CertificateRequest(c.h, Steps[k], values[7], values[1], c.product.name)
    else JobRequest(c.h, Steps[k], values[1], c.product.name)
  }

  /** Each later step's request is the one its handler method builds. */
  lemma StepRequestIsTheHandlerCall(c: Inputs, k: nat, values: seq<Json>)
    requires 2 < k < StepCount && k <= |values|
    ensures var name := c.product.name;
      && (k == 3 ==> StepRequest(c, k, values) == VerifyLab(c.h, values[1], name))
      && (k == 4 ==> StepRequest(c, k, values) == VerifyProductCategory(c.h, values[1], name))
      && (k == 5 ==> StepRequest(c, k, values) == VerifyModelNumber(c.h, values[1], name))
      && (k == 6 ==> StepRequest(c, k, values) == VerifyProductUsage(c.h, values[1], name))
      && (k == 7 ==> StepRequest(c, k, values) == RetrieveCertificate(c.h, values[1], name))
      && (k == 8 ==> StepRequest(c, k, values) == VerifyCertificateManufacturer(c.h, values[7], values[1], name))
      && (k == 9 ==> StepRequest(c, k, values) == VerifyCertificateModelNumber(c.h, values[7], values[1], name))
      && (k == 10 ==> StepRequest(c, k, values) == EnhanceProductDescription(c.h, values[1], name))
  {
  }

  /** What each check after the company check carries: the product job id and file name,
      and for the two certificate checks also the retrieved certificate. */
  lemma StepRequestCarriesIds(c: Inputs, k: nat, values: seq<Json>)
    requires 2 < k < StepCount && k <= |values|
    ensures var r := StepRequest(c, k, values);
      && r.body.JsonBody?
      && "job_id" in r.body.fields && "filename" in r.body.fields
      && r.body.fields["job_id"] == values[1]
      && r.body.fields["filename"] == JStr(c.product.name)
      && ("certificate" in r.body.fields <==> k == 8 || k == 9)
      && (k == 8 || k == 9 ==> r.body.fields["certificate"] == values[7])
  {
    if k == 8 || k == 9 {
      assert StepRequest(c, k, values) == CertificateRequest(c.h, Steps[k], values[7], values[1], c.product.name);
    } else {
      assert StepRequest(c, k, values) == JobRequest(c.h, Steps[k], values[1], c.product.name);
    }
  }

  /** A handler method's outcome as the page sees it. */
  function Call(e: Endpoint, reply: Reply): (r: Result<Json, PageError>)
    ensures r.Success? <==> Receive(e, reply).Success?
    ensures r.Success? ==> r.value == Receive(e, reply).value
    ensures r.Failure? ==> r.error == HandlerFailed(Receive(e, reply).error)
  {
    match Receive(e, reply)
    case Success(v) => Success(v)
    case Failure(err) => Failure(HandlerFailed(err))
  }

  /** The `st.error` a handler method renders before it raises on a non-200 status. */
  function Rejection(e: Endpoint, reply: Reply): (ns: seq<Notice>)
    ensures ns != [] <==> reply.Received? && reply.response.status != 200
    ensures ns != [] ==> ns == [ErrorBanner(Receive(e, reply).error.message)]
  {
    if reply.Received? && reply.response.status != 200 then
      [ErrorBanner(FailureMessage(e, reply.response.text))]
    else []
  }

  /** The heading rendered before step `k`'s call. */
  function StepPending(k: nat): seq<Notice>
    requires k < StepCount
  {
    if k < 2 then [] else [Heading(Titles[k])]
  }

  /** What step `k` renders from the value its call returned. */
  function StepShow(k: nat, v: Json): (r: Result<seq<Notice>, PageError>)
    requires k < StepCount
    ensures k < 2 ==> r == Success([])
    ensures k == 7 ==> r == Success([SuccessBanner(CertificateRetrievedMessage)])
    ensures r.Failure? <==> k >= 2 && k != 7 && !v.JObj?
    ensures r.Success? && k >= 2 ==> |r.value| == 1 && Label(r.value[0]) == Results[k]
  {
    if k < 2 then Success([])
    else if k == 7 then Success([SuccessBanner(CertificateRetrievedMessage)])
    else if k == 10 then
      var n :- DisplayEnhancementResult(Results[k], v);
      Success([n])
    else
      var n :- DisplayVerificationResult(Results[k], v);
      Success([n])
  }

  /** Where a click stands: the requests sent, the values returned, the notices
      rendered, and the error that ended it, if any. */
  datatype Run = Run(calls: seq<Request>, values: seq<Json>, shown: seq<Notice>, failure: Option<PageError>)

  /** Step `k`: render its heading, send its request, render what the handler shows on
      a rejection, then render the value; the first error ends the run. */
  function Step(c: Inputs, k: nat, run: Run): (next: Run)
    requires k < StepCount && k == |run.values|
    ensures next.calls == run.calls + [StepRequest(c, k, run.values)]
    ensures next.values == run.values || (|next.values| == k + 1 && next.values[..k] == run.values)
    ensures next.failure.None? ==> |next.values| == k + 1
  {
    var request := StepRequest(c, k, run.values);
    var reply := c.server(k, request);
    var sent := run.calls + [request];
    var rendered := run.shown + StepPending(k) + Rejection(Steps[k], reply);
    match Call(Steps[k], reply)
    case Failure(err) => Run(sent, run.values, rendered, Some(err))
    case Success(v) =>
      assert (run.values + [v])[..k] == run.values;
      match StepShow(k, v)
      case Failure(err) => Run(sent, run.values + [v], rendered, Some(err))
      case Success(notices) => Run(sent, run.values + [v], rendered + notices, None)
  }

  /** The click from step `k` on, stopping at the first error. */
  function RunFrom(c: Inputs, k: nat, run: Run): Run
    requires k <= StepCount && k == |run.values|
    decreases StepCount - k
  {
    if k == StepCount then run
    else
      var next := Step(c, k, run);
      if next.failure.Some? then next else RunFrom(c, k + 1, next)
  }

  /** The whole click, from nothing sent. */
  function Pipeline(c: Inputs): Run {
    RunFrom(c, 0, Run([], [], [], None))
  }

  // ----- what a run looks like -----

  /** What step `i` renders, given the reply to its request. */
  function StepShown(i: nat, reply: Reply): seq<Notice>
    requires i < StepCount
  {
    StepPending(i) + Rejection(Steps[i], reply) +
      match Call(Steps[i], reply)
      case Failure(_) => []
      case Success(v) => (match StepShow(i, v) case Success(ns) => ns case Failure(_) => [])
  }

  /** Everything the first `n` requests of a click render, one step after another. */
  function Trace(c: Inputs, calls: seq<Request>, n: nat): seq<Notice>
    requires n <= |calls| <= StepCount
  {
    if n == 0 then [] else Trace(c, calls, n - 1) + StepShown(n - 1, c.server(n - 1, calls[n - 1]))
  }

  /** The first `n` requests are the table's, each built from the values before it. */
  predicate FollowsTable(c: Inputs, calls: seq<Request>, values: seq<Json>, n: nat)
    requires n <= |calls| && n <= |values| + 1 && n <= StepCount
  {
    forall i :: 0 <= i < n ==> calls[i] == StepRequest(c, i, values[..i])
  }

  /** The first `n` requests were answered with the kept values, each rendered without error. */
  predicate Answered(c: Inputs, calls: seq<Request>, values: seq<Json>, n: nat)
    requires n <= |calls| && n <= |values| && n <= StepCount
  {
    forall i :: 0 <= i < n ==>
      Call(Steps[i], c.server(i, calls[i])) == Success(values[i]) && StepShow(i, values[i]).Success?
  }

  /** A run that has done its first `n` steps without error. */
  predicate Clean(c: Inputs, n: nat, r: Run) {
    && n <= StepCount && |r.calls| == n && |r.values| == n && r.failure.None?
    && FollowsTable(c, r.calls, r.values, n)
    && Answered(c, r.calls, r.values, n)
    && r.shown == Trace(c, r.calls, n)
  }

  /** A run ended by its last step, whose call or whose rendering failed, after
      every earlier step succeeded. */
  predicate Aborted(c: Inputs, r: Run) {
    && 1 <= |r.calls| <= StepCount && r.failure.Some?
    && |r.calls| - 1 <= |r.values| <= |r.calls|
    && FollowsTable(c, r.calls, r.values, |r.calls|)
    && Answered(c, r.calls, r.values, |r.calls| - 1)
    && r.shown == Trace(c, r.calls, |r.calls|)
    && var j := |r.calls| - 1;
    && (|r.values| == j ==> Call(Steps[j], c.server(j, r.calls[j])) == Failure(r.failure.value))
    && (|r.values| == j + 1 ==>
          && Call(Steps[j], c.server(j, r.calls[j])) == Success(r.values[j])
          && StepShow(j, r.values[j]) == Failure(r.failure.value))
  }

  /** A finished click: all eleven steps clean, or aborted by its last step. */
  predicate Settled(c: Inputs, r: Run) {
    if r.failure.None? then Clean(c, StepCount, r) else Aborted(c, r)
  }

  /** The notices of the first `n` steps depend on the first `n` requests only. */
  lemma {:induction false} TraceDependsOnPrefix(c: Inputs, a: seq<Request>, b: seq<Request>, n: nat)
    requires n <= |a| <= StepCount && n <= |b| <= StepCount
    requires a[..n] == b[..n]
    ensures Trace(c, a, n) == Trace(c, b, n)
  {
    if n > 0 {
      assert a[n - 1] == a[..n][n - 1] == b[..n][n - 1] == b[n - 1];
      assert a[..n - 1] == a[..n][..n - 1] == b[..n][..n - 1] == b[..n - 1];
      TraceDependsOnPrefix(c, a, b, n - 1);
    }
  }

  /** What one step does, case by case, given the reply to its request. */
  lemma StepOutcome(c: Inputs, k: nat, run: Run)
    requires k < StepCount && k == |run.values|
    ensures var next := Step(c, k, run);
      var reply := c.server(k, StepRequest(c, k, run.values));
      && next.shown == run.shown + StepShown(k, reply)
      && (Call(Steps[k], reply).Failure? ==>
            next.values == run.values && next.failure == Some(Call(Steps[k], reply).error))
      && (Call(Steps[k], reply).Success? ==>
            && next.values == run.values + [Call(Steps[k], reply).value]
            && (next.failure.None? <==> StepShow(k, Call(Steps[k], reply).value).Success?)
            && (next.failure.Some? ==> StepShow(k, Call(Steps[k], reply).value) == Failure(next.failure.value)))
  {
  }

  /** Appending the table's next request keeps a run on the table, whatever value comes back. */
  lemma FollowsTableExtends(c: Inputs, run: Run, calls: seq<Request>, values: seq<Json>, k: nat)
    requires k < StepCount && |run.calls| == k && |run.values| == k
    requires FollowsTable(c, run.calls, run.values, k)
    requires calls == run.calls + [StepRequest(c, k, run.values)]
    requires k <= |values| && values[..k] == run.values
    ensures FollowsTable(c, calls, values, k + 1)
  {
    forall i | 0 <= i < k + 1
      ensures calls[i] == StepRequest(c, i, values[..i])
    {
      if i < k {
        assert values[..i] == values[..k][..i] == run.values[..i];
      } else {
        assert values[..k] == run.values;
      }
    }
  }

  /** Answers already recorded stay recorded when the run grows. */
  lemma AnsweredExtends(c: Inputs, run: Run, calls: seq<Request>, values: seq<Json>, k: nat)
    requires k <= StepCount && |run.calls| == k && |run.values| == k
    requires Answered(c, run.calls, run.values, k)
    requires k <= |calls| && calls[..k] == run.calls
    requires k <= |values| && values[..k] == run.values
    ensures Answered(c, calls, values, k)
  {
    forall i | 0 <= i < k
      ensures calls[i] == run.calls[i] && values[i] == run.values[i]
    {
      assert calls[i] == calls[..k][i];
      assert values[i] == values[..k][i];
    }
  }

  /** A step sends the table's next request: the run stays on the table. */
  lemma StepKeepsTable(c: Inputs, k: nat, run: Run)
    requires k < StepCount && |run.calls| == k && |run.values| == k
    requires FollowsTable(c, run.calls, run.values, k)
    ensures var next := Step(c, k, run);
      |next.calls| == k + 1 && k <= |next.values| && FollowsTable(c, next.calls, next.values, k + 1)
  {
    var next := Step(c, k, run);
    assert run.values[..k] == run.values;
    FollowsTableExtends(c, run, next.calls, next.values, k);
  }

  /** A step leaves the earlier answers as they were. */
  lemma StepKeepsAnswers(c: Inputs, k: nat, run: Run)
    requires k < StepCount && |run.calls| == k && |run.values| == k
    requires Answered(c, run.calls, run.values, k)
    ensures var next := Step(c, k, run);
      |next.calls| == k + 1 && k <= |next.values| && Answered(c, next.calls, next.values, k)
  {
    var next := Step(c, k, run);
    assert next.calls[..k] == run.calls;
    AnsweredExtends(c, run, next.calls, next.values, k);
  }

  /** A step adds its own notices to the trace of the earlier ones. */
  lemma StepKeepsTrace(c: Inputs, k: nat, run: Run)
    requires k < StepCount && |run.calls| == k && |run.values| == k
    requires run.shown == Trace(c, run.calls, k)
    ensures var next := Step(c, k, run);
      |next.calls| == k + 1 && next.shown == Trace(c, next.calls, k + 1)
  {
    var next := Step(c, k, run);
    StepOutcome(c, k, run);
    assert next.calls[..k] == run.calls[..k];
    TraceDependsOnPrefix(c, next.calls, run.calls, k);
  }

  /** A step that succeeds adds its own answer to the earlier ones. */
  lemma StepAddsAnswer(c: Inputs, k: nat, run: Run)
    requires k < StepCount && |run.calls| == k && |run.values| == k
    requires Answered(c, run.calls, run.values, k) && Step(c, k, run).failure.None?
    ensures var next := Step(c, k, run);
      |next.calls| == k + 1 && |next.values| == k + 1 && Answered(c, next.calls, next.values, k + 1)
  {
    var next := Step(c, k, run);
    StepKeepsAnswers(c, k, run);
    StepOutcome(c, k, run);
    assert next.values[k] == Call(Steps[k], c.server(k, next.calls[k])).value;
  }

  /** A step from a clean run that succeeds leaves it clean. */
  lemma StepFromCleanContinues(c: Inputs, k: nat, run: Run)
    requires k < StepCount && Clean(c, k, run) && Step(c, k, run).failure.None?
    ensures Clean(c, k + 1, Step(c, k, run))
  {
    StepKeepsTable(c, k, run);
    StepAddsAnswer(c, k, run);
    StepKeepsTrace(c, k, run);
  }

  /** A step that fails does so in its call, keeping no value, or in rendering the value
      it keeps. */
  lemma StepFails(c: Inputs, k: nat, run: Run)
    requires k < StepCount && |run.calls| == k && |run.values| == k && Step(c, k, run).failure.Some?
    ensures var next := Step(c, k, run);
      && |next.calls| == k + 1 && k <= |next.values| <= k + 1
      && (|next.values| == k ==> Call(Steps[k], c.server(k, next.calls[k])) == Failure(next.failure.value))
      && (|next.values| == k + 1 ==>
            && Call(Steps[k], c.server(k, next.calls[k])) == Success(next.values[k])
            && StepShow(k, next.values[k]) == Failure(next.failure.value))
  {
    StepOutcome(c, k, run);
  }

  /** A step from a clean run that fails aborts it. */
  lemma StepFromCleanAborts(c: Inputs, k: nat, run: Run)
    requires k < StepCount && Clean(c, k, run) && Step(c, k, run).failure.Some?
    ensures Settled(c, Step(c, k, run))
  {
    StepKeepsTable(c, k, run);
    StepKeepsAnswers(c, k, run);
    StepKeepsTrace(c, k, run);
    StepFails(c, k, run);
  }

  /** Running on from a clean run of `k` steps settles the click. */
  lemma {:induction false} RunFromSettles(c: Inputs, k: nat, run: Run)
    requires Clean(c, k, run)
    ensures Settled(c, RunFrom(c, k, run))
    decreases StepCount - k
  {
    if k < StepCount {
      var next := Step(c, k, run);
      if next.failure.None? {
        StepFromCleanContinues(c, k, run);
        RunFromSettles(c, k + 1, next);
      } else {
        StepFromCleanAborts(c, k, run);
      }
    }
  }

  /** Every click settles, with one to eleven requests sent. */
  lemma PipelineSettles(c: Inputs)
    ensures Settled(c, Pipeline(c))
    ensures var r := Pipeline(c);
      1 <= |r.calls| <= StepCount && |r.calls| - 1 <= |r.values| <= |r.calls|
  {
    RunFromSettles(c, 0, Run([], [], [], None));
  }

  /** The requests of a click follow the table, in order: each to the step's method with
      the handler's credentials, the company check carrying both job ids. */
  lemma CallsFollowTheTable(c: Inputs)
    ensures var r := Pipeline(c);
      && 1 <= |r.calls| <= StepCount && |r.calls| - 1 <= |r.values| <= |r.calls|
      && (forall i :: 0 <= i < |r.calls| ==> Route(c.h, r.calls[i]) == Some(Steps[i]))
      && (forall i :: 0 <= i < |r.calls| ==> r.calls[i].auth == c.h.auth)
      && r.calls[0] == UploadCompanyLicense(c.h, c.license)
      && (|r.calls| > 1 ==> r.calls[1] == Upload(c.h, c.product))
      && (|r.calls| > 2 ==> r.calls[2] == VerifyCompany(c.h, r.values[1], c.product.name, r.values[0]))
  {
    PipelineSettles(c);
    var r := Pipeline(c);
    assert FollowsTable(c, r.calls, r.values, |r.calls|);
    forall i | 0 <= i < |r.calls|
      ensures Route(c.h, r.calls[i]) == Some(Steps[i]) && r.calls[i].auth == c.h.auth
    {
      assert r.calls[i] == StepRequest(c, i, r.values[..i]);
    }
    if |r.calls| > 2 {
      assert r.calls[2] == StepRequest(c, 2, r.values[..2]);
    }
  }

  /** Every check after the company check carries the product job id and file name the
      uploads produced. */
  lemma CallsCarryTheIds(c: Inputs)
    ensures var r := Pipeline(c);
      && |r.calls| <= StepCount && |r.calls| - 1 <= |r.values|
      && forall i :: 2 < i < |r.calls| ==>
           && r.calls[i].body.JsonBody?
           && "job_id" in r.calls[i].body.fields && "filename" in r.calls[i].body.fields
           && r.calls[i].body.fields["job_id"] == r.values[1]
           && r.calls[i].body.fields["filename"] == JStr(c.product.name)
  {
    PipelineSettles(c);
    var r := Pipeline(c);
    assert FollowsTable(c, r.calls, r.values, |r.calls|);
    forall i | 2 < i < |r.calls|
      ensures && r.calls[i].body.JsonBody?
              && "job_id" in r.calls[i].body.fields && "filename" in r.calls[i].body.fields
              && r.calls[i].body.fields["job_id"] == r.values[1]
              && r.calls[i].body.fields["filename"] == JStr(c.product.name)
    {
      assert r.calls[i] == StepRequest(c, i, r.values[..i]);
      StepRequestCarriesIds(c, i, r.values[..i]);
    }
  }

  /** The two certificate checks carry the certificate the click retrieved. */
  lemma CertificateChecksCarryIt(c: Inputs)
    ensures var r := Pipeline(c);
      && |r.calls| <= StepCount && |r.calls| - 1 <= |r.values|
      && forall i :: 7 < i < |r.calls| && i < 10 ==>
           && r.calls[i].body.JsonBody?
           && "certificate" in r.calls[i].body.fields
           && r.calls[i].body.fields["certificate"] == r.values[7]
  {
    PipelineSettles(c);
    var r := Pipeline(c);
    assert FollowsTable(c, r.calls, r.values, |r.calls|);
    forall i | 7 < i < |r.calls| && i < 10
      ensures && r.calls[i].body.JsonBody?
              && "certificate" in r.calls[i].body.fields
              && r.calls[i].body.fields["certificate"] == r.values[7]
    {
      assert r.calls[i] == StepRequest(c, i, r.values[..i]);
      StepRequestCarriesIds(c, i, r.values[..i]);
    }
  }

  /** The values a click keeps are exactly what the server returned for its requests. */
  lemma ValuesComeFromReplies(c: Inputs)
    ensures var r := Pipeline(c);
      && |r.values| <= |r.calls| <= StepCount
      && forall i :: 0 <= i < |r.values| ==>
           Receive(Steps[i], c.server(i, r.calls[i])) == Success(r.values[i])
  {
    PipelineSettles(c);
    var r := Pipeline(c);
    forall i | 0 <= i < |r.values|
      ensures Call(Steps[i], c.server(i, r.calls[i])) == Success(r.values[i])
    {
      if r.failure.Some? && i == |r.calls| - 1 {
      }
    }
  }

  /**
   * The first failure ends the click: every step before the last one sent succeeded,
   * and the last one either raised in the handler or returned a result that could not
   * be rendered. A click without error made all eleven calls.
   */
  lemma FirstFailureStopsTheClick(c: Inputs)
    ensures var r := Pipeline(c);
      var j := |r.calls| - 1;
      && 0 <= j < StepCount && j <= |r.values|
      && (forall i :: 0 <= i < j ==>
            && Call(Steps[i], c.server(i, r.calls[i])) == Success(r.values[i])
            && StepShow(i, r.values[i]).Success?)
      && (r.failure.None? <==>
            && j == StepCount - 1
            && Call(Steps[j], c.server(j, r.calls[j])).Success?
            && StepShow(j, Call(Steps[j], c.server(j, r.calls[j])).value).Success?)
      && (r.failure.Some? ==>
            || Call(Steps[j], c.server(j, r.calls[j])) == Failure(r.failure.value)
            || (&& Call(Steps[j], c.server(j, r.calls[j])).Success?
                && StepShow(j, Call(Steps[j], c.server(j, r.calls[j])).value) == Failure(r.failure.value)))
  {
    PipelineSettles(c);
    var r := Pipeline(c);
    var j := |r.calls| - 1;
    if r.failure.None? {
      assert Answered(c, r.calls, r.values, StepCount);
      assert Call(Steps[j], c.server(j, r.calls[j])) == Success(r.values[j]);
    } else {
      assert Answered(c, r.calls, r.values, j);
      if |r.values| == j + 1 {
        assert Call(Steps[j], c.server(j, r.calls[j])) == Success(r.values[j]);
      }
    }
  }

  /** A rejected upload of the company license sends nothing more and shows the
      handler's message. */
  lemma RejectedLicenseUploadStops(c: Inputs)
    requires c.server(0, UploadCompanyLicense(c.h, c.license)).Received?
    requires c.server(0, UploadCompanyLicense(c.h, c.license)).response.status != 200
    ensures var r := Pipeline(c);
      var text := c.server(0, UploadCompanyLicense(c.h, c.license)).response.text;
      && r.calls == [UploadCompanyLicense(c.h, c.license)]
      && r.shown == [ErrorBanner(FailureMessage(CompanyUpload, text))]
      && r.failure == Some(HandlerFailed(RequestFailed(FailureMessage(CompanyUpload, text))))
  {
  }

  /** What a clean step renders: its heading (after the uploads) and its result. */
  lemma StepShownClean(i: nat, reply: Reply, v: Json)
    requires i < StepCount
    requires Call(Steps[i], reply) == Success(v) && StepShow(i, v).Success?
    ensures StepShown(i, reply) == StepPending(i) + StepShow(i, v).value
    ensures |StepShown(i, reply)| == if i < 2 then 0 else 2
  {
    assert Receive(Steps[i], reply).Success?;
  }

  /** `n` clean steps render two notices for each step after the uploads. */
  lemma {:induction false} CleanTraceLength(c: Inputs, calls: seq<Request>, values: seq<Json>, n: nat)
    requires n <= |calls| <= StepCount && n <= |values|
    requires Answered(c, calls, values, n)
    ensures |Trace(c, calls, n)| == if n < 2 then 0 else 2 * (n - 2)
  {
    if n > 0 {
      assert Answered(c, calls, values, n - 1);
      CleanTraceLength(c, calls, values, n - 1);
      StepShownClean(n - 1, c.server(n - 1, calls[n - 1]), values[n - 1]);
    }
  }

  /** Among the notices of `n` clean steps, step `k` (after the uploads) owns two places:
      its heading, then its result. */
  lemma {:induction false} CleanTraceAt(c: Inputs, calls: seq<Request>, values: seq<Json>, n: nat, k: nat)
    requires n <= |calls| <= StepCount && n <= |values|
    requires Answered(c, calls, values, n)
    requires 2 <= k < n
    ensures |Trace(c, calls, n)| == 2 * (n - 2)
    ensures Trace(c, calls, n)[2 * (k - 2)] == Heading(Titles[k])
    ensures Trace(c, calls, n)[2 * (k - 2) + 1] == StepShow(k, values[k]).value[0]
    ensures Label(Trace(c, calls, n)[2 * (k - 2) + 1]) == Results[k]
    decreases n
  {
    CleanTraceLength(c, calls, values, n);
    assert Answered(c, calls, values, n - 1);
    CleanTraceLength(c, calls, values, n - 1);
    StepShownClean(n - 1, c.server(n - 1, calls[n - 1]), values[n - 1]);
    if k < n - 1 {
      CleanTraceAt(c, calls, values, n - 1, k);
    }
  }

  /** A click without error renders, after the uploads, a heading and its result for each
      of the nine checks, in order; the product-usage check is always FAILED. */
  lemma CleanClickShowsEveryResult(c: Inputs)
    requires Pipeline(c).failure.None?
    ensures var r := Pipeline(c);
      && |r.shown| == 18
      && (forall m :: 0 <= m < 9 ==>
            r.shown[2 * m] == Heading(Titles[m + 2]) && Label(r.shown[2 * m + 1]) == Results[m + 2])
      && r.shown[9].VerificationShown? && r.shown[9].header == ProductUsageHeader && r.shown[9].status == Failed
  {
    PipelineSettles(c);
    var r := Pipeline(c);
    CleanTraceShows(c, r.calls, r.values);
  }

  /** The same for the notices of any eleven answered requests. */
  lemma CleanTraceShows(c: Inputs, calls: seq<Request>, values: seq<Json>)
    requires |calls| == StepCount && |values| == StepCount
    requires Answered(c, calls, values, StepCount)
    ensures var shown := Trace(c, calls, StepCount);
      && |shown| == 18
      && (forall m :: 0 <= m < 9 ==>
            shown[2 * m] == Heading(Titles[m + 2]) && Label(shown[2 * m + 1]) == Results[m + 2])
      && shown[9].VerificationShown? && shown[9].header == ProductUsageHeader && shown[9].status == Failed
  {
    forall m | 0 <= m < 9
      ensures |Trace(c, calls, StepCount)| == 18
      ensures Trace(c, calls, StepCount)[2 * m] == Heading(Titles[m + 2])
      ensures Label(Trace(c, calls, StepCount)[2 * m + 1]) == Results[m + 2]
    {
      CleanTraceAt(c, calls, values, StepCount, m + 2);
    }
    UsageShownFailed(c, calls, values);
  }

  /** Among those notices, the product-usage result is always FAILED. */
  lemma UsageShownFailed(c: Inputs, calls: seq<Request>, values: seq<Json>)
    requires |calls| == StepCount && |values| == StepCount
    requires Answered(c, calls, values, StepCount)
    ensures var shown := Trace(c, calls, StepCount);
      |shown| == 18 && shown[9].VerificationShown? && shown[9].header == ProductUsageHeader && shown[9].status == Failed
  {
    CleanTraceAt(c, calls, values, StepCount, 6);
    assert StepShow(6, values[6]).Success?;
    assert Trace(c, calls, StepCount)[9] == DisplayVerificationResult(ProductUsageHeader, values[6]).value;
  }

  // ----- main -----

  /** The environment the handler module reads when it is imported. */
  datatype Config = Config(hostname: string, apiKey: string)

  /** What one run of `main` leaves behind. */
  datatype Page = Page(session: map<string, Json>, sent: seq<Request>, shown: seq<Notice>,
                       logged: seq<PageError>)

  /** The session after a click: each identifier is stored as soon as its step returns. */
  function RecordIds(session: map<string, Json>, values: seq<Json>): map<string, Json>
  {
    var s0 := if |values| > 0 then session["company_job_id" := values[0]] else session;
    var s1 := if |values| > 1 then s0["job_id" := values[1]] else s0;
    if |values| > 7 then s1["certificate" := values[7]] else s1
  }

  /** The session after a click holds what it held before plus one key per identifier
      the click got back, each bound to that identifier; no other key changes. */
  lemma RecordIdsStores(session: map<string, Json>, values: seq<Json>)
    ensures var s := RecordIds(session, values);
      && s.Keys == session.Keys +
        (if |values| > 0 then {"company_job_id"} else {}) +
        (if |values| > 1 then {"job_id"} else {}) +
        (if |values| > 7 then {"certificate"} else {})
      && (|values| > 0 ==> s["company_job_id"] == values[0])
      && (|values| > 1 ==> s["job_id"] == values[1])
      && (|values| > 7 ==> s["certificate"] == values[7])
      && forall k :: k in session && k !in {"company_job_id", "job_id", "certificate"} ==> s[k] == session[k]
  {
  }

  /** The click handler, lines 64-212: no request at all without both files; otherwise
      the pipeline, with the error logged and a generic message when it fails. */
  function ClickSpec(session: map<string, Json>, env: Config,
                     product: Option<UploadedFile>, license: Option<UploadedFile>,
                     server: (nat, Request) -> Reply): Page
  {
    if product.None? || license.None? then
      Page(session, [], [ErrorBanner(MissingUploadsMessage)], [])
    else
      var r := Pipeline(Inputs(NewProductHandler(env.hostname, env.apiKey), product.value, license.value, server));
      match r.failure
      case None => Page(RecordIds(session, r.values), r.calls, r.shown, [])
      case Some(err) => Page(RecordIds(session, r.values), r.calls, r.shown + [ErrorBanner(ValidationFailedMessage)], [err])
  }

  /** The three session slots `main` creates as None when they are missing. */
  function InitSlots(session: map<string, Json>): (s: map<string, Json>)
    ensures s.Keys == session.Keys + {"job_id", "company_job_id", "verification_result"}
    ensures forall k :: k in session ==> s[k] == session[k]
    ensures forall k :: k in s && k !in session ==> s[k] == JNull
  {
    var s0 := if "job_id" in session then session else session["job_id" := JNull];
    var s1 := if "company_job_id" in s0 then s0 else s0["company_job_id" := JNull];
    if "verification_result" in s1 then s1 else s1["verification_result" := JNull]
  }

  /** `main`: the login gate, the session slots, then the click if Validate was pressed. */
  function PageLoadSpec(g: Gate, env: Config, clicked: bool,
                    product: Option<UploadedFile>, license: Option<UploadedFile>,
                    server: (nat, Request) -> Reply): Page
  {
    var o := CheckFormSpec(g);
    if !o.authenticated then
      Page(o.gate.session, [], if o.shownError.Some? then [FormError(o.shownError.value)] else [], [])
    else
      var session := InitSlots(o.gate.session);
      if !clicked then Page(session, [], [], [])
      else ClickSpec(session, env, product, license, server)
  }

  /** Nothing is sent to the server unless the login gate lets the user in, Validate is
      pressed and both files are uploaded. */
  lemma NoRequestWithoutLoginAndFiles(g: Gate, env: Config, clicked: bool,
                                      product: Option<UploadedFile>, license: Option<UploadedFile>,
                                      server: (nat, Request) -> Reply)
    ensures var p := PageLoadSpec(g, env, clicked, product, license, server);
      p.sent != [] <==> CheckFormSpec(g).authenticated && clicked && product.Some? && license.Some?
    ensures !CheckFormSpec(g).authenticated ==> PageLoadSpec(g, env, clicked, product, license, server).session == g.session
  {
    var o := CheckFormSpec(g);
    if o.authenticated && clicked && product.Some? && license.Some? {
      PipelineSettles(Inputs(NewProductHandler(env.hostname, env.apiKey), product.value, license.value, server));
    }
  }

  /** A click that fails logs exactly its error and ends with the generic message; one that
      does not fail logs nothing and shows no error of its own. */
  lemma FailedClickIsLoggedOnce(session: map<string, Json>, env: Config,
                                product: UploadedFile, license: UploadedFile,
                                server: (nat, Request) -> Reply)
    ensures var r := Pipeline(Inputs(NewProductHandler(env.hostname, env.apiKey), product, license, server));
      var p := ClickSpec(session, env, Some(product), Some(license), server);
      && (r.failure.Some? ==> p.logged == [r.failure.value] && p.shown[|p.shown| - 1] == ErrorBanner(ValidationFailedMessage))
      && (r.failure.None? ==> p.logged == [] && p.shown == r.shown)
      && p.sent == r.calls
  {
  }

  /** After an authenticated page load the three slots exist, whatever was clicked. */
  lemma SlotsExistAfterLogin(g: Gate, env: Config, clicked: bool,
                             product: Option<UploadedFile>, license: Option<UploadedFile>,
                             server: (nat, Request) -> Reply)
    requires CheckFormSpec(g).authenticated
    ensures var p := PageLoadSpec(g, env, clicked, product, license, server);
      "job_id" in p.session && "company_job_id" in p.session && "verification_result" in p.session
  {
    var session := InitSlots(CheckFormSpec(g).gate.session);
    if clicked {
      ClickKeepsKeys(session, env, product, license, server);
    }
  }

  /** A click removes no session key. */
  lemma ClickKeepsKeys(session: map<string, Json>, env: Config,
                       product: Option<UploadedFile>, license: Option<UploadedFile>,
                       server: (nat, Request) -> Reply)
    ensures session.Keys <= ClickSpec(session, env, product, license, server).session.Keys
  {
    if product.Some? && license.Some? {
      var c := Inputs(NewProductHandler(env.hostname, env.apiKey), product.value, license.value, server);
      RecordIdsStores(session, Pipeline(c).values);
    }
  }

  /** The run's ids as the session records them, after step `|values|` returns `v`. */
  lemma RecordIdsGrow(s: map<string, Json>, values: seq<Json>, v: Json)
    ensures var k := |values|;
      RecordIds(s, values + [v]) ==
        if k == 0 then RecordIds(s, values)["company_job_id" := v]
        else if k == 1 then RecordIds(s, values)["job_id" := v]
        else if k == 7 then RecordIds(s, values)["certificate" := v]
        else RecordIds(s, values)
  {
    var w := values + [v];
    assert |values| > 0 ==> w[0] == values[0];
    assert |values| > 1 ==> w[1] == values[1];
    assert |values| > 7 ==> w[7] == values[7];
  }

  /** A failed step records no identifier: the steps whose value is stored render nothing
      that can fail. */
  lemma FailedStepKeepsIds(c: Inputs, k: nat, run: Run, s: map<string, Json>)
    requires k < StepCount && k == |run.values| && Step(c, k, run).failure.Some?
    ensures RecordIds(s, Step(c, k, run).values) == RecordIds(s, run.values)
  {
    var next := Step(c, k, run);
    StepOutcome(c, k, run);
    if next.values != run.values {
      var v := next.values[k];
      assert next.values == run.values + [v];
      RecordIdsGrow(s, run.values, v);
    }
  }

  /** A step that fails is where the click ends. */
  lemma Stops(c: Inputs, k: nat, run: Run, next: Run)
    requires k < StepCount && k == |run.values|
    requires next == Step(c, k, run) && next.failure.Some?
    ensures RunFrom(c, k, run) == next
  {
  }

  /** A step that succeeds hands the click on to the next step. */
  lemma Continues(c: Inputs, k: nat, run: Run, next: Run)
    requires k < StepCount && k == |run.values|
    requires next == Step(c, k, run) && next.failure.None?
    ensures |next.values| == k + 1
    ensures RunFrom(c, k, run) == RunFrom(c, k + 1, next)
  {
  }

  /** One section of the try block: its heading, the handler call (which renders its own
      rejection banner before raising), then the rendering of the returned value. A failure
      ends the click where the table ends it and records no identifier. */
  method Perform(c: Inputs, k: nat, request: Request, sent: seq<Request>, shown: seq<Notice>,
                 ghost run: Run, ghost start: map<string, Json>)
    returns (answer: Result<Json, PageError>, sentAfter: seq<Request>, shownAfter: seq<Notice>, ghost next: Run)
    requires k < StepCount && k == |run.values| && run.calls == sent && run.shown == shown
    requires request == StepRequest(c, k, run.values)
    ensures sentAfter == next.calls && shownAfter == next.shown
    ensures answer.Failure? ==> next.failure == Some(answer.error) && RunFrom(c, k, run) == next
    ensures answer.Failure? ==> RecordIds(start, next.values) == RecordIds(start, run.values)
    ensures answer.Success? ==> next.failure.None? && next.values == run.values + [answer.value]
    ensures answer.Success? ==> RunFrom(c, k + 1, next) == RunFrom(c, k, run)
  {
    next := Step(c, k, run);
    shownAfter := shown + StepPending(k);
    sentAfter := sent + [request];
    var reply := c.server(k, request);
    shownAfter := shownAfter + Rejection(Steps[k], reply);
    answer := Call(Steps[k], reply);
    if answer.Success? {
      var rendered := StepShow(k, answer.value);
      if rendered.Failure? {
        answer := Failure(rendered.error);
      } else {
        shownAfter := shownAfter + rendered.value;
      }
    }
    if next.failure.Some? {
      Stops(c, k, run, next);
      FailedStepKeepsIds(c, k, run, start);
    } else {
      Continues(c, k, run, next);
    }
  }

  /* The try block, lines 71-206, is a run of eleven sections separated by dividers; each
     method below performs one of them, taking the click from step `k` to step `k + 1`
     exactly as the table does, and keeping the session equal to the identifiers recorded
     so far. */

  /** Lines 71-74: the company license upload; the session records the company job id. */
  method UploadLicenseSection(session: SessionState, c: Inputs, ghost start: map<string, Json>, sent: seq<Request>, shown: seq<Notice>, ghost run: Run)
    returns (answer: Result<Json, PageError>, sentAfter: seq<Request>, shownAfter: seq<Notice>, ghost after: Run)
    requires 0 == |run.values| && run.failure.None? && run.calls == sent && run.shown == shown
    requires session.values == RecordIds(start, run.values)
    modifies session
    ensures sentAfter == after.calls && shownAfter == after.shown
    ensures session.values == RecordIds(start, after.values)
    ensures answer.Failure? ==> after.failure == Some(answer.error) && RunFrom(c, 0, run) == after
    ensures answer.Success? ==> after.failure.None? && after.values == run.values + [answer.value]
    ensures answer.Success? ==> RunFrom(c, 1, after) == RunFrom(c, 0, run)
  {
    answer, sentAfter, shownAfter, after := Perform(c, 0, UploadCompanyLicense(c.h, c.license), sent, shown, run, start);
    if answer.Success? {
      RecordIdsGrow(start, run.values, answer.value);
      session.values := session.values["company_job_id" := answer.value];
    }
  }

  /** Lines 76-78: the product file upload; the session records the job id. */
  method UploadProductSection(session: SessionState, c: Inputs, ghost start: map<string, Json>, sent: seq<Request>, shown: seq<Notice>, ghost run: Run)
    returns (answer: Result<Json, PageError>, sentAfter: seq<Request>, shownAfter: seq<Notice>, ghost after: Run)
    requires 1 == |run.values| && run.failure.None? && run.calls == sent && run.shown == shown
    requires session.values == RecordIds(start, run.values)
    modifies session
    ensures sentAfter == after.calls && shownAfter == after.shown
    ensures session.values == RecordIds(start, after.values)
    ensures answer.Failure? ==> after.failure == Some(answer.error) && RunFrom(c, 1, run) == after
    ensures answer.Success? ==> after.failure.None? && after.values == run.values + [answer.value]
    ensures answer.Success? ==> RunFrom(c, 2, after) == RunFrom(c, 1, run)
  {
    answer, sentAfter, shownAfter, after := Perform(c, 1, Upload(c.h, c.product), sent, shown, run, start);
    if answer.Success? {
      RecordIdsGrow(start, run.values, answer.value);
      session.values := session.values["job_id" := answer.value];
    }
  }

  /** Lines 82-94: the company license check. */
  method VerifyCompanySection(session: SessionState, c: Inputs, ghost start: map<string, Json>, companyJobId: Json, jobId: Json, sent: seq<Request>, shown: seq<Notice>, ghost run: Run)
    returns (answer: Result<Json, PageError>, sentAfter: seq<Request>, shownAfter: seq<Notice>, ghost after: Run)
    requires 2 == |run.values| && run.failure.None? && run.calls == sent && run.shown == shown
    requires session.values == RecordIds(start, run.values)
    requires run.values[0] == companyJobId && run.values[1] == jobId
    ensures sentAfter == after.calls && shownAfter == after.shown
    ensures session.values == RecordIds(start, after.values)
    ensures answer.Failure? ==> after.failure == Some(answer.error) && RunFrom(c, 2, run) == after
    ensures answer.Success? ==> after.failure.None? && after.values == run.values + [answer.value]
    ensures answer.Success? ==> RunFrom(c, 3, after) == RunFrom(c, 2, run)
  {
    answer, sentAfter, shownAfter, after := Perform(c, 2, VerifyCompany(c.h, jobId, c.product.name, companyJobId), sent, shown, run, start);
    if answer.Success? {
      RecordIdsGrow(start, run.values, answer.value);
    }
  }

  /** Lines 98-110: the lab check. */
  method VerifyLabSection(session: SessionState, c: Inputs, ghost start: map<string, Json>, jobId: Json, sent: seq<Request>, shown: seq<Notice>, ghost run: Run)
    returns (answer: Result<Json, PageError>, sentAfter: seq<Request>, shownAfter: seq<Notice>, ghost after: Run)
    requires 3 == |run.values| && run.failure.None? && run.calls == sent && run.shown == shown
    requires session.values == RecordIds(start, run.values)
    requires run.values[1] == jobId
    ensures sentAfter == after.calls && shownAfter == after.shown
    ensures session.values == RecordIds(start, after.values)
    ensures answer.Failure? ==> after.failure == Some(answer.error) && RunFrom(c, 3, run) == after
    ensures answer.Success? ==> after.failure.None? && after.values == run.values + [answer.value]
    ensures answer.Success? ==> RunFrom(c, 4, after) == RunFrom(c, 3, run)
  {
    answer, sentAfter, shownAfter, after := Perform(c, 3, VerifyLab(c.h, jobId, c.product.name), sent, shown, run, start);
    if answer.Success? {
      RecordIdsGrow(start, run.values, answer.value);
    }
  }

  /** Lines 114-126: the product category check. */
  method ProductCategorySection(session: SessionState, c: Inputs, ghost start: map<string, Json>, jobId: Json, sent: seq<Request>, shown: seq<Notice>, ghost run: Run)
    returns (answer: Result<Json, PageError>, sentAfter: seq<Request>, shownAfter: seq<Notice>, ghost after: Run)
    requires 4 == |run.values| && run.failure.None? && run.calls == sent && run.shown == shown
    requires session.values == RecordIds(start, run.values)
    requires run.values[1] == jobId
    ensures sentAfter == after.calls && shownAfter == after.shown
    ensures session.values == RecordIds(start, after.values)
    ensures answer.Failure? ==> after.failure == Some(answer.error) && RunFrom(c, 4, run) == after
    ensures answer.Success? ==> after.failure.None? && after.values == run.values + [answer.value]
    ensures answer.Success? ==> RunFrom(c, 5, after) == RunFrom(c, 4, run)
  {
    answer, sentAfter, shownAfter, after := Perform(c, 4, VerifyProductCategory(c.h, jobId, c.product.name), sent, shown, run, start);
    if answer.Success? {
      RecordIdsGrow(start, run.values, answer.value);
    }
  }

  /** Lines 130-139: the model number check. */
  method ModelNumberSection(session: SessionState, c: Inputs, ghost start: map<string, Json>, jobId: Json, sent: seq<Request>, shown: seq<Notice>, ghost run: Run)
    returns (answer: Result<Json, PageError>, sentAfter: seq<Request>, shownAfter: seq<Notice>, ghost after: Run)
    requires 5 == |run.values| && run.failure.None? && run.calls == sent && run.shown == shown
    requires session.values == RecordIds(start, run.values)
    requires run.values[1] == jobId
    ensures sentAfter == after.calls && shownAfter == after.shown
    ensures session.values == RecordIds(start, after.values)
    ensures answer.Failure? ==> after.failure == Some(answer.error) && RunFrom(c, 5, run) == after
    ensures answer.Success? ==> after.failure.None? && after.values == run.values + [answer.value]
    ensures answer.Success? ==> RunFrom(c, 6, after) == RunFrom(c, 5, run)
  {
    answer, sentAfter, shownAfter, after := Perform(c, 5, VerifyModelNumber(c.h, jobId, c.product.name), sent, shown, run, start);
    if answer.Success? {
      RecordIdsGrow(start, run.values, answer.value);
    }
  }

  /** Lines 143-152: the product usage check. */
  method ProductUsageSection(session: SessionState, c: Inputs, ghost start: map<string, Json>, jobId: Json, sent: seq<Request>, shown: seq<Notice>, ghost run: Run)
    returns (answer: Result<Json, PageError>, sentAfter: seq<Request>, shownAfter: seq<Notice>, ghost after: Run)
    requires 6 == |run.values| && run.failure.None? && run.calls == sent && run.shown == shown
    requires session.values == RecordIds(start, run.values)
    requires run.values[1] == jobId
    ensures sentAfter == after.calls && shownAfter == after.shown
    ensures session.values == RecordIds(start, after.values)
    ensures answer.Failure? ==> after.failure == Some(answer.error) && RunFrom(c, 6, run) == after
    ensures answer.Success? ==> after.failure.None? && after.values == run.values + [answer.value]
    ensures answer.Success? ==> RunFrom(c, 7, after) == RunFrom(c, 6, run)
  {
    answer, sentAfter, shownAfter, after := Perform(c, 6, VerifyProductUsage(c.h, jobId, c.product.name), sent, shown, run, start);
    if answer.Success? {
      RecordIdsGrow(start, run.values, answer.value);
    }
  }

  /** Lines 156-164: the certificate retrieval; the session records the certificate. */
  method RetrieveCertificateSection(session: SessionState, c: Inputs, ghost start: map<string, Json>, jobId: Json, sent: seq<Request>, shown: seq<Notice>, ghost run: Run)
    returns (answer: Result<Json, PageError>, sentAfter: seq<Request>, shownAfter: seq<Notice>, ghost after: Run)
    requires 7 == |run.values| && run.failure.None? && run.calls == sent && run.shown == shown
    requires session.values == RecordIds(start, run.values)
    requires run.values[1] == jobId
    modifies session
    ensures sentAfter == after.calls && shownAfter == after.shown
    ensures session.values == RecordIds(start, after.values)
    ensures answer.Failure? ==> after.failure == Some(answer.error) && RunFrom(c, 7, run) == after
    ensures answer.Success? ==> after.failure.None? && after.values == run.values + [answer.value]
    ensures answer.Success? ==> RunFrom(c, 8, after) == RunFrom(c, 7, run)
  {
    answer, sentAfter, shownAfter, after := Perform(c, 7, RetrieveCertificate(c.h, jobId, c.product.name), sent, shown, run, start);
    if answer.Success? {
      RecordIdsGrow(start, run.values, answer.value);
      session.values := session.values["certificate" := answer.value];
    }
  }

  /** Lines 168-177: the manufacturer check on the certificate. */
  method CertificateManufacturerSection(session: SessionState, c: Inputs, ghost start: map<string, Json>, certificate: Json, jobId: Json, sent: seq<Request>, shown: seq<Notice>, ghost run: Run)
    returns (answer: Result<Json, PageError>, sentAfter: seq<Request>, shownAfter: seq<Notice>, ghost after: Run)
    requires 8 == |run.values| && run.failure.None? && run.calls == sent && run.shown == shown
    requires session.values == RecordIds(start, run.values)
    requires run.values[7] == certificate && run.values[1] == jobId
    ensures sentAfter == after.calls && shownAfter == after.shown
    ensures session.values == RecordIds(start, after.values)
    ensures answer.Failure? ==> after.failure == Some(answer.error) && RunFrom(c, 8, run) == after
    ensures answer.Success? ==> after.failure.None? && after.values == run.values + [answer.value]
    ensures answer.Success? ==> RunFrom(c, 9, after) == RunFrom(c, 8, run)
  {
    answer, sentAfter, shownAfter, after := Perform(c, 8, VerifyCertificateManufacturer(c.h, certificate, jobId, c.product.name), sent, shown, run, start);
    if answer.Success? {
      RecordIdsGrow(start, run.values, answer.value);
    }
  }

  /** Lines 181-190: the model number check on the certificate. */
  method CertificateModelNumberSection(session: SessionState, c: Inputs, ghost start: map<string, Json>, certificate: Json, jobId: Json, sent: seq<Request>, shown: seq<Notice>, ghost run: Run)
    returns (answer: Result<Json, PageError>, sentAfter: seq<Request>, shownAfter: seq<Notice>, ghost after: Run)
    requires 9 == |run.values| && run.failure.None? && run.calls == sent && run.shown == shown
    requires session.values == RecordIds(start, run.values)
    requires run.values[7] == certificate && run.values[1] == jobId
    ensures sentAfter == after.calls && shownAfter == after.shown
    ensures session.values == RecordIds(start, after.values)
    ensures answer.Failure? ==> after.failure == Some(answer.error) && RunFrom(c, 9, run) == after
    ensures answer.Success? ==> after.failure.None? && after.values == run.values + [answer.value]
    ensures answer.Success? ==> RunFrom(c, 10, after) == RunFrom(c, 9, run)
  {
    answer, sentAfter, shownAfter, after := Perform(c, 9, VerifyCertificateModelNumber(c.h, certificate, jobId, c.product.name), sent, shown, run, start);
    if answer.Success? {
      RecordIdsGrow(start, run.values, answer.value);
    }
  }

  /** Lines 194-206: the product description enhancement. */
  method EnhanceDescriptionSection(session: SessionState, c: Inputs, ghost start: map<string, Json>, jobId: Json, sent: seq<Request>, shown: seq<Notice>, ghost run: Run)
    returns (answer: Result<Json, PageError>, sentAfter: seq<Request>, shownAfter: seq<Notice>, ghost after: Run)
    requires 10 == |run.values| && run.failure.None? && run.calls == sent && run.shown == shown
    requires session.values == RecordIds(start, run.values)
    requires run.values[1] == jobId
    ensures sentAfter == after.calls && shownAfter == after.shown
    ensures session.values == RecordIds(start, after.values)
    ensures answer.Failure? ==> after.failure == Some(answer.error) && RunFrom(c, 10, run) == after
    ensures answer.Success? ==> after.failure.None? && after.values == run.values + [answer.value]
    ensures answer.Success? ==> RunFrom(c, 11, after) == RunFrom(c, 10, run)
  {
    answer, sentAfter, shownAfter, after := Perform(c, 10, EnhanceProductDescription(c.h, jobId, c.product.name), sent, shown, run, start);
    if answer.Success? {
      RecordIdsGrow(start, run.values, answer.value);
    }
  }

  /** Lines 82-126: the company license, lab and product category checks, taking the click from step 2 to step 5. */
  method VerifyDocuments(session: SessionState, c: Inputs, ghost start: map<string, Json>, companyJobId: Json, jobId: Json, sent: seq<Request>, shown: seq<Notice>, ghost run: Run)
    returns (answer: Result<(), PageError>, sentAfter: seq<Request>, shownAfter: seq<Notice>, ghost after: Run)
    requires 2 == |run.values| && run.failure.None? && run.calls == sent && run.shown == shown
    requires session.values == RecordIds(start, run.values)
    requires run.values[0] == companyJobId && run.values[1] == jobId
    ensures sentAfter == after.calls && shownAfter == after.shown
    ensures session.values == RecordIds(start, after.values)
    ensures answer.Failure? ==> after.failure == Some(answer.error) && RunFrom(c, 2, run) == after
    ensures answer.Success? ==> after.failure.None? && |after.values| == 5 && after.values[..2] == run.values
    ensures answer.Success? ==> RunFrom(c, 5, after) == RunFrom(c, 2, run)
  {
    var step;
    sentAfter, shownAfter, after := sent, shown, run;
    step, sentAfter, shownAfter, after := VerifyCompanySection(session, c, start, companyJobId, jobId, sentAfter, shownAfter, after);
    if step.Failure? {
      return Failure(step.error), sentAfter, shownAfter, after;
    }
    step, sentAfter, shownAfter, after := VerifyLabSection(session, c, start, jobId, sentAfter, shownAfter, after);
    if step.Failure? {
      return Failure(step.error), sentAfter, shownAfter, after;
    }
    step, sentAfter, shownAfter, after := ProductCategorySection(session, c, start, jobId, sentAfter, shownAfter, after);
    if step.Failure? {
      return Failure(step.error), sentAfter, shownAfter, after;
    }
    answer := Success(());
  }

  /** Lines 130-152: the model number and product usage checks, taking the click from step 5 to step 7. */
  method VerifyProductDetails(session: SessionState, c: Inputs, ghost start: map<string, Json>, jobId: Json, sent: seq<Request>, shown: seq<Notice>, ghost run: Run)
    returns (answer: Result<(), PageError>, sentAfter: seq<Request>, shownAfter: seq<Notice>, ghost after: Run)
    requires 5 == |run.values| && run.failure.None? && run.calls == sent && run.shown == shown
    requires session.values == RecordIds(start, run.values)
    requires run.values[1] == jobId
    ensures sentAfter == after.calls && shownAfter == after.shown
    ensures session.values == RecordIds(start, after.values)
    ensures answer.Failure? ==> after.failure == Some(answer.error) && RunFrom(c, 5, run) == after
    ensures answer.Success? ==> after.failure.None? && |after.values| == 7 && after.values[..5] == run.values
    ensures answer.Success? ==> RunFrom(c, 7, after) == RunFrom(c, 5, run)
  {
    var step;
    sentAfter, shownAfter, after := sent, shown, run;
    step, sentAfter, shownAfter, after := ModelNumberSection(session, c, start, jobId, sentAfter, shownAfter, after);
    if step.Failure? {
      return Failure(step.error), sentAfter, shownAfter, after;
    }
    step, sentAfter, shownAfter, after := ProductUsageSection(session, c, start, jobId, sentAfter, shownAfter, after);
    if step.Failure? {
      return Failure(step.error), sentAfter, shownAfter, after;
    }
    answer := Success(());
  }

  /** Lines 168-190: the two checks on the retrieved certificate, taking the click from step 8 to step 10. */
  method VerifyCertificate(session: SessionState, c: Inputs, ghost start: map<string, Json>, certificate: Json, jobId: Json, sent: seq<Request>, shown: seq<Notice>, ghost run: Run)
    returns (answer: Result<(), PageError>, sentAfter: seq<Request>, shownAfter: seq<Notice>, ghost after: Run)
    requires 8 == |run.values| && run.failure.None? && run.calls == sent && run.shown == shown
    requires session.values == RecordIds(start, run.values)
    requires run.values[7] == certificate && run.values[1] == jobId
    ensures sentAfter == after.calls && shownAfter == after.shown
    ensures session.values == RecordIds(start, after.values)
    ensures answer.Failure? ==> after.failure == Some(answer.error) && RunFrom(c, 8, run) == after
    ensures answer.Success? ==> after.failure.None? && |after.values| == 10 && after.values[..8] == run.values
    ensures answer.Success? ==> RunFrom(c, 10, after) == RunFrom(c, 8, run)
  {
    var step;
    sentAfter, shownAfter, after := sent, shown, run;
    step, sentAfter, shownAfter, after := CertificateManufacturerSection(session, c, start, certificate, jobId, sentAfter, shownAfter, after);
    if step.Failure? {
      return Failure(step.error), sentAfter, shownAfter, after;
    }
    step, sentAfter, shownAfter, after := CertificateModelNumberSection(session, c, start, certificate, jobId, sentAfter, shownAfter, after);
    if step.Failure? {
      return Failure(step.error), sentAfter, shownAfter, after;
    }
    answer := Success(());
  }

  /** The try block of lines 71-206: its sections in source order, the first error
      propagated out of the block. */
  method RunSteps(session: SessionState, c: Inputs)
    returns (outcome: Result<(), PageError>, sent: seq<Request>, shown: seq<Notice>)
    modifies session
    ensures var r := Pipeline(c);
      && sent == r.calls && shown == r.shown
      && (outcome.Success? <==> r.failure.None?)
      && (outcome.Failure? ==> r.failure == Some(outcome.error))
      && session.values == RecordIds(old(session.values), r.values)
  {
    ghost var start := session.values;
    ghost var run := Run([], [], [], None);
    var uploaded;
    uploaded, sent, shown, run := UploadLicenseSection(session, c, start, [], [], run);
    if uploaded.Failure? {
      return Failure(uploaded.error), sent, shown;
    }
    var companyJobId := uploaded.value;
    uploaded, sent, shown, run := UploadProductSection(session, c, start, sent, shown, run);
    if uploaded.Failure? {
      return Failure(uploaded.error), sent, shown;
    }
    var jobId := uploaded.value;
    var checked;
    checked, sent, shown, run := VerifyDocuments(session, c, start, companyJobId, jobId, sent, shown, run);
    if checked.Failure? {
      return Failure(checked.error), sent, shown;
    }
    checked, sent, shown, run := VerifyProductDetails(session, c, start, jobId, sent, shown, run);
    if checked.Failure? {
      return Failure(checked.error), sent, shown;
    }
    var retrieved;
    retrieved, sent, shown, run := RetrieveCertificateSection(session, c, start, jobId, sent, shown, run);
    if retrieved.Failure? {
      return Failure(retrieved.error), sent, shown;
    }
    var certificate := retrieved.value;
    checked, sent, shown, run := VerifyCertificate(session, c, start, certificate, jobId, sent, shown, run);
    if checked.Failure? {
      return Failure(checked.error), sent, shown;
    }
    var enhanced;
    enhanced, sent, shown, run := EnhanceDescriptionSection(session, c, start, jobId, sent, shown, run);
    if enhanced.Failure? {
      return Failure(enhanced.error), sent, shown;
    }
    outcome := Success(());
  }

  /** Lines 64-212 after a click on Validate. */
  method Validate(session: SessionState, env: Config,
                  product: Option<UploadedFile>, license: Option<UploadedFile>,
                  server: (nat, Request) -> Reply)
    returns (sent: seq<Request>, shown: seq<Notice>, logged: seq<PageError>)
    modifies session
    ensures Page(session.values, sent, shown, logged) == ClickSpec(old(session.values), env, product, license, server)
  {
    if product.None? || license.None? {
      return [], [ErrorBanner(MissingUploadsMessage)], [];
    }
    var handler := NewProductHandler(env.hostname, env.apiKey);
    var outcome;
    outcome, sent, shown := RunSteps(session, Inputs(handler, product.value, license.value, server));
    logged := [];
    if outcome.Failure? {
      logged := logged + [outcome.error];
      shown := shown + [ErrorBanner(ValidationFailedMessage)];
    }
  }

  /** `main`: stop at the login gate, create the missing session slots, and handle a click. */
  method PageLoad(session: SessionState, jar: CookieJar, env: Config, clicked: bool,
              product: Option<UploadedFile>, license: Option<UploadedFile>,
              server: (nat, Request) -> Reply)
    returns (sent: seq<Request>, shown: seq<Notice>, logged: seq<PageError>)
    modifies session
    ensures Page(session.values, sent, shown, logged) ==
      PageLoadSpec(old(Gate(session.values, jar.cookies)), env, clicked, product, license, server)
  {
    var authenticated, shownError := CheckForm(session, jar);
    if !authenticated {
      shown := if shownError.Some? then [FormError(shownError.value)] else [];
      return [], shown, [];
    }
    if "job_id" !in session.values {
      session.values := session.values["job_id" := JNull];
    }
    if "company_job_id" !in session.values {
      session.values := session.values["company_job_id" := JNull];
    }
    if "verification_result" !in session.values {
      session.values := session.values["verification_result" := JNull];
    }
    sent, shown, logged := [], [], [];
    if clicked {
      sent, shown, logged := Validate(session, env, product, license, server);
    }
  }
}
