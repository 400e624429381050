/**
 * `ProductHandler`, the HTTP client of handlers/product_handlers.py.
 *
 * Each of its eleven methods builds one POST request to a fixed path under
 * `HOSTNAME + "/public/v1"`, authenticated as `(INTERNAL_API_KEY, "")`, and then
 * classifies the reply: status 200 yields one named field of the JSON body,
 * anything else raises with a fixed message prefix followed by the body text.
 * The HTTP transport is not modelled; a `Reply` stands for what `requests.post`
 * produced.
 */
module ProductHandlers {
  import opened Wrappers
  import opened JsonValue
  import opened Text

  newtype byte = x: int | 0 <= x < 256

  /** A file the user picked in the upload widget. */
  datatype UploadedFile = UploadedFile(name: string, content: seq<byte>, mediaType: string)

  datatype Body =
    | Multipart(partName: string, file: UploadedFile)
    | JsonBody(fields: map<string, Json>)

  datatype Request = Request(url: string, auth: (string, string), body: Body)

  /** What the server sent back: the status code, the raw body text and the body
      decoded as JSON (None when `response.json()` would raise). */
  datatype Response = Response(status: int, text: string, json: Option<Json>)

  /** The outcome of `requests.post`: a response, or an exception from the transport. */
  datatype Reply = Received(response: Response) | TransportFailure(reason: string)

  /** The exceptions a handler method lets escape. */
  datatype Error =
    | RequestFailed(message: string)  // the explicit `raise Exception(error_msg)` on a non-200 status
    | ConnectionFailed(reason: string) // raised by `requests.post` itself
    | InvalidJson                     // raised by `response.json()`
    | MissingField(field: string)     // KeyError/TypeError from `response.json()[field]`

  /** The eleven remote operations, one per method of `ProductHandler`. */
  datatype Endpoint =
    | ProductUpload
    | CompanyUpload
    | CompanyVerify
    | LabVerify
    | ProductCategoryVerify
    | ModelNumberVerify
    | ProductUsageVerify
    | CertificateRetrieve
    | CertificateManufacturerVerify
    | CertificateModelNumberVerify
    | DescriptionEnhance

  const BasePath: string := "/public/v1"

  /** The path each method posts to, below the base URL. */
  function Suffix(e: Endpoint): string {
    match e
    case ProductUpload => "/product/upload"
    case CompanyUpload => "/company/upload"
    case CompanyVerify => "/company/verify"
    case LabVerify => "/lab/verify"
    case ProductCategoryVerify => "/product/verification/product-category"
    case ModelNumberVerify => "/product/verification/model-number"
    case ProductUsageVerify => "/product/verification/product-usage"
    case CertificateRetrieve => "/certificate/retrieve"
    case CertificateManufacturerVerify => "/certificate/verification/manufacturer"
    case CertificateModelNumberVerify => "/certificate/verification/model-number"
    case DescriptionEnhance => "/product/enhancement/product-description"
  }

  /** The inverse of `Suffix`. */
  function EndpointAtSuffix(path: string): Option<Endpoint> {
    if path == "/product/upload" then Some(ProductUpload)
    else if path == "/company/upload" then Some(CompanyUpload)
    else if path == "/company/verify" then Some(CompanyVerify)
    else if path == "/lab/verify" then Some(LabVerify)
    else if path == "/product/verification/product-category" then Some(ProductCategoryVerify)
    else if path == "/product/verification/model-number" then Some(ModelNumberVerify)
    else if path == "/product/verification/product-usage" then Some(ProductUsageVerify)
    else if path == "/certificate/retrieve" then Some(CertificateRetrieve)
    else if path == "/certificate/verification/manufacturer" then Some(CertificateManufacturerVerify)
    else if path == "/certificate/verification/model-number" then Some(CertificateModelNumberVerify)
    else if path == "/product/enhancement/product-description" then Some(DescriptionEnhance)
    else None
  }

  /** What the error message says the method was doing: `"Failed to " + Purpose + ": "`. */
  function Purpose(e: Endpoint): string {
    match e
    case ProductUpload => "upload file"
    case CompanyUpload => "upload company license"
    case CompanyVerify => "verify company license"
    case LabVerify => "verify lab"
    case ProductCategoryVerify => "verify product category"
    case ModelNumberVerify => "verify model number"
    case ProductUsageVerify => "verify product usage"
    case CertificateRetrieve => "retrieve certificate"
    case CertificateManufacturerVerify => "verify certificate manufacturer"
    case CertificateModelNumberVerify => "verify certificate model number"
    case DescriptionEnhance => "enhance product description"
  }

  /** The inverse of `Purpose`. */
  function EndpointWithPurpose(purpose: string): Option<Endpoint> {
    if purpose == "upload file" then Some(ProductUpload)
    else if purpose == "upload company license" then Some(CompanyUpload)
    else if purpose == "verify company license" then Some(CompanyVerify)
    else if purpose == "verify lab" then Some(LabVerify)
    else if purpose == "verify product category" then Some(ProductCategoryVerify)
    else if purpose == "verify model number" then Some(ModelNumberVerify)
    else if purpose == "verify product usage" then Some(ProductUsageVerify)
    else if purpose == "retrieve certificate" then Some(CertificateRetrieve)
    else if purpose == "verify certificate manufacturer" then Some(CertificateManufacturerVerify)
    else if purpose == "verify certificate model number" then Some(CertificateModelNumberVerify)
    else if purpose == "enhance product description" then Some(DescriptionEnhance)
    else None
  }

  /** The JSON field a successful reply is unwrapped to. */
  function ResultField(e: Endpoint): string {
    match e
    case ProductUpload => "job_id"
    case CompanyUpload => "job_id"
    case CertificateRetrieve => "certificate"
    case DescriptionEnhance => "enhancement"
    case _ => "verification"
  }

  /** The message raised after a non-200 status: the method's fixed prefix, then the body text. */
  function FailureMessage(e: Endpoint, text: string): string {
    "Failed to " + Purpose(e) + ": " + text
  }

  /** Recovers the failing operation and the server's body text from a raised message. */
  function ParseFailureMessage(message: string): Option<(Endpoint, string)> {
    if |message| < 10 || message[..10] != "Failed to " then None
    else
      var colon := IndexOf(message, ':', 10);
      if colon + 2 > |message| || message[colon + 1] != ' ' then None
      else match EndpointWithPurpose(message[10..colon])
        case None => None
        case Some(e) => Some((e, message[colon + 2..]))
  }

  /** Distinct operations have distinct purposes. */
  lemma PurposeInverse(e: Endpoint)
    ensures EndpointWithPurpose(Purpose(e)) == Some(e)
  {
  }

  /** No purpose contains the ':' that ends it in a message. */
  lemma PurposeHasNoColon(e: Endpoint)
    ensures ':' !in Purpose(e)
  {
    if e.ProductUpload? || e.CompanyUpload? || e.CompanyVerify? || e.LabVerify? {
      UploadPurposesHaveNoColon(e);
    } else if e.ProductCategoryVerify? || e.ModelNumberVerify? || e.ProductUsageVerify? || e.DescriptionEnhance? {
      ProductPurposesHaveNoColon(e);
    } else {
      CertificatePurposesHaveNoColon(e);
    }
  }

  /** The purposes of the two uploads and the two document checks. */
  lemma UploadPurposesHaveNoColon(e: Endpoint)
    requires e.ProductUpload? || e.CompanyUpload? || e.CompanyVerify? || e.LabVerify?
    ensures ':' !in Purpose(e)
  {
    match e
    case ProductUpload =>
    case CompanyUpload =>
    case CompanyVerify =>
    case LabVerify =>
  }

  /** The purposes of the product-detail checks and the enhancement. */
  lemma ProductPurposesHaveNoColon(e: Endpoint)
    requires e.ProductCategoryVerify? || e.ModelNumberVerify? || e.ProductUsageVerify? || e.DescriptionEnhance?
    ensures ':' !in Purpose(e)
  {
    match e
    case ProductCategoryVerify =>
    case ModelNumberVerify =>
    case ProductUsageVerify =>
    case DescriptionEnhance =>
  }

  /** The purposes of the certificate steps. */
  lemma CertificatePurposesHaveNoColon(e: Endpoint)
    requires e.CertificateRetrieve? || e.CertificateManufacturerVerify? || e.CertificateModelNumberVerify?
    ensures ':' !in Purpose(e)
  {
    match e
    case CertificateRetrieve =>
    case CertificateManufacturerVerify =>
    case CertificateModelNumberVerify =>
  }

  /** Splitting a message at its first ':' recovers the purpose and the text. */
  lemma ParseSplit(purpose: string, text: string)
    requires ':' !in purpose
    ensures ParseFailureMessage("Failed to " + purpose + ": " + text) ==
      match EndpointWithPurpose(purpose)
      case None => None
      case Some(e) => Some((e, text))
  {
    var m := "Failed to " + purpose + ": " + text;
    var n := |purpose|;
    assert m[..10] == "Failed to ";
    assert m[10..10 + n] == purpose;
    assert m[10 + n] == ':' && m[10 + n + 1] == ' ';
    assert IndexOf(m, ':', 10) == 10 + n;
    assert m[10 + n + 2..] == text;
  }

  /** The error message names the failing operation and keeps the body text unchanged:
      both can be read back from it. */
  lemma ParseFailureMessageInverse(e: Endpoint, text: string)
    ensures ParseFailureMessage(FailureMessage(e, text)) == Some((e, text))
  {
    PurposeInverse(e);
    PurposeHasNoColon(e);
    ParseSplit(Purpose(e), text);
  }

  /** `self.base_url` and `self.auth`, fixed in `__init__` and never updated. */
  datatype ProductHandler = ProductHandler(baseUrl: string, auth: (string, string))

  /** `ProductHandler()`: the host and the API key are read from the environment. Every
      request it builds goes to `hostname + "/public/v1"` followed by the endpoint's own
      suffix, with the API key as user name and an empty password. */
  function NewProductHandler(hostname: string, apiKey: string): (h: ProductHandler)
    ensures h.baseUrl == hostname + "/public/v1"
    ensures h.auth.0 == apiKey && h.auth.1 == ""
    ensures forall e: Endpoint, body: Body ::
      Post(h, e, body).url == hostname + "/public/v1" + Suffix(e) && Post(h, e, body).auth == (apiKey, "")
  {
    ProductHandler(hostname + BasePath, (apiKey, ""))
  }

  /** Every request of a new handler is addressed below its base URL to the endpoint
      that built it, so no two methods share a URL. */
  lemma NewHandlerRoutes(hostname: string, apiKey: string, e: Endpoint, body: Body)
    ensures var h := NewProductHandler(hostname, apiKey);
      Route(h, Post(h, e, body)) == Some(e)
  {
    RouteInverse(NewProductHandler(hostname, apiKey), e, body);
  }

  /** A POST of `body` to endpoint `e` of the handler's base URL. */
  function Post(h: ProductHandler, e: Endpoint, body: Body): Request {
    Request(h.baseUrl + Suffix(e), h.auth, body)
  }

  /** The endpoint a request addresses, when it is below the handler's base URL. */
  function Route(h: ProductHandler, r: Request): Option<Endpoint> {
    if |h.baseUrl| <= |r.url| && r.url[..|h.baseUrl|] == h.baseUrl
    then EndpointAtSuffix(r.url[|h.baseUrl|..])
    else None
  }

  /** Every request reaches exactly the endpoint it was built for: the eleven paths
      are distinct. */
  lemma RouteInverse(h: ProductHandler, e: Endpoint, body: Body)
    ensures Route(h, Post(h, e, body)) == Some(e)
  {
    var url := h.baseUrl + Suffix(e);
    assert url[..|h.baseUrl|] == h.baseUrl;
    assert url[|h.baseUrl|..] == Suffix(e);
    SuffixInverse(e);
  }

  /** The eleven paths are distinct: each names its endpoint. */
  lemma SuffixInverse(e: Endpoint)
    ensures EndpointAtSuffix(Suffix(e)) == Some(e)
  {
    if e.ProductUpload? || e.ProductCategoryVerify? || e.ModelNumberVerify? || e.ProductUsageVerify? || e.DescriptionEnhance? {
      ProductSuffixInverse(e);
    } else {
      OtherSuffixInverse(e);
    }
  }

  /** The paths under `/product`. */
  lemma ProductSuffixInverse(e: Endpoint)
    requires e.ProductUpload? || e.ProductCategoryVerify? || e.ModelNumberVerify? || e.ProductUsageVerify? || e.DescriptionEnhance?
    ensures EndpointAtSuffix(Suffix(e)) == Some(e)
  {
    match e
    case ProductUpload =>
    case ProductCategoryVerify =>
    case ModelNumberVerify =>
    case ProductUsageVerify =>
    case DescriptionEnhance =>
  }

  /** The paths under `/company`, `/lab` and `/certificate`. */
  lemma OtherSuffixInverse(e: Endpoint)
    requires !(e.ProductUpload? || e.ProductCategoryVerify? || e.ModelNumberVerify? || e.ProductUsageVerify? || e.DescriptionEnhance?)
    ensures EndpointAtSuffix(Suffix(e)) == Some(e)
  {
    match e
    case CompanyUpload =>
    case CompanyVerify =>
    case LabVerify =>
    case CertificateRetrieve =>
    case CertificateManufacturerVerify =>
    case CertificateModelNumberVerify =>
  }

  /** The JSON body of every job-scoped call. */
  function JobFields(jobId: Json, filename: string): (m: map<string, Json>)
    ensures m.Keys == {"job_id", "filename"}
    ensures m["job_id"] == jobId && m["filename"] == JStr(filename)
  {
    map["job_id" := jobId, "filename" := JStr(filename)]
  }

  /** The JSON body of the two certificate checks. */
  function CertificateFields(certificate: Json, jobId: Json, filename: string): (m: map<string, Json>)
    ensures m.Keys == {"certificate", "job_id", "filename"}
    ensures m["certificate"] == certificate && m["job_id"] == jobId && m["filename"] == JStr(filename)
  {
    map["certificate" := certificate, "job_id" := jobId, "filename" := JStr(filename)]
  }

  /** The request of a job-scoped call: `{job_id, filename}` to endpoint `e`. */
  function JobRequest(h: ProductHandler, e: Endpoint, jobId: Json, filename: string): (r: Request)
    ensures Route(h, r) == Some(e) && r.auth == h.auth
    ensures r.body.JsonBody? && r.body.fields.Keys == {"job_id", "filename"}
    ensures r.body.fields["job_id"] == jobId && r.body.fields["filename"] == JStr(filename)
  {
    RouteInverse(h, e, JsonBody(JobFields(jobId, filename)));
    Post(h, e, JsonBody(JobFields(jobId, filename)))
  }

  /** The request of a certificate check: `{certificate, job_id, filename}` to endpoint `e`. */
  function CertificateRequest(h: ProductHandler, e: Endpoint, certificate: Json, jobId: Json, filename: string): (r: Request)
    ensures Route(h, r) == Some(e) && r.auth == h.auth
    ensures r.body.JsonBody? && r.body.fields.Keys == {"certificate", "job_id", "filename"}
    ensures r.body.fields["certificate"] == certificate
    ensures r.body.fields["job_id"] == jobId && r.body.fields["filename"] == JStr(filename)
  {
    RouteInverse(h, e, JsonBody(CertificateFields(certificate, jobId, filename)));
    Post(h, e, JsonBody(CertificateFields(certificate, jobId, filename)))
  }

  /** `upload`: the product CSV as the multipart part "file". */
  function Upload(h: ProductHandler, file: UploadedFile): (r: Request)
    ensures Route(h, r) == Some(ProductUpload) && r.auth == h.auth
    ensures r.body == Multipart("file", file)
  {
    RouteInverse(h, ProductUpload, Multipart("file", file));
    Post(h, ProductUpload, Multipart("file", file))
  }

  /** `upload_company_license`: the license PDF as the multipart part "file". */
  function UploadCompanyLicense(h: ProductHandler, file: UploadedFile): (r: Request)
    ensures Route(h, r) == Some(CompanyUpload) && r.auth == h.auth
    ensures r.body == Multipart("file", file)
  {
    RouteInverse(h, CompanyUpload, Multipart("file", file));
    Post(h, CompanyUpload, Multipart("file", file))
  }

  /** `verify_company`: the product job, its file name and the company job, under the
      keys `product_job_id`, `product_filename` and `company_job_id`. */
  function VerifyCompany(h: ProductHandler, productJobId: Json, productFilename: string, companyJobId: Json): (r: Request)
    ensures Route(h, r) == Some(CompanyVerify) && r.auth == h.auth
    ensures r.body.JsonBody?
    ensures r.body.fields.Keys == {"product_job_id", "product_filename", "company_job_id"}
    ensures r.body.fields["product_job_id"] == productJobId
    ensures r.body.fields["product_filename"] == JStr(productFilename)
    ensures r.body.fields["company_job_id"] == companyJobId
  {
    var fields := map["product_job_id" := productJobId, "product_filename" := JStr(productFilename),
                      "company_job_id" := companyJobId];
    RouteInverse(h, CompanyVerify, JsonBody(fields));
    Post(h, CompanyVerify, JsonBody(fields))
  }

  /** `verify_lab`: `{job_id, filename}` posted to `/lab/verify`. */
  function VerifyLab(h: ProductHandler, jobId: Json, filename: string): (r: Request)
    ensures r.url == h.baseUrl + "/lab/verify" && r.auth == h.auth
    ensures Route(h, r) == Some(LabVerify)
    ensures r.body == JsonBody(map["job_id" := jobId, "filename" := JStr(filename)])
  {
    JobRequest(h, LabVerify, jobId, filename)
  }

  /** `verify_product_category`: `{job_id, filename}` posted to `/product/verification/product-category`. */
  function VerifyProductCategory(h: ProductHandler, jobId: Json, filename: string): (r: Request)
    ensures r.url == h.baseUrl + "/product/verification/product-category" && r.auth == h.auth
    ensures Route(h, r) == Some(ProductCategoryVerify)
    ensures r.body == JsonBody(map["job_id" := jobId, "filename" := JStr(filename)])
  {
    JobRequest(h, ProductCategoryVerify, jobId, filename)
  }

  /** `verify_model_number`: `{job_id, filename}` posted to `/product/verification/model-number`. */
  function VerifyModelNumber(h: ProductHandler, jobId: Json, filename: string): (r: Request)
    ensures r.url == h.baseUrl + "/product/verification/model-number" && r.auth == h.auth
    ensures Route(h, r) == Some(ModelNumberVerify)
    ensures r.body == JsonBody(map["job_id" := jobId, "filename" := JStr(filename)])
  {
    JobRequest(h, ModelNumberVerify, jobId, filename)
  }

  /** `verify_product_usage`: `{job_id, filename}` posted to `/product/verification/product-usage`. */
  function VerifyProductUsage(h: ProductHandler, jobId: Json, filename: string): (r: Request)
    ensures r.url == h.baseUrl + "/product/verification/product-usage" && r.auth == h.auth
    ensures Route(h, r) == Some(ProductUsageVerify)
    ensures r.body == JsonBody(map["job_id" := jobId, "filename" := JStr(filename)])
  {
    JobRequest(h, ProductUsageVerify, jobId, filename)
  }

  /** `retrieve_certificate`: `{job_id, filename}` posted to `/certificate/retrieve`. */
  function RetrieveCertificate(h: ProductHandler, jobId: Json, filename: string): (r: Request)
    ensures r.url == h.baseUrl + "/certificate/retrieve" && r.auth == h.auth
    ensures Route(h, r) == Some(CertificateRetrieve)
    ensures r.body == JsonBody(map["job_id" := jobId, "filename" := JStr(filename)])
  {
    JobRequest(h, CertificateRetrieve, jobId, filename)
  }

  /** `verify_certificate_manufacturer`: `{certificate, job_id, filename}` posted to `/certificate/verification/manufacturer`. */
  function VerifyCertificateManufacturer(h: ProductHandler, certificate: Json, jobId: Json, filename: string): (r: Request)
    ensures r.url == h.baseUrl + "/certificate/verification/manufacturer" && r.auth == h.auth
    ensures Route(h, r) == Some(CertificateManufacturerVerify)
    ensures r.body == JsonBody(map["certificate" := certificate, "job_id" := jobId, "filename" := JStr(filename)])
  {
    CertificateRequest(h, CertificateManufacturerVerify, certificate, jobId, filename)
  }

  /** `verify_certificate_model_number`: `{certificate, job_id, filename}` posted to `/certificate/verification/model-number`. */
  function VerifyCertificateModelNumber(h: ProductHandler, certificate: Json, jobId: Json, filename: string): (r: Request)
    ensures r.url == h.baseUrl + "/certificate/verification/model-number" && r.auth == h.auth
    ensures Route(h, r) == Some(CertificateModelNumberVerify)
    ensures r.body == JsonBody(map["certificate" := certificate, "job_id" := jobId, "filename" := JStr(filename)])
  {
    CertificateRequest(h, CertificateModelNumberVerify, certificate, jobId, filename)
  }

  /** `enhance_product_description`: `{job_id, filename}` posted to `/product/enhancement/product-description`. */
  function EnhanceProductDescription(h: ProductHandler, jobId: Json, filename: string): (r: Request)
    ensures r.url == h.baseUrl + "/product/enhancement/product-description" && r.auth == h.auth
    ensures Route(h, r) == Some(DescriptionEnhance)
    ensures r.body == JsonBody(map["job_id" := jobId, "filename" := JStr(filename)])
  {
    JobRequest(h, DescriptionEnhance, jobId, filename)
  }

  /**
   * What every method does with the reply to its request: status exactly 200 and a
   * JSON object holding the method's field yield that field's value; any other status
   * raises the method's message with the body text, before the body is decoded.
   */
  function Receive(e: Endpoint, reply: Reply): (r: Result<Json, Error>)
    ensures r.Success? <==>
      && reply.Received? && reply.response.status == 200
      && reply.response.json.Some? && reply.response.json.value.JObj?
      && ResultField(e) in reply.response.json.value.fields
    ensures r.Success? ==> r.value == reply.response.json.value.fields[ResultField(e)]
    ensures reply.Received? && reply.response.status != 200 ==>
      r == Failure(RequestFailed(FailureMessage(e, reply.response.text)))
  {
    match reply
    case TransportFailure(reason) => Failure(ConnectionFailed(reason))
    case Received(response) =>
      if response.status != 200 then
        Failure(RequestFailed(FailureMessage(e, response.text)))
      else
        match response.json
        case None => Failure(InvalidJson)
        case Some(JObj(fields)) =>
          if ResultField(e) in fields then Success(fields[ResultField(e)])
          else Failure(MissingField(ResultField(e)))
        case Some(_) => Failure(MissingField(ResultField(e)))
  }

  /** A rejected call reads nothing from the body but its text: two replies with the
      same non-200 status and text fail identically whatever their JSON. */
  lemma RejectionIgnoresJson(e: Endpoint, a: Response, b: Response)
    requires a.status == b.status && a.status != 200 && a.text == b.text
    ensures Receive(e, Received(a)) == Receive(e, Received(b))
    ensures Receive(e, Received(a)).Failure?
  {
  }

  /** A raised message always identifies the failing call and carries the body text verbatim. */
  lemma RejectionIsReadable(e: Endpoint, response: Response)
    requires response.status != 200
    ensures Receive(e, Received(response)).Failure?
    ensures Receive(e, Received(response)).error.RequestFailed?
    ensures ParseFailureMessage(Receive(e, Received(response)).error.message) == Some((e, response.text))
  {
    ParseFailureMessageInverse(e, response.text);
  }
}
