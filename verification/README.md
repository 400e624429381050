# Product approvals UI — a verified model of its core

product-approvals-ui is a Streamlit page that checks a fire-safety product submission
against a remote approvals service. Before showing the page it sends the user through a
login gate. The user then uploads a product CSV and a company license PDF and presses
Validate. The page makes eleven calls to the service in a fixed order:

- the two uploads;
- the company license, lab, product category, model number and product usage checks;
- retrieving the certificate;
- the two certificate checks;
- the description enhancement.

That is eleven handler calls in all: two uploads and nine checks. Each result is rendered
as soon as it arrives. A handler that gets a status other than 200 first shows its
failure message, which includes the server's body text, and then raises. The first failure
ends the click, with one logged error and one generic message.

This project models four parts of that program in Dafny and proves what each promises.

- `Auth` (auth.dfy) is the login gate of `utils/auth.py`:
  - the email-shape check, proved equal to its regular expression;
  - the password check;
  - `validate_form`, which writes the session flag, the error message and two cookies;
  - `check_form`, which lets the user in on the session flag or on the login cookie.

  `SessionState` and `CookieJar` (session.dfy) are the objects these callbacks update.
- `ProductHandlers` (handlers.dfy) is `ProductHandler` of `handlers/product_handlers.py`:
  - the request each of its eleven methods builds: its URL, credentials and body;
  - how each method classifies the reply: status 200 gives one named JSON field, and any
    other status raises the method's fixed message followed by the body text.
- `App` (app.dfy) is `app.py`:
  - the two result renderers;
  - the step table of a click (`RunFrom`, `Pipeline`);
  - the imperative click (`RunSteps`), built from one method per section of the try block,
    with the consecutive checks grouped into three methods;
  - `main` itself (`PageLoad`).

  Each method is proved to do exactly what the table says. Lemmas over the table state the
  order of the calls, how the identifiers are threaded, the abort, and what is shown.
- `Loggers` (loggers.dfy) is `utils/loggers.py`:
  - `_filename_wo_ext`, `logger_name` and `str.strip`, as string functions;
  - `make_json_logger` and `make_logger`, as methods on a logging registry object, proved
    against a specification function;
  - lemmas stating that a logger never gets a second stream handler.

`Wrappers` (wrappers.dfy), `JsonValue` (json.dfy) and `Text` (text.dfy) hold the Result
and Option types, decoded JSON values with Python's truthiness and `dict.get`, and a
character search.

The server is an input of the model: a function from the index of a request within the
click, and the request itself, to the reply (a response, or a transport exception). The
environment (`HOSTNAME`, `INTERNAL_API_KEY`, `KUBERNETES_SERVICE_HOST`) and the calling
module that `logger_name` finds with `inspect` are also inputs.

## Model

| member | source | states |
|---|---|---|
| JsonValue.Get | product-approvals-ui/src/app.py:18-21 | `dict.get(key, default)`: the bound value when the key is present, the default otherwise |
| Auth.CheckEmailIsPattern | product-approvals-ui/src/utils/auth.py:29-31 | `check_email` accepts exactly the strings with a non-empty run, '@', a non-empty run, '.', and one more character, all before any line break; anything may follow |
| Auth.CheckPassword | product-approvals-ui/src/utils/auth.py:33-35 | `compare_digest` raises TypeError exactly when the password or the key holds a non-ASCII character, and otherwise answers whether they are equal |
| Auth.Judge | product-approvals-ui/src/utils/auth.py:37-47 | the email is judged first: a malformed email is rejected whatever the password; for a well-formed one, a non-ASCII password or key raises, and otherwise it is rejected exactly when the password differs from the key and accepted when it equals it |
| Auth.ValidateForm | product-approvals-ui/src/utils/auth.py:37-54 | the callback's writes to the session and the cookies are exactly those of the specification `ValidateFormSpec`; when `compare_digest` raises, the exception escapes and nothing has been written |
| Auth.IncomparablePasswordRaises | product-approvals-ui/src/utils/auth.py:35-44 | a well-formed email with a non-ASCII password or key ends `validate_form` with the TypeError, writing neither the flag nor a message nor a cookie |
| Auth.RejectedSubmission | product-approvals-ui/src/utils/auth.py:39-47 | a rejection sets `form_correct` to False and the message of its verdict, keeps the password and every other key, and writes no cookie |
| Auth.AcceptedSubmission | product-approvals-ui/src/utils/auth.py:49-54 | an acceptance sets `form_correct` to True, deletes the password, keeps every other key, and writes exactly `bp_email := email` and `bp_form_correct := "True"` |
| Auth.PasswordNeverPersisted | product-approvals-ui/src/utils/auth.py:49-54 | no cookie comes to hold the password unless it already held it, or the password equals the email or "True" |
| Auth.CheckForm | product-approvals-ui/src/utils/auth.py:56-67 | the gate's answer, the error it shows and its session writes are exactly those of the specification `CheckFormSpec` |
| Auth.SessionFlagShortCircuits | product-approvals-ui/src/utils/auth.py:56-57 | a truthy session flag lets the user in and changes nothing, whatever the cookies hold |
| Auth.CookieRestoresLogin | product-approvals-ui/src/utils/auth.py:59-62 | without the flag, a `bp_form_correct` cookie equal to "True" lets the user in, sets the flag and copies `bp_email` into the session |
| Auth.OtherwiseRefused | product-approvals-ui/src/utils/auth.py:64-67 | every other load is refused and changes no key the model tracks (no attempt counter); the stored error is shown exactly when it is truthy |
| Auth.CheckFormDecision | product-approvals-ui/src/utils/auth.py:56-67 | the gate lets the user in if and only if the session flag is truthy or the cookie marker is exactly "True" |
| Auth.LoginPersistsAcrossSessions | product-approvals-ui/src/utils/auth.py:53-62 | after an accepted login, a fresh session with the same cookies is let in under the email used to log in |
| Auth.LoginThenRevisit | product-approvals-ui/src/utils/auth.py:49-62 | the same on the session and cookie objects: correct credentials, then a new session, pass the gate without the form |
| ProductHandlers.PurposeInverse | product-approvals-ui/src/handlers/product_handlers.py:30 | the eleven error-message prefixes are distinct: the prefix names its method |
| ProductHandlers.PurposeHasNoColon | product-approvals-ui/src/handlers/product_handlers.py:30 | no method's prefix contains the ':' that ends it in the message |
| ProductHandlers.ParseSplit | product-approvals-ui/src/handlers/product_handlers.py:30 | a message of the form `Failed to <purpose>: <text>` splits back into the purpose and the text |
| ProductHandlers.ParseFailureMessageInverse | product-approvals-ui/src/handlers/product_handlers.py:29-32 | every raised message can be read back into the failing method and the unchanged body text |
| ProductHandlers.NewProductHandler | product-approvals-ui/src/handlers/product_handlers.py:16-18 | the base URL is `HOSTNAME + "/public/v1"` and the credentials `(INTERNAL_API_KEY, "")`; every request goes to that base URL followed by its endpoint's suffix, with those credentials |
| ProductHandlers.NewHandlerRoutes | product-approvals-ui/src/handlers/product_handlers.py:16-24 | every request a new handler builds is routed back to the endpoint that built it |
| ProductHandlers.SuffixInverse | product-approvals-ui/src/handlers/product_handlers.py:24 | the eleven URL suffixes are distinct: each names its own endpoint |
| ProductHandlers.RouteInverse | product-approvals-ui/src/handlers/product_handlers.py:17-24 | every request, whatever its body, reaches exactly the endpoint it was built for below the handler's base URL |
| ProductHandlers.JobFields | product-approvals-ui/src/handlers/product_handlers.py:82 | a job-scoped body has exactly the keys `job_id` and `filename`, holding the job id and the file name |
| ProductHandlers.CertificateFields | product-approvals-ui/src/handlers/product_handlers.py:178 | a certificate-check body has exactly the keys `certificate`, `job_id` and `filename`, holding the certificate, the job id and the file name |
| ProductHandlers.JobRequest | product-approvals-ui/src/handlers/product_handlers.py:81-82 | a job-scoped call posts `{job_id, filename}`, carrying its arguments, to its own endpoint with the handler's credentials |
| ProductHandlers.CertificateRequest | product-approvals-ui/src/handlers/product_handlers.py:177-178 | a certificate check forwards its certificate unchanged, with the job id and file name, to its own endpoint |
| ProductHandlers.Upload | product-approvals-ui/src/handlers/product_handlers.py:24-28 | `upload` posts the file as the multipart part "file" to the product upload endpoint |
| ProductHandlers.UploadCompanyLicense | product-approvals-ui/src/handlers/product_handlers.py:42-46 | `upload_company_license` posts the file as the part "file" to the company upload endpoint |
| ProductHandlers.VerifyCompany | product-approvals-ui/src/handlers/product_handlers.py:62-63 | `verify_company` sends exactly `product_job_id`, `product_filename` and `company_job_id`, bound to its three arguments |
| ProductHandlers.VerifyLab | product-approvals-ui/src/handlers/product_handlers.py:75-82 | posts `{job_id, filename}` to the base URL followed by `/lab/verify`, with the handler's credentials; the request routes to `LabVerify` |
| ProductHandlers.VerifyProductCategory | product-approvals-ui/src/handlers/product_handlers.py:95-102 | posts `{job_id, filename}` to the base URL followed by `/product/verification/product-category`, with the handler's credentials; the request routes to `ProductCategoryVerify` |
| ProductHandlers.VerifyModelNumber | product-approvals-ui/src/handlers/product_handlers.py:114-121 | posts `{job_id, filename}` to the base URL followed by `/product/verification/model-number`, with the handler's credentials; the request routes to `ModelNumberVerify` |
| ProductHandlers.VerifyProductUsage | product-approvals-ui/src/handlers/product_handlers.py:133-140 | posts `{job_id, filename}` to the base URL followed by `/product/verification/product-usage`, with the handler's credentials; the request routes to `ProductUsageVerify` |
| ProductHandlers.RetrieveCertificate | product-approvals-ui/src/handlers/product_handlers.py:152-159 | posts `{job_id, filename}` to the base URL followed by `/certificate/retrieve`, with the handler's credentials; the request routes to `CertificateRetrieve` |
| ProductHandlers.VerifyCertificateManufacturer | product-approvals-ui/src/handlers/product_handlers.py:171-178 | posts `{certificate, job_id, filename}` to the base URL followed by `/certificate/verification/manufacturer`, with the handler's credentials; the request routes to `CertificateManufacturerVerify` |
| ProductHandlers.VerifyCertificateModelNumber | product-approvals-ui/src/handlers/product_handlers.py:190-197 | posts `{certificate, job_id, filename}` to the base URL followed by `/certificate/verification/model-number`, with the handler's credentials; the request routes to `CertificateModelNumberVerify` |
| ProductHandlers.EnhanceProductDescription | product-approvals-ui/src/handlers/product_handlers.py:209-216 | posts `{job_id, filename}` to the base URL followed by `/product/enhancement/product-description`, with the handler's credentials; the request routes to `DescriptionEnhance` |
| ProductHandlers.Receive | product-approvals-ui/src/handlers/product_handlers.py:28-36 | a call succeeds if and only if the status is exactly 200 and the JSON object holds the method's field, and then yields that field; any other status raises the method's prefix followed by the body text |
| ProductHandlers.RejectionIgnoresJson | product-approvals-ui/src/handlers/product_handlers.py:29-32 | a rejected call reads nothing but the body text: two replies with the same status and text fail the same way |
| ProductHandlers.RejectionIsReadable | product-approvals-ui/src/handlers/product_handlers.py:29-32 | a non-200 reply always raises a message that names the method and carries the body text verbatim |
| Loggers.Tail | product-approvals-ui/src/utils/loggers.py:82 | `os.path.split(p)[1]`: the longest suffix without '/', preceded by '/' when it is not the whole path |
| Loggers.BeforeFirstDot | product-approvals-ui/src/utils/loggers.py:82 | `split(".", 1)[0]`: the prefix that ends just before the first '.', or the whole string |
| Loggers.FilenameWoExt | product-approvals-ui/src/utils/loggers.py:80-82 | the result is a prefix of the last path component without '.' or '/', and is the whole component when it has no '.' |
| Loggers.Strip | product-approvals-ui/src/utils/loggers.py:115 | `str.strip()`: the slice left after removing leading and trailing whitespace; empty exactly when the string is all whitespace |
| Loggers.LoggerName | product-approvals-ui/src/utils/loggers.py:85-119 | no module gives an error; a name other than `__main__` is returned unchanged; `__main__` with a file gives `_filename_wo_ext(file)`; without a file, the stripped fallback if it is non-empty, and an error otherwise |
| Loggers.LoggerNameOfScript | product-approvals-ui/src/utils/loggers.py:108-117 | a name derived for a script holds no '/' or '.', and a fallback name never starts or ends with whitespace |
| Loggers.LoggingRegistry.MakeJsonLogger | product-approvals-ui/src/utils/loggers.py:24-70 | the registry and the exception hook after the call, and the logger returned, are exactly those of the specification `MakeJsonLoggerSpec` |
| Loggers.LoggingRegistry.MakeLogger | product-approvals-ui/src/utils/loggers.py:73-77 | `make_logger` is `make_json_logger` with level -1 replaced by DEBUG and every other level passed through |
| Loggers.MakeJsonLoggerIdempotent | product-approvals-ui/src/utils/loggers.py:31-34 | a second call for the same name, at any level and in any environment, changes nothing and returns the same logger |
| Loggers.MakeJsonLoggerHandlers | product-approvals-ui/src/utils/loggers.py:32-45 | one call appends one stream handler to the named logger if it had none; every other handler list stays as it was |
| Loggers.StreamCountPositive | product-approvals-ui/src/utils/loggers.py:32 | a handler list has a stream handler if and only if its count of stream handlers is positive |
| Loggers.StreamCountAfterCall | product-approvals-ui/src/utils/loggers.py:31-46 | one call leaves every logger's count of stream handlers as it was, except that the named logger goes from none to exactly one |
| Loggers.StreamHandlerAddedOnce | product-approvals-ui/src/utils/loggers.py:31-46 | after any sequence of calls, a logger named by one of them that had no stream handler has exactly one; the others keep their count |
| App.DisplayVerificationResult | product-approvals-ui/src/app.py:17-30 | PASSED if and only if "valid" is truthy (False when absent) and the header is not "Verified product usage"; the explanation, or its default, is shown on both branches; a result that is not a dict fails |
| App.DisplayEnhancementResult | product-approvals-ui/src/app.py:33-41 | always COMPLETED, showing the enhanced value and the explanation, or their defaults; a result that is not a dict fails |
| App.StepsCallEachMethodOnce | product-approvals-ui/src/app.py:73-200 | the click has eleven steps, and each handler method is called by exactly one of them |
| App.StepRequest | product-approvals-ui/src/app.py:73-200 | step `k` sends the request of its handler method: the two uploads, then the company check with both job ids, then job or certificate requests with the product job id and file name |
| App.StepRequestIsTheHandlerCall | product-approvals-ui/src/app.py:104-200 | each check after the company check sends the request its named handler method builds from the product job id, the file name and the certificate |
| App.StepRequestCarriesIds | product-approvals-ui/src/app.py:104-187 | those checks carry the product job id and file name, and only the two certificate checks carry the certificate |
| App.Call | product-approvals-ui/src/app.py:71-73 | a handler method's result or exception reaches the try block unchanged |
| App.Rejection | product-approvals-ui/src/handlers/product_handlers.py:29-32 | a handler renders its error banner, with the raised message, exactly when the status is not 200 |
| App.StepShow | product-approvals-ui/src/app.py:89-206 | the uploads render nothing, the retrieval renders its success banner, and every other step renders one result under its own header, failing only on a result that is not a dict |
| App.Step | product-approvals-ui/src/app.py:82-94 | a step sends its table request, and keeps the earlier values, adding its own when it succeeds |
| App.RunFromSettles | product-approvals-ui/src/app.py:71-212 | run on from a clean prefix, the click either completes all eleven steps cleanly or ends at its first failing step |
| App.PipelineSettles | product-approvals-ui/src/app.py:71-212 | every click settles, having sent one to eleven requests |
| App.CallsFollowTheTable | product-approvals-ui/src/app.py:73-88 | the requests of a click go to the methods in the fixed order, with the handler's credentials; `verify_company` gets the product job id, the file name and the company job id |
| App.CallsCarryTheIds | product-approvals-ui/src/app.py:104-200 | every check after the company check carries the product job id and file name that the upload returned |
| App.CertificateChecksCarryIt | product-approvals-ui/src/app.py:162-187 | both certificate checks carry exactly the certificate the retrieval returned |
| App.ValuesComeFromReplies | product-approvals-ui/src/app.py:73-200 | every value the click keeps is what its handler method returned for its request |
| App.FirstFailureStopsTheClick | product-approvals-ui/src/app.py:71-212 | every step before the last one sent succeeded; the last failed in its handler or its rendering; a click without error made all eleven calls |
| App.RejectedLicenseUploadStops | product-approvals-ui/src/app.py:73 | a rejected license upload sends nothing more and shows only the handler's message |
| App.CleanClickShowsEveryResult | product-approvals-ui/src/app.py:82-206 | a click without error shows a heading and then its result for each of the nine checks, in order; product usage is always FAILED |
| App.RecordIdsStores | product-approvals-ui/src/app.py:73-163 | the session gains `company_job_id`, `job_id` and `certificate`, each bound to its returned value once that step has returned; no other key changes |
| App.InitSlots | product-approvals-ui/src/app.py:52-59 | the three slots exist afterwards; the missing ones are None and the present ones are unchanged |
| App.NoRequestWithoutLoginAndFiles | product-approvals-ui/src/app.py:49-69 | a request is sent if and only if the gate lets the user in, Validate is pressed and both files are present; a refused load changes no session key the model tracks |
| App.FailedClickIsLoggedOnce | product-approvals-ui/src/app.py:208-212 | a failed click logs exactly its error once and ends with the generic message; a clean click logs nothing |
| App.SlotsExistAfterLogin | product-approvals-ui/src/app.py:52-59 | after an authenticated load the three slots exist, whether or not Validate was pressed |
| App.ClickKeepsKeys | product-approvals-ui/src/app.py:64-212 | a click removes no session key |
| App.Perform | product-approvals-ui/src/app.py:82-94 | one section renders its heading, calls the handler and renders the value, ending the click where the table ends it |
| App.UploadLicenseSection | product-approvals-ui/src/app.py:72-74 | the license upload is step 0 of the table; the session records the company job id |
| App.UploadProductSection | product-approvals-ui/src/app.py:76-78 | the product upload is step 1; the session records the job id |
| App.VerifyCompanySection | product-approvals-ui/src/app.py:82-94 | the company check is step 2 |
| App.VerifyLabSection | product-approvals-ui/src/app.py:98-110 | the lab check is step 3 |
| App.ProductCategorySection | product-approvals-ui/src/app.py:114-126 | the product category check is step 4 |
| App.ModelNumberSection | product-approvals-ui/src/app.py:130-139 | the model number check is step 5 |
| App.ProductUsageSection | product-approvals-ui/src/app.py:143-152 | the product usage check is step 6 |
| App.RetrieveCertificateSection | product-approvals-ui/src/app.py:156-164 | the certificate retrieval is step 7; the session records the certificate |
| App.CertificateManufacturerSection | product-approvals-ui/src/app.py:168-177 | the manufacturer check is step 8, sent with the retrieved certificate |
| App.CertificateModelNumberSection | product-approvals-ui/src/app.py:181-190 | the certificate model number check is step 9, sent with the retrieved certificate |
| App.EnhanceDescriptionSection | product-approvals-ui/src/app.py:194-206 | the description enhancement is step 10 |
| App.VerifyDocuments | product-approvals-ui/src/app.py:82-126 | the company, lab and product category checks are steps 2 to 4 |
| App.VerifyProductDetails | product-approvals-ui/src/app.py:130-152 | the model number and product usage checks are steps 5 and 6 |
| App.VerifyCertificate | product-approvals-ui/src/app.py:168-190 | the two checks on the retrieved certificate are steps 8 and 9, both sent with that certificate |
| App.RunSteps | product-approvals-ui/src/app.py:71-206 | the try block sends, shows and raises exactly what the table's whole click does, and leaves the session holding the identifiers it recorded |
| App.Validate | product-approvals-ui/src/app.py:64-212 | the click handler is the specification `ClickSpec`: nothing is sent without both files; otherwise the run, with one log entry and the generic message on failure |
| App.PageLoad | product-approvals-ui/src/app.py:44-212 | `main` is the specification `PageLoadSpec`: the gate, then the three slots, then the click when Validate was pressed |

## Left out

- Streamlit rendering is reduced to a log of the notices rendered, in order. Titles,
  dividers, empty placeholders, `set_page_config`, the logo and `st.stop` are not
  modelled. A result header rendered into a placeholder replaces the step's heading on
  screen, but the log keeps both.
- The handlers' progress and timing banners ("Uploading product...", "Verified ... in
  N seconds!") are not modelled. They use the clock and floating point, and are only
  informational. The error banner a handler renders before raising is modelled.
- The Markdown wrapping of the enhanced value is not modelled: the enhancement notice
  holds the value itself.
- The HTTP transport (`requests.post`, multipart encoding, JSON decoding) is not modelled.
  A reply is an input: a status, the body text, and the decoded JSON if decoding
  succeeds, or a transport exception.
- JSON numbers are reals, so a reply whose body decodes to `NaN` or `±Infinity` (which
  Python's `json` accepts) cannot be written down. Numbers are only ever read for
  truthiness.
- Auth.OtherwiseRefused / App.NoRequestWithoutLoginAndFiles: the credentials form's keyed
  widgets (auth.py:24-27) put "email" and "password" into the session on a refused load.
  Those writes are not modelled; `FormFilled` assumes them before `validate_form` runs.
  Both members promise only that no key the model tracks changes.
- `hmac.compare_digest` is modelled as string equality on ASCII strings and a TypeError
  otherwise. Its constant-time behaviour cannot be stated. What Streamlit shows for the
  exception escaping the `validate_form` callback is not modelled.
- `stx.CookieManager`, `st.cache_resource` and browser persistence are not modelled.
  The cookies are a map that the jar object holds.
- Environment reads (`HOSTNAME` and its default URL, `INTERNAL_API_KEY`,
  `KUBERNETES_SERVICE_HOST`) are parameters.
- `inspect.stack` and `inspect.getmodule` are not modelled. The calling module (its name
  and its file, if any) is a parameter of `LoggerName`.
- `CustomJSONFormatter`'s output is not modelled. A handler's formatter is only "JSON"
  or "text with the fixed format".
- The exception hook's behaviour is not modelled. The model records only which logger it
  routes to. The module-level loggers of app.py and product_handlers.py are not modelled
  either.
- `logging.getLogger` returning the same object for the same name is modelled as a
  registry keyed by name. Logger object identity is not modelled.
- Loggers.Tail: models `os.path.split` for POSIX paths only (separator '/').
- App.PipelineSettles: the click is assumed never to be interrupted. Streamlit's rerun
  and stop signals derive from `BaseException`, so `except Exception` (app.py:208-212)
  does not catch them; a click they end has neither the log line nor the generic message.
  The framework's control flow is not part of this model.
