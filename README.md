# Custom-resource handlers of the business-agent stack, in Dafny

This project models the three AWS Lambda handlers that the business-agent CDK stack runs as
CloudFormation custom resources, and proves what each one does for every possible sequence of
control-plane replies:

- **Crawler initializer** (`lambda/crawler_initializer/index.py`). On Create or Update it
  waits 10 seconds and starts the Glue crawler named by `CrawlerName` once. It then calls
  `get_crawler` every 30 seconds until the state is `READY` or 1200 seconds have passed. It
  sends exactly one SUCCESS or FAILED response; after a SUCCESS it waits another 60 seconds.
  Any other request type gets SUCCESS with "Nothing to do for Delete".
- **Knowledge-base sync** (`lambda/kb_sync/index.py`). It reads `KNOWLEDGE_BASE_ID` and
  `DATA_SOURCE_ID` (JSON lists) and `REGION`. On Create or Update it starts one Bedrock
  ingestion job per zipped (knowledge base, data source) pair, then polls in rounds, one
  `get_ingestion_job` per pair every 10 seconds. Polling stops when a round is all
  `SUCCESS` or 240 seconds have passed. The handler then sends SUCCESS with the last job id
  and a status. Any exception becomes a single FAILED response carrying `str(e)`.
- **Redshift authorizer** (`lambda/redshift_authorizer/index.py`). It submits one
  `GRANT USAGE ON DATABASE "awsdatacatalog" TO "IAMR:<role>"` statement through the Redshift
  Data API and does not wait for it to complete. It returns `{statusCode, body}`: 200 with
  the statement id, or 500 with the error.

Modules:

- `Runtime` (`runtime.dfy`) holds the shared vocabulary:
  - a control-plane reply, which is a value or a raised exception (`ClientError` or any other);
  - the `cfnresponse` response;
  - the trace of one invocation, made of sleeps, control-plane calls and responses sent, with
    its three views `Sent`, `Calls` and `Slept`.
- The two imperative handlers are `method`s with the source's loops and counters. Each
  returns the trace it produces and is proved equal to `ExpectedTrace`, a reference definition
  written by cases on which reply ends the work. The properties are proved as lemmas about
  `ExpectedTrace`.
- The knowledge-base handler is one Python function. Here it is split into `StartJobs` (the
  start loop), `PollRound` (one round of status checks), `PollJobs` (the polling loop),
  `Provision` (the Create/Update branch) and `Handler`, with the same control flow.
- The Redshift authorizer has no loop and no state, so it is a function of its environment
  and of the reply to its single call.

Control-plane replies are inputs: a total function from the call's position in the
invocation (the k-th `get_crawler`, or the (round, pair) status check) to a `Reply`. Every
statement therefore holds for all possible replies. A response without the field the handler
reads raises `KeyError` inside the handler's `try`, so it is modelled as a raised exception.

## Behaviour as written

The handlers behave as follows, and the model follows the code:

- A FAILED ingestion status does not fail the resource. Polling goes on
  (`KbSync.FailedStatusKeepsPolling`).
- An ingestion timeout is reported as SUCCESS with status `STILL_RUNNING`
  (`KbSync.NoSuccessRoundRunsOut`).
- Every status check uses the job id of the last start call, so earlier pairs are never
  observed (`KbSync.StartsThenChecksWithLastJobId`).
- A status-check exception is not tolerated as "still polling". It ends the invocation with
  FAILED (`KbSync.CheckErrorFails`, `CrawlerInitializer.CheckErrorFails`).
- Id lists of different lengths are not a configuration error. The surplus ids are ignored
  (`KbSync.Zip`).
- Delete is not free of control-plane calls for the Redshift authorizer. The grant is
  submitted on every event (`RedshiftAuthorizer.IgnoresRequestType`).
- The crawler initializer's Delete response carries a `Message`. It is not empty.

## Model

| member | source | states |
|---|---|---|
| CrawlerInitializer.FirstStop | lambda/crawler_initializer/index.py:35-51 | the check that leaves the polling loop (an exception or READY) is the first such check among the first 40 |
| CrawlerInitializer.Handler | lambda/crawler_initializer/index.py:7-61 | the loop method, with its `total_wait_time` counter, produces exactly the reference trace for every request type, name and sequence of Glue replies |
| CrawlerInitializer.ExactlyOneResponse | lambda/crawler_initializer/index.py:43-61 | every invocation sends exactly one response; after it comes at most the 60-second propagation sleep |
| CrawlerInitializer.DeleteIsNoOp | lambda/crawler_initializer/index.py:59-61 | a request type other than Create/Update sends one SUCCESS with "Nothing to do for Delete", makes no Glue call and does not sleep |
| CrawlerInitializer.MissingNameFails | lambda/crawler_initializer/index.py:14-17 | an unset or empty `CrawlerName` gives one FAILED with "CrawlerName property is missing or empty" and no Glue call |
| CrawlerInitializer.StartOnceBeforeChecks | lambda/crawler_initializer/index.py:27-36 | the first call is the single `start_crawler`; every later call is `get_crawler` of the same crawler; there are at most 40 checks (1200/30) |
| CrawlerInitializer.CheckTiming | lambda/crawler_initializer/index.py:31-51 | each check is issued when the time slept since the start is 30 times the number of earlier checks and below 1200 |
| CrawlerInitializer.SuccessIffReady | lambda/crawler_initializer/index.py:41-47 | SUCCESS is sent if and only if the request is not Create/Update, or the crawler started and one of the first 40 checks is READY before any exception |
| CrawlerInitializer.ReadyEndsPolling | lambda/crawler_initializer/index.py:41-47 | the first READY (even on the first check) ends the loop: k+1 checks, SUCCESS with "Crawler completed successfully", then the 60-second wait as the last step |
| CrawlerInitializer.TimeoutMessageText | lambda/crawler_initializer/index.py:54 | the TimeoutError message is "Crawler <name> did not complete within 1200 seconds" |
| CrawlerInitializer.TimeoutFails | lambda/crawler_initializer/index.py:31-58 | no READY within 40 checks: 41 calls, 1210 seconds slept, then one FAILED carrying the timeout message |
| CrawlerInitializer.StartErrorFails | lambda/crawler_initializer/index.py:27-58 | an exception from `start_crawler` stops everything: no check, one FAILED with `str(e)` |
| CrawlerInitializer.CheckErrorFails | lambda/crawler_initializer/index.py:36-58 | an exception from check k stops the polling after k+1 checks, with one FAILED carrying `str(e)` |
| KbSync.LoadConfig | lambda/kb_sync/index.py:13-15 | the configuration loads if and only if both lists parse and REGION is set; otherwise the KeyError or JSON error of the first failing read is what is raised |
| KbSync.Zip | lambda/kb_sync/index.py:28 | the pairs have the length of the shorter list and pair equal positions |
| KbSync.FirstFailedStart | lambda/kb_sync/index.py:28-34 | the start call that raises is the first one that does |
| KbSync.FirstFailedCheck | lambda/kb_sync/index.py:47-54 | the check in a round that raises is the first one that does |
| KbSync.FirstStoppingRound | lambda/kb_sync/index.py:44-66 | the round that ends polling is the first among the 24 in which a check raises or every status is SUCCESS |
| KbSync.StartJobs | lambda/kb_sync/index.py:28-35 | the start loop issues one start per pair up to the first raise; it keeps only the last job id, which stays unbound with no pairs |
| KbSync.PollRound | lambda/kb_sync/index.py:45-59 | one round checks the pairs in order with the job id up to the first raise; without a raise it reports whether every status was SUCCESS, and the last status as `final_status` |
| KbSync.PollJobs | lambda/kb_sync/index.py:39-66 | the polling loops issue rounds of one check per pair with that id; they stop at the first raise or at an all-SUCCESS round (reporting the last status and elapsed time), or run out at 240 seconds |
| KbSync.Provision | lambda/kb_sync/index.py:26-77 | the Create/Update branch produces exactly the reference trace, exceptions included |
| KbSync.Handler | lambda/kb_sync/index.py:9-77 | the handler produces exactly the reference trace for every configuration, request type and sequence of Bedrock replies |
| KbSync.ExactlyOneResponse | lambda/kb_sync/index.py:68-77 | every invocation sends exactly one response, as its last step |
| KbSync.ConfigErrorFails | lambda/kb_sync/index.py:13-15 | a missing variable or unparsable JSON gives one FAILED with `str(e)`, no Bedrock call and no sleep, whatever the request type |
| KbSync.DeleteIsNoOp | lambda/kb_sync/index.py:72-74 | a request type other than Create/Update sends one SUCCESS with empty data, makes no Bedrock call and does not sleep |
| KbSync.ZeroPairsFails | lambda/kb_sync/index.py:68-69 | with no pair, nothing is started and the unbound `ingestion_job_id` turns the response into FAILED |
| KbSync.StartsThenChecksWithLastJobId | lambda/kb_sync/index.py:28-52 | the calls begin with min(len(kb_ids), len(ds_ids)) starts in list order; every later call checks one of those pairs with the last start's job id |
| KbSync.PollingBudget | lambda/kb_sync/index.py:39-66 | the handler sleeps a multiple of 10 seconds, at most 240, and makes at most one start plus 24 checks per pair |
| KbSync.AllSuccessRoundEndsPolling | lambda/kb_sync/index.py:45-63 | the first all-SUCCESS round ends polling at once: SUCCESS with the last job id and "SUCCESS", after r sleeps and r+1 rounds |
| KbSync.NoSuccessRoundRunsOut | lambda/kb_sync/index.py:44-71 | without exceptions and without an all-SUCCESS round: 24 rounds, 240 seconds, then SUCCESS with "STILL_RUNNING" |
| KbSync.FailedStatusKeepsPolling | lambda/kb_sync/index.py:58-66 | a FAILED status in a round without exceptions does not stop polling: the handler sleeps after that round |
| KbSync.ReportedStatusNeverFailed | lambda/kb_sync/index.py:68-71 | whenever a `Status` is reported, the response is SUCCESS and the status is "SUCCESS" or "STILL_RUNNING" |
| KbSync.NoExceptionSucceeds | lambda/kb_sync/index.py:68-71 | Create/Update without exceptions always sends SUCCESS with the last job id and status "SUCCESS" or "STILL_RUNNING" |
| KbSync.StartErrorFails | lambda/kb_sync/index.py:28-34 | an exception from the i-th start: i+1 start calls, no check, no sleep, one FAILED with `str(e)` |
| KbSync.CheckErrorFails | lambda/kb_sync/index.py:47-54 | an exception from check j of round r: polling stops there, after r sleeps, with one FAILED carrying `str(e)` |
| RedshiftAuthorizer.GrantSql | lambda/redshift_authorizer/index.py:28 | its own contract gives only the fixed GRANT prefix and the length (prefix, role, closing quote); the exact content is stated by `GrantSqlRoundTrip` |
| RedshiftAuthorizer.ParseGrantRole | lambda/redshift_authorizer/index.py:28 | its own contract gives only the length of a parsed role; that it recovers exactly the templated role, and nothing else parses to it, is stated by `GrantSqlRoundTrip` |
| RedshiftAuthorizer.GrantSqlRoundTrip | lambda/redshift_authorizer/index.py:28 | parsing the templated statement gives back the role; a statement parses to a role if and only if it is that role's GRANT |
| RedshiftAuthorizer.Outcome | lambda/redshift_authorizer/index.py:40-56 | the status code is 200 if and only if the call was accepted, otherwise 500; the body prefix tells acceptance, a ClientError and any other exception apart |
| RedshiftAuthorizer.DecodeResult | lambda/redshift_authorizer/index.py:40-56 | a decoded reply is a value if and only if the status code is 200 |
| RedshiftAuthorizer.OutcomeRoundTrip | lambda/redshift_authorizer/index.py:45-56 | the returned dict determines the call's outcome: the statement id, or the exception's kind and `str(e)` |
| RedshiftAuthorizer.Handler | lambda/redshift_authorizer/index.py:18-56 | exactly one statement is submitted, with the workgroup and database from the environment and the grant for the configured role; the result encodes the reply |
| RedshiftAuthorizer.RoleNameDefault | lambda/redshift_authorizer/index.py:22 | an unset role name grants to "bedrock-knowledgebase-role"; a set one, even empty, is used as is |
| RedshiftAuthorizer.SqlIndependentOfDatabase | lambda/redshift_authorizer/index.py:21-28 | the SQL depends only on the role; REDSHIFT_DATABASE and the workgroup do not change it |
| RedshiftAuthorizer.IgnoresRequestType | lambda/redshift_authorizer/index.py:13-35 | Delete submits the same statement and returns the same dict as Create and Update |
| RedshiftAuthorizer.ResultCases | lambda/redshift_authorizer/index.py:37-56 | acceptance gives 200 with the statement id after "Grant usage query submitted to Redshift Serverless. Statement ID: "; a ClientError gives 500 "AWS client error: " + `str(e)`; any other exception gives 500 "Error executing grant permission: " + `str(e)` |

## Left out

- Creating the boto3 clients (`glue`, `bedrock-agent`, `redshift-data`) is assumed never to raise.
- `cfnresponse.send` is assumed never to raise. If the SUCCESS send in the crawler initializer raised, the `except` clause would send a second, FAILED response.
- The event is assumed to carry `RequestType`. Without it the crawler initializer raises outside its `try` and sends nothing.
- The id variables are modelled as unset, unparsable, or a JSON list of id strings. JSON that parses to something else is not modelled: a string would be zipped character by character, and a number would raise `TypeError`.
- `KbSync.ZeroPairsFails`: the message of the unbound-variable error is fixed to CPython 3.12's wording.
- Logging and `print` are not modelled. Neither are `json.dumps(event)`, the unused `ResourceProperties` lookup, or the unused `document_id` (`lambda/kb_sync/index.py:17-22`).
- Real time is not modelled. `time.sleep` is recorded as a step with its seconds, and nothing is measured. The Lambda timeout, which is shorter than the crawler's 20-minute budget, belongs to the deployment.
- The CDK stack, the custom-resource `Provider` framework that consumes the responses and returned dicts, and the placeholder unit test are not part of this model.
- The Redshift authorizer's parameter validation is not modelled separately. For example, an unset workgroup is passed as `None`. Whatever the call then raises is part of the reply the model receives.
- `KbSync.PollJobs`: when the 240 seconds run out, its contract does not state the final `final_status`. The handler reports "STILL_RUNNING" in that case whatever that value is.
