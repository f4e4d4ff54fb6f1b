# Bedrock model monitor — a Dafny model

This project models the two pieces of behaviour of the Bedrock model monitor that can be
stated apart from the AWS calls around them.

- **The model-delta run** (`lambda/index.js`). A run is classified as manual or scheduled.
  It fetches the foundation-model catalog and reads the known model ids from one page of a
  table scan. It keeps the catalog models whose id is not known and puts each of them into
  the DynamoDB table under its `modelId`. Then it sends one notification email and answers
  with a status-200 response. A manual run that finds nothing new still sends a
  status-check email. Any failure is rethrown.
  - `Delta` holds the pure decisions: the manual/scheduled test, the mapping of catalog
    entries to records, the delta filter, and the upserts into a table modelled as
    `map<string, ModelRecord>`.
  - `Notification` holds the email: subject, new-model list, separators and Yes/No flag.
  - `Monitor.Run` states what a whole run does to the table, which effects it has (puts and
    the email, in order) and what it answers.
  - `Monitor.ModelMonitor` is the handler itself: a class with the table and an effect log
    that performs the steps in the source's order. Each of its methods is proved against
    `Run` or the pure function it uses.
- **The SES verification custom resource** (`lambda/ses-verify.js`). It dispatches on
  `RequestType`:
  - `Create`/`Update` request verification of the address;
  - `Delete` deletes the identity and swallows a failure;
  - anything else does nothing.

  It then PUTs a SUCCESS or FAILED envelope to the response URL. When the SUCCESS PUT
  itself fails, a second FAILED PUT is sent.
  - `SesVerify.Handle` records the calls and responses as a trace.
  - `SesVerify.BuildEnvelope` builds the response body.

The AWS calls and their results are inputs, fixed before a run:
- the catalog result;
- the ids on the one scanned page;
- the ids whose put the store rejects;
- the email error;
- the outcome of each SES call and of each response PUT.

The clock is passed in as opaque strings.

## Model

| member | source | states |
|---|---|---|
| Delta.IsManualTest | lambda/index.js:19 | a run is a manual test exactly when `source` is absent or is not `aws.events` |
| Delta.ToRecord | lambda/index.js:81-91 | a record keeps every catalog field of its entry (projecting it back gives the entry) and carries the observation time |
| Delta.Records | lambda/index.js:77-91 | the current models are the catalog entries in catalog order, one record each, all stamped with the run's time |
| Delta.KnownIds | lambda/index.js:94-102 | the known set is exactly the ids on the scanned page |
| Delta.NewModels | lambda/index.js:31 | a model is new exactly when it is current and its id is not known; each new model occurs as often as in the catalog (duplicates kept), known ones never |
| Delta.NewModelsIsSubsequence | lambda/index.js:31 | the new models are a subsequence of the current models, in catalog order |
| Delta.NewModelsAppend | lambda/index.js:31 | the filter decides entry by entry: filtering a concatenation concatenates the filtered parts |
| Delta.NewModelsIdempotent | lambda/index.js:31 | filtering the new models again against the same known ids changes nothing |
| Delta.Upserts | lambda/index.js:104-112 | the puts never remove a key of the table |
| Delta.UpsertsSpec | lambda/index.js:104-112 | after the puts, the table keys are the old keys plus the accepted ids. Other keys keep their records. Each accepted id holds a model with that id, and the last put for an id wins |
| Delta.UpsertsKeyed | lambda/index.js:104-112 | puts keyed by `modelId` keep every record under its own id |
| Text.JoinAppend | lambda/index.js:141-144 | `join` puts exactly one separator between the joins of two non-empty lists |
| Text.ParseNatToString | lambda/index.js:45 | the decimal spelling of a count reads back as that count |
| Notification.Entry | lambda/index.js:139-143 | a model's entry opens with the line `- <name> (<id>)` |
| Notification.EntryLines | lambda/index.js:138-143 | an entry is five lines joined by newlines: `- <name> (<id>)`, `  Provider: <provider>`, `  Input: ` with the input modalities joined by `", "`, `  Output: ` with the output modalities joined by `", "`, and `  Streaming: Yes` or `No` |
| Text.JoinFive | lambda/index.js:138-144 | `join` of five strings is the five strings with the separator between neighbours |
| Notification.EntryStreaming | lambda/index.js:138-143 | a model's entry ends with `Streaming: Yes` exactly when it supports response streaming, and with `Streaming: No` exactly when it does not |
| Notification.ModelList | lambda/index.js:138-144 | the list of no models is empty and the list of one model is its entry |
| Notification.ModelListAppend | lambda/index.js:138-144 | one entry per model with a blank line between neighbours: the list of two non-empty runs is their lists joined by `\n\n` |
| Notification.SubjectCountRoundTrip | lambda/index.js:146 | the new-models subject announces exactly the count it was made from |
| Notification.NotificationEmail | lambda/index.js:116-178 | sender and sole recipient are the configured address. A status check has the status subject and body. Otherwise the subject announces the number of new models and the body lists them |
| Monitor.DetectedMessage | lambda/index.js:45 | the message of a run with new models is `Detected `, their number in decimal, and ` new model(s)`; the number reads back as the count |
| Monitor.Run | lambda/index.js:14-75 | a failed catalog call or a failed scan leaves the table and effects untouched and fails with that error; a run that answers always answers with status 200 |
| Monitor.PutEffects | lambda/index.js:104-112 | every put that takes effect is of one of the models, with an id the store accepts; when all are accepted their number is the number of models |
| Monitor.PutEffectsCount | lambda/index.js:104-112 | whether or not other puts are rejected, each model with an accepted id is put exactly as often as it occurs among the models, and a model with a rejected id is never put |
| Monitor.PutEffectsSpec | lambda/index.js:104-112 | every accepted model has its put; when the store accepts them all, the puts are exactly one per model, in the models' order |
| Monitor.RunTable | lambda/index.js:33-37 | a run changes the table only when both fetches succeed and there are new models. The change is the upserts of the new models, whether or not a later step fails |
| Monitor.RunWithNewModels | lambda/index.js:33-48 | with new models, the table becomes the upserts of the new models: each id holds the last new model with that id, and no other key changes. The effects are exactly the puts of the new models in order, followed by the new-models email. Exactly one email goes out, the new-models one, addressed to the configured address and announcing the count. The answer is 200 with the new ids in order. None of this depends on the trigger |
| Monitor.RunManualNothingNew | lambda/index.js:49-62 | a manual run with nothing new writes nothing and sends only the status check. It answers 200 with `totalModels` equal to the catalog size |
| Monitor.RunScheduledNothingNew | lambda/index.js:65-68 | a scheduled run with nothing new writes nothing, sends nothing and answers `No new models` |
| Monitor.RunFailures | lambda/index.js:21-74 | a run fails exactly when a fetch fails, a put is rejected, or the email it sends fails. A failed run sends no email and gives no response. A failed fetch touches nothing |
| Monitor.RunPutsOnlyNew | lambda/index.js:31-37 | every put of a run is of a new model, whose id is not on the scanned page |
| Monitor.RunKeyed | lambda/index.js:104-112 | a run keeps every record of the table under its own id |
| Monitor.RunNothingNew | lambda/index.js:49-68 | a run whose fetches succeed and find nothing new leaves the table as it was and sends at most the status check |
| Monitor.RunCoversCatalog | lambda/index.js:27-37 | after a run whose puts all succeed, every current model id is in the table, provided the scanned ids were in the table. This holds even when the email then fails |
| Monitor.NothingNewWhenKnown | lambda/index.js:31 | a catalog whose ids are all known yields no new models |
| Monitor.RunIdempotent | lambda/index.js:94-112 | after a run whose puts all succeed, take a second run against the same catalog whose one scanned page lists every id of the resulting table. It finds no new models, leaves the table as it was and sends no new-models email |
| Monitor.ModelMonitor.SaveNewModels | lambda/index.js:104-114 | the puts, one per model in order: the table becomes the upserts of the accepted models and their puts are logged. It reports whether every put was accepted |
| Monitor.ModelMonitor.SendEmailNotification | lambda/index.js:116-182 | the email is `NotificationEmail` for the branch asked for. It is logged only when the send succeeds, the table is untouched and stays keyed, and the send's error is returned |
| Monitor.ModelMonitor.Handler | lambda/index.js:14-75 | the handler's table, logged effects and answer are those of `Run` for the event, the collaborators' answers and the old table; the table stays keyed |
| SesVerify.BuildEnvelope | lambda/ses-verify.js:34-43 | the envelope carries the status and data unchanged and echoes `StackId`, `RequestId` and `LogicalResourceId`; `PhysicalResourceId` is the logical id. `Reason` is the error message when there is a non-empty one and `See CloudWatch Logs` otherwise |
| SesVerify.Handle | lambda/ses-verify.js:5-31 | `Create`/`Update` issue one verify call for the address, `Delete` one delete call, any other type none. The calls come before the responses, and every response goes to the response URL. The first response is FAILED with the verify error when verification failed, otherwise SUCCESS, even when the delete failed. A failed SUCCESS PUT is followed by a FAILED response carrying the PUT's error. The invocation is rejected only when its last PUT fails |

## Left out

- The AWS SDK clients (Bedrock, DynamoDB, SES) are foreign calls. Their answers are inputs to a run (`Monitor.World`, `SesVerify.Collaborators`).
- The monitor logs only puts that take effect and emails that were sent. The catalog call and the scan are reads and leave no effect. A put the store rejects and an email whose send fails are issued by the source but appear nowhere in `Monitor.Effect`. The custom-resource handler, by contrast, logs every SES call and every response PUT it issues, whatever their outcome.
- Put rejection is decided per id (`Monitor.World.rejectedPuts`). Two puts of the same duplicate id in one run therefore share one outcome, although the source's two PutCommands could each succeed or fail on their own.
- Only the table scan's first page is read (lambda/index.js:95-101). The model therefore takes the ids on that page as input; it never assumes they are the whole table. `Monitor.RunIdempotent` states the coverage it needs as a precondition.
- The puts run concurrently under `Promise.all`. Here they are applied one after another in list order. With duplicate ids among the new models, the record left under such an id depends on timing in the source but is the last one here.
- Monitor.Failure: a rejected put fails the run with `StoreWriteFailed`, which carries no message. `Promise.all` rethrows whichever rejection comes first in time.
- `new Date()` and `toLocaleString('ja-JP', ...)` are the clock and locale formatting. They are passed in as two opaque strings, and every record of a run is stamped with the same one.
- The fixed Japanese template text of the two email bodies is not spelled out. A body keeps only what it interpolates: the date, the count and the model list. The email charset fields are left out too.
- `JSON.stringify` of the response body and envelope, the HTTPS request, the URL parsing, the headers and `Buffer.byteLength` are network I/O and serialisation. The response and the envelope are datatypes, and a PUT's outcome is an input.
- Console logging is left out.
- `ResourceProperties` must be present in the custom-resource event. Without it, the handler throws at lambda/ses-verify.js:8, outside its try block, and no response is sent. An event here always carries `EmailAddress`, as a string.
- In the monitor, missing or non-array catalog fields (`modelSummaries`, the modality lists) would throw in the source. Here they are sequences.
