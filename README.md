# Succinct-data delivery queue and bundle configuration, in Dafny

This project models two parts of the SAM / Serval succinct-data Android application.

**The succinct-data delivery queue** (`SuccinctDataQueueService`).
- A completed survey arrives as encoded "pieces". Each piece becomes one queued row: a 10-character prefix, the piece, the form identity `formname/formversion`, and the survey's XML.
- A background sender works in cycles. Each cycle takes a snapshot of the queue and offers every row, in order, to the transports in a fixed order: an HTTP upload over the cellular data network, then SMS, then the inReach satellite messenger.
- A row is deleted, by its piece text, only after a transport confirmed it.
- The sender then sleeps 5 s when the queue is empty and 2 min when rows remain.
- SMS delivery is confirmed by polling, at most 60 times, a result flag that a broadcast receiver writes.
- The inReach path keeps a single "pending satellite message" slot. Only a confirmation carrying the remembered id deletes the remembered piece.

**The bundle configuration** (`BundleConfig`).
- A text of lines where `@category<TAB>x` and `@form<TAB>x` append to ordered lists. Any other `@key<TAB>value` line sets a metadata entry. All other lines are ignored.
- Validation then demands a form, a category and six metadata keys, checked in a fixed order.

Layout:
- `wrappers.dfy`: `Option`, `Result`, `Outcome`.
- `java_text.dfy`: the Java string operations the source relies on:
  - `String.trim`, which removes every character up to `' '`;
  - `indexOf`, which gives -1 when the character is absent;
  - `Scanner.nextLine` line splitting;
  - `"null"` from concatenating a null string.
- `message_store.dfy`: the message store as a sequence of rows, and delete-by-piece.
- `queue_service.dfy`: the service as a class, together with the pure functions that specify it.
- `queue_lemmas.dfy`: properties of the queue model.
- `bundle_config.dfy`: the configuration as a class. Parsing is specified in two layers:
  - each line is classified into a `LineEffect`;
  - a run applies the effects in order.
- `bundle_config_lemmas.dfy`: properties of parsing and validation.

How the model is built:
- Each state-changing method is proved to leave the object in the state that a pure function of the old state gives (`State() == CycleResult(old(State()), env, ready)`). The lemmas then prove the source's promises about those functions.
- What the platform supplies in a cycle is an input, one `Env` per snapshot row:
  - whether there is an active network and whether it is connected;
  - the operator name;
  - the HTTP reply;
  - whether `sendTextMessage` throws;
  - the values the SMS result flag shows at each poll.

Where the code and its design intent disagree, the model follows the code:
- `dispatchViaInReach` always reports failure (-1). So the `inReachReadyAndAvailable = false` branch never runs, and an inReach dispatch never deletes a row.
- Nothing ever sets `inReachReadyAndAvailable` to true, and a confirmation does not restore it. The model keeps the flag as a field that no cycle changes.

## Model

| member | source | states |
|---|---|---|
| SuccinctDataQueue.SuccinctDataQueueService.constructor | src/org/servalproject/succinctdata/SuccinctDataQueueService.java:39-45 | The fields start as in the source: result flag -1, no pending id (-1) and no pending piece, inReach not ready, next sleep 5000 ms. |
| SuccinctDataQueue.EnqueuedRows | src/org/servalproject/succinctdata/SuccinctDataQueueService.java:98-103 | One row per piece, in order. Each row is (first 10 characters, piece, form identity, xml). The rows stop exactly at the first piece shorter than 10 characters. |
| SuccinctDataQueue.SuccinctDataQueueService.Enqueue | src/org/servalproject/succinctdata/SuccinctDataQueueService.java:98-111 | A null piece array changes nothing. Otherwise the queue becomes the old queue followed by the enqueued rows. The queue-updated broadcast is counted only when no piece threw. |
| SuccinctDataQueue.CellularCode | src/org/servalproject/succinctdata/SuccinctDataQueueService.java:157-166 | The code is 0 or -1, and it is 0 iff the HTTP exchange answered exactly 200. An exception gives -1. |
| QueueProperties.AvailabilityGovernsDispatch | src/org/servalproject/succinctdata/SuccinctDataQueueService.java:129-141 | Without a connected active network, the upload is neither tried nor confirms. A known empty operator name means SMS is neither tried nor confirms. A null operator name counts as available, so a failed upload is followed by an SMS attempt. With neither, nothing confirms, and inReach is tried iff it is ready. |
| SuccinctDataQueue.FirstOkPoll | src/org/servalproject/succinctdata/SuccinctDataQueueService.java:192-200 | The poll found is below the limit of 60 and sees RESULT_OK. No earlier poll does. |
| SuccinctDataQueue.SmsCode | src/org/servalproject/succinctdata/SuccinctDataQueueService.java:169-203 | `sendSMS` returns only 0 or -1. |
| SuccinctDataQueue.SuccinctDataQueueService.SendSms | src/org/servalproject/succinctdata/SuccinctDataQueueService.java:169-203 | The poll loop returns the specified code. The flag ends holding the sentinel (if the send threw) or the last value polled. There are at most 60 sleeps, and a 0 code implies the send did not throw. |
| QueueProperties.SmsConfirmedIff | src/org/servalproject/succinctdata/SuccinctDataQueueService.java:182-202 | `sendSMS` returns 0 iff the platform call did not throw and one of the first 60 polls saw RESULT_OK. A non-OK result code does not end the wait. |
| SuccinctDataQueue.DispatchRow | src/org/servalproject/succinctdata/SuccinctDataQueueService.java:242-257 | Cellular is tried iff the internet is available. SMS is tried iff cellular did not confirm and SMS is available. inReach is tried iff neither confirmed and it is ready. Confirmation happens only through cellular or SMS, never through inReach. |
| QueueProperties.TransportPriority | src/org/servalproject/succinctdata/SuccinctDataQueueService.java:242-257 | The transports offered a row come in strictly increasing preference order. The confirming transport is the last one offered. |
| QueueProperties.CellularFirst | src/org/servalproject/succinctdata/SuccinctDataQueueService.java:243-244 | With a connected network and an HTTP 200, only cellular is used, and it confirms. |
| QueueProperties.FallbackToSms | src/org/servalproject/succinctdata/SuccinctDataQueueService.java:243-249 | A failed upload falls back to SMS, and an SMS confirmation stops there. |
| QueueProperties.InReachDispatchKeepsRow | src/org/servalproject/succinctdata/SuccinctDataQueueService.java:250-257 | A row offered to inReach stays queued, no broadcast is sent, and the slot holds (99, the row's piece). |
| QueueProperties.InReachConfirmationRetires | src/org/servalproject/succinctdata/SuccinctDataQueueService.java:290-306 | After such a dispatch, a confirmation for id 99 deletes exactly that piece from the queue. |
| SuccinctDataQueue.SuccinctDataQueueService.DispatchViaInReach | src/org/servalproject/succinctdata/SuccinctDataQueueService.java:283-294 | Always returns -1, and records the piece under the placeholder id 99. |
| SuccinctDataQueue.SuccinctDataQueueService.RememberPendingInReachMessage | src/org/servalproject/succinctdata/SuccinctDataQueueService.java:296-300 | The single slot is overwritten with (id, piece), and nothing else changes. |
| SuccinctDataQueue.SuccinctDataQueueService.SawInReachMessageConfirmation | src/org/servalproject/succinctdata/SuccinctDataQueueService.java:302-311 | A matching id deletes the remembered piece and counts one broadcast. Any other id changes nothing. |
| QueueProperties.ConfirmationMismatchIgnored | src/org/servalproject/succinctdata/SuccinctDataQueueService.java:303 | A confirmation whose id is not the remembered one leaves the whole state unchanged. |
| QueueProperties.ConfirmationIdempotent | src/org/servalproject/succinctdata/SuccinctDataQueueService.java:302-306 | A repeated confirmation deletes nothing more. |
| QueueProperties.SecondDispatchOverwritesSlot | src/org/servalproject/succinctdata/SuccinctDataQueueService.java:296-306 | Once a second message is remembered, a confirmation for the first one deletes nothing. |
| SuccinctDataQueue.SuccinctDataQueueService.OfferToTransports | src/org/servalproject/succinctdata/SuccinctDataQueueService.java:241-257 | Reports a send iff cellular or SMS confirmed the row. It leaves the SMS result flag only after an SMS attempt and fills the pending slot only after an inReach attempt, as specified. The ready flag is unchanged. |
| SuccinctDataQueue.SuccinctDataQueueService.OfferRow | src/org/servalproject/succinctdata/SuccinctDataQueueService.java:241-265 | Offering one snapshot row moves the state to the specified row step: the transport attempts, then deletion of the piece and one broadcast only after a confirmed send. The ready flag is unchanged, and the next sleep is outside its frame. |
| SuccinctDataQueue.SuccinctDataQueueService.SenderCycle | src/org/servalproject/succinctdata/SuccinctDataQueueService.java:219-278 | One cycle visits the snapshot rows in order, row i meeting environment i. It leaves the state the specified pass gives. The next sleep is 5000 ms for an empty queue and 120000 ms otherwise. |
| QueueProperties.RowStepQueue | src/org/servalproject/succinctdata/SuccinctDataQueueService.java:259-261 | One row changes the queue only by deleting its own piece, and only when a transport confirmed it. |
| QueueProperties.SentPiecesMembers | src/org/servalproject/succinctdata/SuccinctDataQueueService.java:236-261 | A piece counts as sent iff some visited snapshot row holds it and was confirmed. |
| QueueProperties.PassQueue | src/org/servalproject/succinctdata/SuccinctDataQueueService.java:236-268 | After n rows, the queue is the starting queue without every piece confirmed so far. |
| QueueProperties.CycleRetiresExactlySent | src/org/servalproject/succinctdata/SuccinctDataQueueService.java:236-268 | After a cycle, a row remains iff it was queued and its piece was not confirmed. Every copy of an unconfirmed row remains and no copy of a confirmed one does (multiset counts). The remaining rows keep their order (a subsequence of the start). |
| QueueProperties.CycleBackoff | src/org/servalproject/succinctdata/SuccinctDataQueueService.java:272-278 | The next sleep is 120000 ms iff some row's piece went unconfirmed, and 5000 ms otherwise. |
| QueueProperties.NothingConfirmedKeepsQueue | src/org/servalproject/succinctdata/SuccinctDataQueueService.java:259-278 | With no confirmation, a cycle keeps the queue exactly as it was. |
| QueueProperties.CellularEverywhereEmptiesQueue | src/org/servalproject/succinctdata/SuccinctDataQueueService.java:243-278 | With a working upload for every row, a cycle empties the queue and picks the short sleep. |
| MessageStore.Delete | src/org/servalproject/succinctdata/SuccinctDataQueueService.java:261 | A row survives `delete(piece)` iff it was queued and its piece differs. |
| MessageStore.DeleteCounts | src/org/servalproject/succinctdata/SuccinctDataQueueService.java:261 | `delete(piece)` keeps every copy of a row whose piece differs and no copy of a row holding the piece. |
| MessageStore.WithoutCounts | src/org/servalproject/succinctdata/SuccinctDataQueueService.java:261 | Deleting a set of pieces keeps every copy of a row whose piece is not in the set and no copy of one whose piece is. |
| MessageStore.WithoutWithout | src/org/servalproject/succinctdata/SuccinctDataQueueService.java:261 | Deleting one set of pieces after another is the same as deleting their union. |
| MessageStore.DeleteIdempotent | src/org/servalproject/succinctdata/SuccinctDataQueueService.java:306 | Deleting a piece twice is the same as deleting it once. |
| MessageStore.WithoutIsSubsequence | src/org/servalproject/succinctdata/SuccinctDataQueueService.java:261 | Deleting keeps the surviving rows in their original order. |
| BundleConfigModel.BundleConfig.Create | src/org/magdaaproject/sam/config/BundleConfig.java:47-60 | A null or empty text is refused. Otherwise a fresh object holds the text and empty metadata, categories and forms. |
| JavaText.ScannerLines | src/org/magdaaproject/sam/config/BundleConfig.java:69-76 | There are no more lines than characters, and a non-empty text has at least one line. |
| JavaText.ScannerLinesHaveNoSeparator | src/org/magdaaproject/sam/config/BundleConfig.java:73-76 | No line the Scanner yields contains a line separator. |
| JavaText.SeparatorIndexIsFirst | src/org/magdaaproject/sam/config/BundleConfig.java:76 | The separator that ends a line is the first one in the remaining text. |
| JavaText.FirstTerminator | src/org/magdaaproject/sam/config/BundleConfig.java:73-76 | The terminator ending the first line (`\r\n`, `\n`, `\r`, U+2028, U+2029, U+0085, or the end of the text) fits in the text after that line. It is the end of the text iff the line runs to the end. |
| JavaText.FirstTerminatorInPlace | src/org/magdaaproject/sam/config/BundleConfig.java:73-76 | The terminator's characters are exactly the text right after the first line. |
| JavaText.LoneCrNotBeforeLf | src/org/magdaaproject/sam/config/BundleConfig.java:73-76 | A lone `\r` terminator is never directly followed by `\n`. |
| JavaText.ScannerLinesRoundTrip | src/org/magdaaproject/sam/config/BundleConfig.java:69-76 | Each line the Scanner yields, followed by the terminator it stripped, gives back the whole text. |
| JavaText.ScannerTerminatorsWellFormed | src/org/magdaaproject/sam/config/BundleConfig.java:73-76 | Only the last line may run to the end of the text without a terminator, and then that line is non-empty (a text ending in a terminator yields no empty last line). |
| JavaText.ScannerKeepsCrLfTogether | src/org/magdaaproject/sam/config/BundleConfig.java:73-76 | A stripped `\r` is never followed by an empty line ended by `\n`: `\r\n` is one terminator. |
| BundleConfigModel.AfterTab | src/org/magdaaproject/sam/config/BundleConfig.java:82 | With no tab the result is the whole line. Otherwise it is the suffix that starts right after the first tab: the character before it is a tab, and no earlier character is. |
| BundleConfigModel.ClassifyMeaning | src/org/magdaaproject/sam/config/BundleConfig.java:79-92 | A line without `@` is ignored. `@category` lines add a category; other `@form` lines add a form. Other command lines set the trimmed key and value around the first tab, and throw when they have no tab. The category and form entries are the trimmed text after the first tab. |
| BundleConfigProperties.ListLineWithoutTab | src/org/magdaaproject/sam/config/BundleConfig.java:82-86 | A category or form line without a tab adds the whole trimmed line, marker included. |
| BundleConfigProperties.MetadataOverwrite | src/org/magdaaproject/sam/config/BundleConfig.java:88-91 | A later metadata line with the same key replaces the earlier value. |
| BundleConfigModel.BundleConfig.ApplyLine | src/org/magdaaproject/sam/config/BundleConfig.java:79-92 | Handling one line changes the collections exactly as the line's effect says. It fails iff the line throws. |
| BundleConfigModel.RunStep | src/org/magdaaproject/sam/config/BundleConfig.java:73-92 | After an unbroken prefix of lines, the next line's effect is applied. If that line throws, the whole run ends there with the prefix's collections. |
| BundleConfigModel.BundleConfig.ParseConfig | src/org/magdaaproject/sam/config/BundleConfig.java:66-98 | Parsing applies the effects of the Scanner's lines in order. It ends with `MalformedLine(k)` at the first line that throws, keeping the effects of the lines before it. |
| BundleConfigModel.RunAbortSticks | src/org/magdaaproject/sam/config/BundleConfig.java:73-96 | Once a line has thrown, later lines change nothing. |
| BundleConfigProperties.RunOnlyGrows | src/org/magdaaproject/sam/config/BundleConfig.java:73-97 | Parsing never removes a list entry or a metadata key. The two lists together grow by at most one entry per line. |
| BundleConfigProperties.RunStopsAtFirstThrow | src/org/magdaaproject/sam/config/BundleConfig.java:73-96 | A run aborts iff some effect throws. It stops at the first one, with the state the lines before it gave. |
| BundleConfigProperties.ParseAbortsAtFirstMalformed | src/org/magdaaproject/sam/config/BundleConfig.java:87-96 | Parsing aborts iff some line is a metadata line without a tab, and the line reported is the first such line. |
| BundleConfigProperties.RunCollectsLists | src/org/magdaaproject/sam/config/BundleConfig.java:81-86 | The lists become their old contents followed by the category and form texts, in line order, up to where parsing stopped. |
| BundleConfigProperties.LastSetterWins | src/org/magdaaproject/sam/config/BundleConfig.java:88-91 | After a complete parse, a key holds the value of the last line that set it. |
| BundleConfigProperties.UnsetKeyUnchanged | src/org/magdaaproject/sam/config/BundleConfig.java:88-91 | A key that no line sets keeps its presence and its value. |
| BundleConfigModel.BundleConfig.GetMetadataValue | src/org/magdaaproject/sam/config/BundleConfig.java:105-110 | A value is returned iff the key is non-null, non-empty and stored, and then it is the stored value. |
| BundleConfigModel.FirstMissing | src/org/magdaaproject/sam/config/BundleConfig.java:143-165 | Nothing is missing iff every listed key is present. Otherwise the key found is absent and every key before it is present. |
| BundleConfigModel.ValidateChecksInOrder | src/org/magdaaproject/sam/config/BundleConfig.java:133-166 | Validation checks forms, then categories, then title, description, version, author, email and generated, and reports the first that fails. |
| BundleConfigModel.BundleConfig.ValidateConfig | src/org/magdaaproject/sam/config/BundleConfig.java:133-166 | The chain of checks returns the specified validation outcome. |
| BundleConfigProperties.ValidatePassIff | src/org/magdaaproject/sam/config/BundleConfig.java:133-166 | Validation passes iff there is a form, a category and every required metadata key. |
| BundleConfigProperties.ValidateReportsFirstMissing | src/org/magdaaproject/sam/config/BundleConfig.java:143-165 | A reported missing key is required and absent, every key checked before it is present, and the lists are non-empty. |

## Left out

- Android plumbing is not modelled: the sender thread, the `Looper`, the pending intent and broadcast receiver, the `LocalBroadcastManager` broadcasts (counted only, as `queueUpdates`), `set_message_queue_length`, logging and the returned `START_STICKY`.
- Time is not modelled. `Thread.sleep` is represented by the chosen interval, and by the number of one-second sleeps in `sendSMS`.
- The outer `while(true)` of the sender loop is not modelled; `SenderCycle` is one iteration after its sleep.
- Concurrency is not modelled. The broadcast receiver's writes to `sms_tx_result` are a given sequence of observed values, one per poll. Each poll reads the flag once, where the source reads it up to twice.
- `SuccinctDataQueueDbAdapter` is not part of this model. The store is assumed to be a sequence of rows in insertion order, and `delete(piece)` is assumed to remove every row with that piece. The cursor is a snapshot taken at the start of the pass, and the loop's `db` and the field `db` are the same store.
- `sendSMS`'s phone number, the message text, the upload URL and the HTTP request body are not modelled. Only the exchange's outcome is an input.
- SuccinctDataQueue.SuccinctDataQueueService.SawInReachMessageConfirmation: the boxed `Long ==` comparison is reference equality in the source. The model compares values, which agrees with the source for the placeholder id 99 (boxes of small values are shared) but not for ids outside the box cache. Before any dispatch the slot holds id -1 and no piece, and a confirmation for -1 matches in the source too, which then calls `delete(null)` on the adapter. The model assumes that deletes nothing, and still counts the broadcast.
- SuccinctDataQueue.SuccinctDataQueueService.Enqueue: the xml extra is taken to be non-null, and so is each element of the piece array. A null piece would throw like a short one. A null intent on a sticky restart is not modelled.
- `getCategories` and `getForms` are not modelled: they only read the lists, which the model's fields hold, and in the source the cast of `toArray()`'s `Object[]` to `String[]` fails at run time.
- BundleConfigModel.BundleConfig.ParseConfig: a metadata line without a tab makes `substring(1, -1)` throw an exception the source does not catch. It is modelled as the error `MalformedLine(k)`, with the effects of the earlier lines kept. The `NoSuchElementException` handler is unreachable after `hasNextLine()` and is not modelled.
- SuccinctDataQueue.EnqueuedRows: a Dafny `char` here is a Unicode scalar value, while a Java `String` counts UTF-16 code units. A piece with characters outside the Basic Multilingual Plane therefore has a different length, and a different 10-character prefix, than in the source. A lone surrogate cannot be represented at all. The same holds for `Trim`, `IndexOf` and `ScannerLines`, which the configuration parser uses.
- The Scanner's line separators are taken to be `\r\n`, `\n`, `\r`, U+2028, U+2029 and U+0085.
