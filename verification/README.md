# WhatsApp relay, metrics route and export helpers — a Dafny model

This project models the deterministic parts of a marketing dashboard's
server routes and export page:

- **Webhook** (`webhook.dfy`): the WhatsApp webhook. A GET checks the
  subscription handshake (`hub.mode`, `hub.verify_token`, `hub.challenge`)
  against the configured token. A POST recognises a
  `whatsapp_business_account` envelope and extracts the first message's
  text: the body for `text`, and the choice id for interactive
  `button_reply` / `list_reply`. It drops status notifications and empty
  text, normalises the sender to a JID and relays
  `{sender_id, message}` to the flow controller. A non-empty
  `response_message` in the reply is sent back to the sender. Every
  outcome that writes a response is one of three 200 acknowledgments,
  except that a deliverable message without `from` throws before any
  response is written (see below); any other method gets a 405. The handler is a total function. Its inputs are the
  configuration, the request, the flow controller's outcome and the
  outcome of the outbound send. Its output is the response plus the list of
  effects issued (`Relay`, `Send`).
- **WhatsAppIds** (`whatsapp_ids.dfy`): the shared `@s.whatsapp.net`
  suffix, the webhook's sender normalisation and the send route's
  digit stripping.
- **SendEndpoint** (`send.dfy`): the send route's field check, JID
  construction and 200/400/405 answers.
- **Metrics** (`metrics.dfy`): the metrics route's query validation,
  the inclusive day loop, the mock per-day counters, the totals, the
  zero-guarded ratios and the ROI sentinel.
- **ExportNaming** and **ExportLayout** (`export_naming.dfy`,
  `export_layout.dfy`): the export page's pure helpers. These are the
  campaign label, the report catalogue, the `requiresBackend` test, the
  date-range texts, file-name sanitisation and assembly, and which file a
  click saves. They also cover the vertical cursor and page-break rule for
  text blocks and chart placeholders.
- **Wrappers**, **Http** (`wrappers.dfy`, `http.dfy`): `Option`/`Result`,
  query values and JavaScript truthiness of optional strings.

Inputs the code gets from outside the model are parameters:
- the flow controller's reply (`RelayOutcome`);
- the outcome of `sendMessageToWhatsApp` (`SendOutcome`);
- the environment variables (`ConfigFromEnv`);
- the `Math.random()` draws (`Randomness`, values in [0, 1));
- ISO date parsing (`DateParser`, dates as day ordinals);
- `date-fns` formatting (`Formatter`).

In these cases the code behaves differently from what a reader might expect, and the model follows the
code:
- An unsupported message type is acknowledged `EVENT_RECEIVED`, not
  `EVENT_RECEIVED_UNPROCESSED`.
- An ok flow-controller reply whose body is not valid JSON makes
  `flowResponse.json()` throw inside the `try`, and JSON `null` makes the
  read of `response_message` throw. Either is acknowledged
  `EVENT_RECEIVED_WITH_ERROR` (`OkMalformed`), not treated as "no reply".
  Any other JSON value without a string `response_message` (a number, a
  string, `true`, an array) reads it as `undefined` and is `OkReply(None)`.
- A failing send is awaited inside the `try`, so it also gives
  `EVENT_RECEIVED_WITH_ERROR`. It is not swallowed.
- The handler does not always acknowledge. A deliverable message without
  `from` makes `senderJid.includes('@')` throw outside the `try`. The
  model reports this as the outcome `Threw`, with no effects. The text of
  the `TypeError` is not modelled.
- The campaign label uses `find(...)?.name || default`. If the first
  campaign with the selected id has an empty name, the generic label is
  used.

## Model

| member | source | states |
|---|---|---|
| Webhook.ConfigFromEnv | pages/api/whatsapp/webhook.ts:5-6 | an unset or empty variable falls back to the built-in URL or token, so the verify token is never empty |
| Webhook.HandleVerification | pages/api/whatsapp/webhook.ts:14-27 | 200 with exactly the `hub.challenge` value iff mode is `subscribe` and the token equals the configured one; otherwise 403 with the fixed body `Forbidden`, whichever check failed |
| Webhook.FirstMessage | pages/api/whatsapp/webhook.ts:34-35 | a message is found exactly when the whole path `entry[0].changes[0].value.messages[0]` exists, and it is that element |
| Webhook.ExtractText | pages/api/whatsapp/webhook.ts:37-51 | no text iff the type is neither `text` nor `interactive`; a `text` message yields its body (or ""); a `button_reply` or `list_reply` yields the id of that choice (or ""); any other interactive subtype yields ""; any non-empty result is the text body or the id of a choice of the matching subtype |
| Webhook.HandleEvent | pages/api/whatsapp/webhook.ts:30-98 | every answer is 200 with one of the three acknowledgments; unrecognised envelopes give `EVENT_RECEIVED_UNPROCESSED` and no effects; a throw happens exactly for a deliverable message without `from`; at most one relay, issued first, carrying the normalised sender and the extracted text; a send happens exactly after an ok relay with a non-empty reply, to the relayed sender; `EVENT_RECEIVED_WITH_ERROR` exactly when the relay failed or the send failed |
| Webhook.Handle | pages/api/whatsapp/webhook.ts:8-103 | GET is the handshake, POST is the event handling, any other method answers 405 with `Allow: GET, POST` and no effects, and 405 is given only to other methods |
| Webhook.UnsupportedTypeIsAcknowledged | pages/api/whatsapp/webhook.ts:48-51 | a message type other than `text`/`interactive` answers `EVENT_RECEIVED` (not unprocessed) with no relay and no send |
| Webhook.EmptyOrStatusIsAcknowledged | pages/api/whatsapp/webhook.ts:53-56 | empty extracted text or a truthy `status` answers `EVENT_RECEIVED` with no relay and no send |
| Webhook.ChoiceIdIsRelayed | pages/api/whatsapp/webhook.ts:42-46 | a button or list choice with a non-empty id is relayed with that id as the message, from the normalised sender, whatever the relay and send outcomes |
| Webhook.ChoiceTitleIsIgnored | pages/api/whatsapp/webhook.ts:42-47 | changing the titles of the button or list choice never changes the extracted text |
| Webhook.FailedRelayNeverSends | pages/api/whatsapp/webhook.ts:62-93 | a rejected fetch, a non-ok status or an unreadable reply answers `EVENT_RECEIVED_WITH_ERROR` after exactly the one relay and no send |
| Webhook.OkRelayOutcomes | pages/api/whatsapp/webhook.ts:82-93 | an ok reply with a non-empty message sends it once to the normalised sender and acknowledges according to the send's success; without a message nothing is sent and the answer is `EVENT_RECEIVED` |
| Webhook.TextMessageIsRelayedAndAnswered | pages/api/whatsapp/webhook.ts:34-90 | a text from a bare number is relayed as `number@s.whatsapp.net` with the unchanged text and the reply goes back to that address |
| Webhook.TextMessageExample | pages/api/whatsapp/webhook.ts:34-90 | "Olá" from 5511999999999 answered "Oi!" relays and sends with `5511999999999@s.whatsapp.net` and acknowledges `EVENT_RECEIVED` |
| Webhook.ServerErrorIsAcknowledged | pages/api/whatsapp/webhook.ts:73-93 | a 500 from the flow controller gives `EVENT_RECEIVED_WITH_ERROR` and only the relay |
| Webhook.HandshakeEchoesChallenge | pages/api/whatsapp/webhook.ts:16-22 | the handshake with the right token and challenge `xyz123` answers 200 `xyz123` |
| WhatsAppIds.NormalizeSender | pages/api/whatsapp/webhook.ts:60 | the result always contains `'@'` and starts with the sender; it is the sender itself iff the sender has an `'@'`, and the sender followed by `@s.whatsapp.net` iff it has none |
| WhatsAppIds.NormalizeSenderIdempotent | pages/api/whatsapp/webhook.ts:60 | normalising twice equals normalising once |
| WhatsAppIds.DigitsOnly | pages/api/whatsapp/send.ts:14 | the result is all digits, no longer than the input, and equal to the input when the input is all digits, empty when it has none |
| WhatsAppIds.DigitsOnlyConcat | pages/api/whatsapp/send.ts:14 | stripping `a + b` is stripping `a` followed by stripping `b` (digits are kept in their original order) |
| WhatsAppIds.DigitsOnlyKeepsEveryDigit | pages/api/whatsapp/send.ts:14 | each digit occurs in the result as often as in the input, and no other character occurs |
| WhatsAppIds.DigitsOnlyIdempotent | pages/api/whatsapp/send.ts:14 | stripping an already stripped string changes nothing |
| WhatsAppIds.SendJid | pages/api/whatsapp/send.ts:14 | the JID is the digits of the number followed by `@s.whatsapp.net`, at most as long as the number plus the suffix |
| WhatsAppIds.SendJidIsNormalised | pages/api/whatsapp/send.ts:14 | a JID built by the send route is left unchanged by the webhook's normalisation, and its only `'@'` is the suffix's |
| SendEndpoint.Handle | pages/api/whatsapp/send.ts:6-31 | 405 with `Allow: POST` iff the method is not POST; a POST missing or with empty `number` or `message` answers 400 `success: false` and builds no JID; otherwise 200 `success: true` with the JID of the number, all digits before the suffix |
| SendEndpoint.SeparatorsDoNotChangeAddress | pages/api/whatsapp/send.ts:14 | inserting non-digit characters into a number does not change the JID |
| Metrics.CampaignFactor | pages/api/metrics.ts:35-36 | factor 1 when `campaignId` is absent, empty or `all`; otherwise in [0.2, 0.8) |
| Metrics.Day | pages/api/metrics.ts:43-49 | a day's row has the given date, conversions ≤ clicks ≤ impressions < 50000, non-negative cost and revenue, zero cost exactly when there are no clicks and zero revenue exactly when there are no conversions |
| Metrics.SumKeepsDayProperties | pages/api/metrics.ts:51 | the ordering conversions ≤ clicks ≤ impressions and the zero couplings of the days carry over to the totals |
| Metrics.Derive | pages/api/metrics.ts:53-58 | ctr is 0 with no impressions and within [0, 100] when clicks ≤ impressions; cpc and conversion rate are 0 with no clicks; cost per conversion is 0 with no conversions; ROI is the percentage return when cost > 0, else 10000 if revenue > 0 and 0 otherwise |
| Metrics.DayCount | pages/api/metrics.ts:34 | a valid range has at least one day |
| Metrics.BuildDaily | pages/api/metrics.ts:39-52 | the loop yields exactly `days` rows, row k being the generator's row for offset k, and the running totals it accumulates equal the sums of those rows |
| Metrics.Report | pages/api/metrics.ts:39-60 | the success body has one row per day, row i dated `start + i` and generated from draw i, totals derived from the row sums, conversions ≤ clicks ≤ impressions, and ROI 0 when there is no cost |
| Metrics.Handle | pages/api/metrics.ts:16-70 | 405 with `Allow: GET` iff not GET; missing, empty or array dates give 400 with the required-dates message; unparseable dates or end before start give 400 naming both; otherwise 200 with one row per day of the inclusive range, totals equal to the row sums with the guarded ratios, conversions ≤ clicks ≤ impressions, and ROI 0 when there is no cost |
| Metrics.RoiSentinelNeverReported | pages/api/metrics.ts:47-58 | over well-formed rows, zero total cost forces ROI 0, so the 10000 sentinel is never reported |
| ExportNaming.FindById | pages/export.tsx:157 | the index found holds the id and no earlier campaign does; no index means no campaign has the id |
| ExportNaming.CampaignName | pages/export.tsx:157 | `Todas Campanhas` for `all`; otherwise the first matching campaign's name, or `Campanha Específica` when there is no match or its name is empty; never empty |
| ExportNaming.FirstMatchDecides | pages/export.tsx:157 | only the first campaign with the id is consulted, whatever follows it |
| ExportNaming.ParseReportType | pages/export.tsx:178 | a key is recognised exactly when it is the key of one of the six reports |
| ExportNaming.KeyRoundTrip | pages/export.tsx:164 | every report's key parses back to that report |
| ExportNaming.TitleFor | pages/export.tsx:164-178 | a known key yields its report's fixed title; any other key fails with `Tipo inválido: <key>` |
| ExportNaming.TitlesAreDistinct | pages/export.tsx:164 | different reports have different titles |
| ExportNaming.RequiresBackend | pages/export.tsx:168 | true exactly for the keys of the five reports other than `campaigns` |
| ExportNaming.SafeName | pages/export.tsx:187 | same length as the name; each ASCII letter or digit kept in place, every other character `_` |
| ExportNaming.SafeNameIdempotent | pages/export.tsx:187 | sanitising a sanitised name changes nothing |
| ExportNaming.FinalTitle | pages/export.tsx:187 | the result has no whitespace, is no longer than the title, and equals the title when it has none |
| ExportNaming.FinalTitleCollapsesRun | pages/export.tsx:187 | a maximal run of whitespace becomes exactly one `_` |
| ExportNaming.FinalTitleKeepsWordChar | pages/export.tsx:187 | a non-whitespace character is kept in place |
| ExportNaming.FinalTitleIdempotent | pages/export.tsx:187 | collapsing twice equals collapsing once |
| ExportNaming.FileName | pages/export.tsx:187-188 | the name starts with the collapsed title and `_`, carries the sanitised campaign name right after, and ends with `_<start>_a_<end>.pdf`; it has no whitespace when the dates have none |
| ExportNaming.FormattedRange | pages/export.tsx:111 | dates are produced exactly when both ends are present and valid, and they are the two ends formatted |
| ExportNaming.DisplayRange | pages/export.tsx:112 | range text when both ends are valid, single-date text when only `from` is valid, `Selec. período` otherwise |
| ExportNaming.HeaderAgreesWithFileDates | pages/export.tsx:111-112 | the header shows a `Per: ` period exactly when the range yields the file-name dates, and then both texts are built from the same two days |
| ExportNaming.ReportFileName | pages/export.tsx:178-192 | a known key saves under the file name built from its title; an unknown key, whose title lookup throws, saves `ERRO_<key>.pdf`; either name ends in `.pdf` |
| ExportNaming.Export | pages/export.tsx:149-192 | a missing end stops with the selection notice, an invalid end with the date error; an unknown report key saves `ERRO_<key>.pdf`; a known key saves the file named from its title, campaign label and dates; every saved name ends in `.pdf` |
| ExportLayout.ContentBand | pages/export.tsx:116 | content starts at 39 mm with the logo and 32 mm without, and ends 30 mm above the page's bottom edge |
| ExportLayout.LineHeight | pages/export.tsx:116 | the line height of a text block has the sign of its font size: positive for a positive size, never positive otherwise |
| ExportLayout.PlaceText | pages/export.tsx:116 | text is never drawn above the content top; a page is added iff the block would cross the content bottom, and then it starts at the top and the page count grows by one; the cursor ends at the start plus lines × line height; a block no taller than the band never ends below it |
| ExportLayout.PlaceChart | pages/export.tsx:120-137 | a page is added iff the chart would cross the content bottom, moving it to the top; the cursor ends at its (possibly reset) start plus height plus 10 |
| ExportLayout.ChartIsNotClamped | pages/export.tsx:126-128 | unlike text, a chart can be drawn above the content top |
| ExportLayout.FlowCountsPages | pages/export.tsx:116-137 | over any sequence of text blocks (line height from font size and scale factor) and charts, the page count grows by exactly the number of page breaks, at most one per block |
| ExportLayout.FlowStaysOnPage | pages/export.tsx:116-137 | when every block fits in the band, the cursor never goes more than the chart spacing below the content bottom |

## Left out

- Network I/O is not modelled: the `fetch` to the flow controller, `sendMessageToWhatsApp` and the export page's `axios` calls. Their results are parameters. `lib/whatsappSender` is not part of this model.
- Environment variables are not read. `ConfigFromEnv` takes their values as parameters.
- Logging (`console.*`) is not modelled.
- The budget, funnel and LTV routes, the alerts page, the layout and the app shell are left out. They are mock floating-point arithmetic and UI with no discrete logic.
- Webhook payload fields that hold a non-string where a string is read are not modelled (a number `from`, a non-string `text.body`). Only absent, null and string values are.
- A `null` element at `entry[0]`, `changes[0]` or `messages[0]` is not representable (the sequences hold only objects). The source answers `EVENT_RECEIVED_UNPROCESSED` for it, as for a missing element.
- A truthy non-string `response_message` (a number, an object) is not representable; the source would send it as the reply text. Only string or absent values are modelled.
- A `null` `from` is modelled like an absent one (`Threw`). Only the `TypeError` text would differ.
- The send route's 500 branch is left out. It is reached only when building the log line throws, for a `message` object whose `toString` is not callable; the model's fields are strings.
- A non-string `number` (which would throw at `replace`, outside the `try`) is not modelled.
- A send request whose JSON body is `null` is not modelled. Destructuring it throws before the field check; the model's request always has the two fields, so its nearest input answers 400.
- The metrics route's 500 branch is left out. With valid dates, parsing and formatting do not throw.
- Metrics.Handle: dates are day ordinals. `parseISO`, `differenceInDays` on times within a day and the `yyyy-MM-dd` text of each row's date are left out. Each row carries its day ordinal.
- Metrics.Derive: `toFixed`/`parseFloat` rounding of cost, revenue and the ratios is left out. Arithmetic is exact (Dafny `real`), so float rounding and float overflow are not modelled.
- Date formatting and validity come from `date-fns`. They are a `Formatter` parameter and a validity flag.
- ExportNaming.SafeName: characters are Unicode scalar values. JavaScript replaces each UTF-16 code unit, so a character outside the Basic Multilingual Plane becomes two `_` there and one here.
- ExportNaming.Export: drawing is assumed to succeed. A missing `autoTable` plugin or an exception while drawing would also save the `ERRO_` document. Toasts and loading flags are not modelled.
- ExportLayout.PlaceText: `splitTextToSize` is left out; the number of lines is a parameter. The header redrawn on a new page, fonts, colours, the logo and jsPDF drawing calls are not modelled.
- ExportLayout.PlaceChart: the source returns only the new y. The model also reports where the chart was drawn and whether a page was added.
- The per-report content functions (`addCampaignsContent`, `addMetricsContent`, …) are left out. Only their cursor rule is modelled, through `PlaceText` and `PlaceChart`.
