# Stakeholder influence mapper — verified model

This project models the logic of the Stakeholder Influence Mapper, a
single-page React component (`src/app.js`). A user keeps an ordered list of
stakeholder records. Each record has a name, a title, a department,
influence and support scores, an engagement score and a relationship. The
component recomputes an analysis from the list after every change: threshold
counts, score averages and up to four canned recommendations. The user can
ask for a report as soon as the list is non-empty, but a request with fewer
than three records is refused with an alert. Otherwise the component asks
for contact details and emits a JSON download of the current state.
Records carry no reporting reference, and the only export is the JSON
download.

Modules, one per part of the component:

- `Records` (records.dfy): the record, the draft (the record being typed
  into the add form), the contact details, and the per-field edit
  `{ ...r, [field]: value }`. It includes the rule that parses the value
  to an integer when the key includes `influence`, `support` or
  `engagement`.
- `Store` (store.dfy): the new lists the add, remove and update handlers
  build. Removal is `filter` by id (`Without`), update is `map` by id
  (`Updated`).
- `Decimal` (decimal.dfy): how a count is written into a recommendation
  text (`${n}`), with a parser that reads it back.
- `Analyzer` (analyzer.dfy): the threshold counts, the score totals, the
  four recommendation rules, the imperative `GenerateRecommendations`, and
  `Analyze`, the body of the effect that sets `analysis`.
- `Colors` (colors.dfy): the two colour-band classifiers.
- `Mapper` (mapper.dfy): the component's state as a class. It has one
  method per handler; each handler is one atomic step, and `Valid()` says
  the stored analysis is `Analyze` of the current list.

## Model

| member | source | states |
|---|---|---|
| Records.NumericKeys | src/app.js:48 | of the seven record keys, exactly `influence`, `support` and `engagement` include one of the three score names, so exactly those are parsed to integers |
| Records.SetField | src/app.js:48 | the edited record keeps its id; the named field holds the parsed integer for a score key and the raw text otherwise; every other field is unchanged |
| Store.AppendFreshKeepsUnique | src/app.js:29 | appending a record whose id is new keeps ids unique and adds exactly that id |
| Store.Without | src/app.js:42-44 | the result holds exactly the records of the list whose id differs, and is no longer than the list |
| Store.WithoutAppend | src/app.js:43 | removal distributes over concatenation, so survivors keep their original order |
| Store.WithoutAbsent | src/app.js:43 | removing an id no record has leaves the list unchanged |
| Store.WithoutIds | src/app.js:43 | the ids after removal are the ids before, minus the removed one |
| Store.WithoutIdempotent | src/app.js:42-44 | removing the same id twice is the same as removing it once |
| Store.WithoutPresent | src/app.js:43 | with unique ids, removing a present id drops exactly one record and keeps ids unique |
| Store.Updated | src/app.js:46-50 | same length; each record with the id is replaced by its field-edited copy; every other record is kept as it was |
| Store.UpdatedChangesOnlyField | src/app.js:46-50 | an update keeps length, ids and order; only records with the id change, and only in the named field, which then holds the parsed integer for a score field and the text otherwise |
| Store.UpdatedKeepsIds | src/app.js:47-49 | an update keeps the set of ids and their uniqueness |
| Decimal.NatToString | src/app.js:154 | a count is written as at least one decimal digit, with no leading zero |
| Decimal.ParseNatToString | src/app.js:154 | reading the written digits back gives the count |
| Decimal.NatToStringInjective | src/app.js:158 | different counts are written differently |
| Analyzer.Count | src/app.js:125-127 | a filtered length is at most the list length, and is zero iff no record passes the test |
| Analyzer.CountMonotone | src/app.js:125-127 | a test that implies another never counts more records, so risks never exceed high-influence records |
| Analyzer.CountAppend | src/app.js:125-127 | counting over a concatenation adds the two counts |
| Analyzer.TotalBounds | src/app.js:123-124 | when every score lies in lo..hi, the score total lies between lo and hi times the count, so the average stays in range |
| Analyzer.MessageInjective | src/app.js:149-163 | two recommendation texts are equal only for the same rule with the same count |
| Analyzer.MessageIn | src/app.js:149-163 | a text is among the emitted texts iff its recommendation was emitted |
| Analyzer.RulesOrdered | src/app.js:142-166 | at most four recommendations, strictly in the order champions, skeptics, engagement, executives |
| Analyzer.ChampionsAdvice | src/app.js:145-151 | the champions text appears iff no record is a champion with influence at least 7 |
| Analyzer.SkepticsAdvice | src/app.js:146-155 | the skeptics text with count n appears iff n is positive and is the number of records with influence at least 7 and support at most 4 |
| Analyzer.SkepticsAdviceExists | src/app.js:146-155 | some skeptics text appears iff some record has influence at least 7 and support at most 4 |
| Analyzer.EngagementAdvice | src/app.js:147-159 | the engagement text with count n appears iff n is positive and is the number of records with engagement at most 2 and influence at least 5 |
| Analyzer.ExecutivesAdvice | src/app.js:161-163 | the executives text appears iff no record is in the `Executive` department |
| Analyzer.GenerateRecommendations | src/app.js:142-166 | the list built by successive pushes is the texts of the rules that fire, in rule order |
| Analyzer.Analyze | src/app.js:121-140 | the analysis is absent iff the list is empty; otherwise count is the length, risks ≤ highInfluence ≤ length and supporters ≤ length |
| Analyzer.AnalysisCounts | src/app.js:125-134 | risks, highInfluence and supporters are zero exactly when no record meets their thresholds |
| Analyzer.WorkedExample | src/app.js:121-134 | scores 8/3, 9/2 and 5/9 give totals 22 and 14 over 3 records, 2 high-influence records, 1 supporter and 2 risks |
| Colors.InfluenceColor | src/app.js:52-57 | red from 8, orange for 6–7, yellow for 4–5, green below 4; each class exactly on its band |
| Colors.InfluenceColorMonotone | src/app.js:52-57 | a higher influence never gets a weaker colour |
| Colors.SupportColor | src/app.js:59-63 | green from 7, yellow for 4–6, red below 4; each class exactly on its band |
| Colors.SupportColorMonotone | src/app.js:59-63 | a higher support never gets a less favourable colour |
| Mapper.InfluenceMapper.constructor | src/app.js:5-22 | empty list, default draft, no analysis, form closed, empty contact, no downloads |
| Mapper.InfluenceMapper.RefreshAnalysis | src/app.js:121-140 | after the effect, the stored analysis is the analysis of the current list |
| Mapper.InfluenceMapper.EditDraft | src/app.js:212-225 | one input of the add form replaces one draft field |
| Mapper.InfluenceMapper.AddStakeholder | src/app.js:27-40 | with a non-empty name and title, the draft plus the id is appended at the end and the draft is reset to the defaults; otherwise list and draft are unchanged; the rest of the state is unchanged; a fresh id keeps ids unique |
| Mapper.InfluenceMapper.RemoveStakeholder | src/app.js:42-44 | the list becomes the records whose id differs; the id is gone from the ids; an absent id changes nothing; with unique ids exactly one record goes |
| Mapper.InfluenceMapper.UpdateStakeholder | src/app.js:46-50 | the list becomes its id-wise field update; the rest of the state is unchanged |
| Mapper.InfluenceMapper.GenerateReport | src/app.js:76-82 | with fewer than 3 records, the alert is raised and the form state is unchanged; otherwise the form opens; nothing else changes |
| Mapper.InfluenceMapper.EditLead | src/app.js:414-438 | one input of the contact form replaces one contact field |
| Mapper.InfluenceMapper.CloseLeadCapture | src/app.js:444 | the cancel button closes the form and keeps the typed contact details |
| Mapper.InfluenceMapper.DownloadReport | src/app.js:84-102 | one download is appended holding the date, the records, the analysis and the contact details as they were; the form closes and the contact details are cleared |
| Mapper.InfluenceMapper.SubmitLeadForm | src/app.js:104-119 | without a name or an email, the alert is raised and nothing changes; otherwise the report is downloaded, the form closes and the contact details are cleared |

## Left out

- Rendering: the JSX layout, the icons and `getRelationshipIcon` produce display elements, not data.
- Browser I/O: `JSON.stringify`, `Blob`, `URL.createObjectURL`, the link element and its `click` are modelled as appending one `Download` (file name plus report) to `downloads`.
- `alert` is modelled as the alert text returned by the handler. `console.log` and the `window.gtag` analytics event are left out.
- The clock: the record id from `Date.now()` is a parameter of `AddStakeholder`. Nothing makes it unique, so uniqueness of ids is stated only conditionally, for an id not already present.
- The clock: the two readings of the date (lines 86 and 97) are taken as one `today` parameter. A download made across midnight cannot be told apart.
- `avgInfluence` and `avgSupport` are floating-point divisions formatted with `toFixed(1)`. The model keeps the integer totals and the count they are divided by.
- `parseInt`: its result is passed to `UpdateStakeholder` as `parsed`. A value that does not parse (NaN) is not modelled.
- React scheduling: state batching, stale closures and effect timing are not modelled. Each handler is one atomic step, and the analysis is recomputed at its end.
- Computed keys: the `[field]` key is one of the seven record fields. An arbitrary key, which would add a new property to the record, is not modelled.
- Mapper.InfluenceMapper.UpdateStakeholder: its ensures does not repeat that ids and their uniqueness are kept. `Store.UpdatedKeepsIds` proves this for the list the method stores.
