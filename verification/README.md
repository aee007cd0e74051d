# syncu-portal document status and upload core, modelled in Dafny

The portal collects customer documents for a real-estate financing check.
Its core has four parts:

- **Upload.** The upload form (`UploadForm`) filters the chosen files, sends
  them with the customer's name and role, and shows the server's answer. The
  upload route (`pages/api/upload.js`) stores every file and queues it for
  processing. A second route (`pages/api/finalize.js`) queues files that the
  browser has already stored.
- **Status overview.** The overview (`StatusOverview`) groups the document
  status rows by customer and role. It counts required, minimum-count and
  deep-check documents, turns the counts into a weighted progress
  percentage, and derives a lifecycle label.
- **Status table.** The table (`StatusTable`) shows one customer's rows. It
  shades missing required documents and shows download links and detail
  toggles. It also shows a net-income comparison panel built from loosely
  typed amounts, such as "1.234,56".
- **Dashboard and download.** The dashboard (`pages/dashboard.js`) switches
  between services, upload form, overview and detail. The download route
  (`pages/api/get-download-url.js`) turns a stored file's URL or path back
  into a bucket and path and asks storage for a signed link.

Every operation is a pure function, or a method with a loop, over immutable
data. The database, the storage service, the temporary files, the UUID
generator, `Number(string)` and the signing call are function-typed
parameters. Each API route returns its HTTP response and the list of calls
it made on those services.

Modules:

- `Base`: Option, JavaScript string helpers (`trim`, `\s`, lower-casing).
- `JsonValue`: the loosely typed values the routes and rows carry.
- `Http`: route responses and the decimal printing of counts.
- `StatusRows`: the status row and its per-row predicates.
- `Progress`: the weighted progress percentage.
- `Overview`: grouping, summaries and lifecycle labels.
- `LooseNumber`: lenient amount reading.
- `StatusTable`: the net-income panel, badges, row rendering decisions and expanded rows.
- `Dashboard`: the page state machine and the detail filter.
- `UploadForm`: file selection, request building and reply handling.
- `UploadApi`: the upload route.
- `FinalizeApi`: the finalize route.
- `DownloadUrl`: the download route.

## Model

| member | source | states |
|---|---|---|
| Overview.AggregateIsPartition | components/StatusOverview.js:5-29 | The groups are exactly the distinct keys `kunde_id::kundenrolle` of the rows, in first-seen order. Each group holds exactly the rows with its key, with no key repeated. |
| Overview.GroupCounters | components/StatusOverview.js:19-26 | Each group's seven counters equal the number of its rows that are required, required and present, have a minimum, meet the minimum, need a deep check, passed it, and failed it. |
| Overview.AnyUploadIff | components/StatusOverview.js:27 | A group is marked as having an upload exactly when one of its rows has a file URL. |
| Overview.GroupIdentity | components/StatusOverview.js:8-17 | A group's customer id, name, role and timestamp come from the first row with its key. The timestamp is that row's `letztes_update`, else its `erkannt_am`, else none. |
| Overview.RowInExactlyOneGroup | components/StatusOverview.js:6-8 | Every row lands in a group with its key, and no two groups share a key. |
| Overview.FirstSeenOrder | components/StatusOverview.js:6-29 | Groups appear in the order in which their first rows appear. |
| Overview.AggregateWellFormed | components/StatusOverview.js:19-26 | In every group, each "ok" counter is at most its total. |
| Overview.RequiredTotalsAddUp | components/StatusOverview.js:19 | The groups' required totals add up to the number of required rows. |
| Overview.SameGroupIff | components/StatusOverview.js:7 | Rows with equal customer id and role (a missing role counts as empty) share a key. When ids contain no ':', sharing a key implies equal id and role. |
| Overview.KeyCollision | components/StatusOverview.js:7 | The `::` key is ambiguous when ids contain ':': id "a:" with role "x" and id "a" with role ":x" get the same key. |
| Overview.DeriveStatus | components/StatusOverview.js:42-47 | The four labels partition the cases. "Fehlgeschlagen" holds exactly when a deep check failed. "Abgeschlossen" holds exactly when none failed and progress is 100. "In Bearbeitung" means neither, with an upload. "Wartet auf Upload" means neither, without one. |
| Overview.Summaries | components/StatusOverview.js:49-53 | There is one summary per group, in group order, and each progress is within 0..100. |
| Overview.FailedIff | components/StatusOverview.js:25-43 | A card reads "Fehlgeschlagen" exactly when one of the group's rows needs a deep check (`tiefergehende_pruefung`) and has case status "failed", in any letter case. A "failed" row without the deep-check flag does not fail the card. |
| Overview.WaitingHasNoUpload | components/StatusOverview.js:27-46 | A card waiting for upload has no row with a file URL. |
| StatusRows.CaseStatusSpellings | components/StatusOverview.js:23-25 | The case status is compared case-insensitively: "PASSED" counts as passed and "Failed" as failed. A missing or other status counts as neither. |
| StatusRows.DeepOutcomesExclusive | components/StatusOverview.js:24-25 | No row counts as both passed and failed. |
| Progress.Compute | components/StatusOverview.js:31-40 | Counters whose "ok" values do not exceed their totals give a progress between 0 and 100. |
| Progress.ScoreBounds | components/StatusOverview.js:37-39 | The weighted score, rescaled over the active categories, lies in [0, 1]. |
| Progress.NoActiveCategory | components/StatusOverview.js:37-39 | With no active category the sum falls back to 1 and progress is 0. |
| Progress.OnlyRequiredActive | components/StatusOverview.js:34-39 | When only required documents exist, progress is the rounded percentage of present required documents. |
| Progress.AllSatisfied | components/StatusOverview.js:31-40 | When some category is active and every active category is complete, progress is exactly 100. |
| Progress.Monotone | components/StatusOverview.js:38-39 | With totals unchanged, raising any "ok" count never lowers progress. |
| Progress.RescaledExample | components/StatusOverview.js:32-39 | Take 2 of 2 required and 1 of 3 minimum-count documents. The weights are rescaled over 0.85, so progress is 80. |
| LooseNumber.AsNumberLoose | components/StatusTable.js:34-41 | Null and booleans give no number, and a finite number is returned unchanged. |
| LooseNumber.CleanConcat | components/StatusTable.js:38 | Removing whitespace and dots, then turning commas into dots, works character by character: it distributes over concatenation. |
| LooseNumber.CleanShape | components/StatusTable.js:38 | The cleaned text has no whitespace and no comma, and is no longer than the input. |
| LooseNumber.CleanGerman | components/StatusTable.js:38 | Thousands dots are dropped and the decimal comma becomes a dot: `a.b,c` becomes `ab.c`. |
| LooseNumber.GermanSeparators | components/StatusTable.js:37-40 | "1.234,56" and " 1234,56 " are both read as `Number("1234.56")`. |
| LooseNumber.ObjectProbeOrder | components/StatusTable.js:42-49 | An object gives the amount of the first key among netto, value, betrag and amount whose value reads as a number. It gives none if no key does. |
| LooseNumber.NoProbedKey | components/StatusTable.js:42-50 | An object with none of the four keys gives no number. |
| LooseNumber.NettoWins | components/StatusTable.js:42-47 | A `netto` entry (the last one, if the key repeats) that reads as a number is the object's amount, whatever other keys it has. |
| LooseNumber.NestedNetto | components/StatusTable.js:42-47 | A nested `netto` string in German notation is read through the recursion. |
| StatusTable.FindFirst | components/StatusTable.js:59-68 | Like `Array.prototype.find`: it returns the first matching row, or none when no row matches. |
| StatusTable.Summarize | components/StatusTable.js:83 | The panel is shown exactly when some row is a payslip and some row is the self-disclosure. |
| StatusTable.PayslipFields | components/StatusTable.js:54-78 | The minimum, the count present and the minimum flag come from the first payslip row. The flag is true when either spelling is set. It is false only when the umlaut spelling is unset and the ASCII spelling is false. |
| StatusTable.NoPayslip | components/StatusTable.js:75-83 | Without payslips, the minimum, the count and the flag are absent and the panel is hidden. |
| StatusTable.ComparisonFields | components/StatusTable.js:63-80 | The comparison status is the first `netto_abgleich` case's status, lower-cased, or absent when empty. The minimum net is that case's details read loosely. |
| StatusTable.NoComparisonCase | components/StatusTable.js:70-80 | Without a comparison case, the status and the minimum net are absent. |
| StatusTable.DeclaredIncomeSource | components/StatusTable.js:66-73 | The declared net comes from the first `angegebenes_netto` case. When that gives no number, it comes from the first self-disclosure row. |
| StatusTable.NoDeclaredIncomeCase | components/StatusTable.js:58-73 | Without an `angegebenes_netto` case, the declared net is the first self-disclosure row's details read loosely. |
| StatusTable.NoSelfDisclosure | components/StatusTable.js:58-73 | Without a self-disclosure row, the declared net is the first `angegebenes_netto` case's details read loosely. |
| StatusTable.NoIncomeSource | components/StatusTable.js:58-73 | With neither source, the declared net is `null`. |
| StatusTable.StatusBadge | components/StatusTable.js:122-133 | The badge is "passed" exactly on status passed and "failed" exactly on status failed. It is the minimum warning exactly when neither holds and the flag is false. Otherwise it reads "Unvollständig". |
| StatusTable.PassedInAnyCase | components/StatusTable.js:122-126 | A comparison case with status "PASSED" shows the badge "Abgleich bestanden". |
| StatusTable.NoCaseMinimumWarning | components/StatusTable.js:127-133 | Without a comparison case, the warning shows exactly when the first payslip's minimum flag is false. |
| StatusTable.RoundCents | components/StatusTable.js:136 | The result is a whole number of cents, within half a cent of the input. |
| StatusTable.CentsUnique | components/StatusTable.js:136 | Only one whole number of cents lies in that half-cent window, so the two facts above fix the rounded value. |
| StatusTable.Delta | components/StatusTable.js:135-136 | A difference is shown exactly when both amounts exist. It is a whole number of cents within half a cent of declared minus minimum, which is declared minus minimum rounded to the cent. |
| StatusTable.DeltaOfEqualAmounts | components/StatusTable.js:135-136 | Equal amounts give a difference of exactly 0. |
| StatusTable.PanelHint | components/StatusTable.js:207-217 | The hint appears exactly when a minimum exists. It reads "erfüllt" exactly when the flag is true, and shows the count present (0 when it is unknown) against the minimum. |
| StatusTable.MinimumCellOf | components/StatusTable.js:347-360 | The cell is a dash without a minimum and a check mark when it is met. Otherwise it shows the count present (or 0) against the minimum. |
| StatusTable.DownloadLink | components/StatusTable.js:366-379 | A download link is shown exactly for rows with a file URL, and it points to that URL. |
| StatusTable.Toggle | components/StatusTable.js:225-226 | Toggling flips one row's expanded flag and leaves every other row's unchanged. |
| StatusTable.ToggleTwice | components/StatusTable.js:225-226 | Toggling the same row twice restores every row's flag. |
| StatusTable.ToggleShowsOne | components/StatusTable.js:383-394 | On a row with a details button, a toggle flips whether its details show. No other row's details change. |
| StatusTable.NoToggleNoDetails | components/StatusTable.js:383-394 | A row without a details button never shows details, whatever its expanded flag. |
| StatusTable.ShadedCount | components/StatusTable.js:319-330 | The number of shaded rows is the number of required rows minus the number that are required and present. |
| StatusTable.ShadedRowsOfGroup | components/StatusTable.js:330 | A group's shaded rows number its required total minus its required-present count. |
| Dashboard.ResetSelection | pages/dashboard.js:39-42 | Reset clears the service and the sub-type and nothing else. |
| Dashboard.InitialInv | pages/dashboard.js:30-37 | The page starts on the service cards, within the invariant. |
| Dashboard.RunInv | pages/dashboard.js:30-59 | Every sequence of clicks and fetch results keeps the invariant. A selection exists only on the services tab, and a sub-type only for the credit check. |
| Dashboard.ExactlyOnePanel | pages/dashboard.js:218-345 | Under the invariant, exactly one of service cards, sub-type choice, upload form or status tab is shown. |
| Dashboard.RolleName | pages/dashboard.js:61-68 | Property documents map to "Verkäufer". A credit check maps to "Käufer (angestellt)" or "Käufer (selbstständig)" by sub-type. Anything else maps to the empty name. |
| Dashboard.UploadFormHasRole | pages/dashboard.js:327-340 | Whenever the upload form is shown, it receives a non-empty role name. |
| Dashboard.LoadedShowsOverview | pages/dashboard.js:49-53 | Loaded data always opens the overview. A payload that is not an array leaves an empty list. |
| Dashboard.LoadFailedKeepsData | pages/dashboard.js:54-57 | A failed fetch only stops loading; the rows and the open card stay. |
| Dashboard.TabClearsSelection | pages/dashboard.js:197-214 | Either tab clears the selection. Switching from services to status starts a load. |
| Dashboard.DetailRowsAreGroup | pages/dashboard.js:165-171 | When ids contain no ':', the detail filter keeps exactly the rows of the card's group, in order. |
| Dashboard.OpenCardShowsItsRows | pages/dashboard.js:345-370 | Opening an overview card shows the detail view holding exactly that group's rows. |
| UploadForm.Rejection | components/UploadForm.js:19-31 | A file is accepted exactly when its type is PDF, JPEG or PNG and it is at most 10 MiB. The type error takes precedence over the size error. |
| UploadForm.AcceptedMembers | components/UploadForm.js:22-32 | The accepted files are exactly the acceptable files among those chosen. |
| UploadForm.HandleFiles | components/UploadForm.js:18-38 | The accepted files are appended in order. The error is cleared when one was accepted; otherwise it is the last rejection's message, or stays unchanged. |
| UploadForm.NothingAcceptedHasRejection | components/UploadForm.js:22-37 | When nothing is accepted, the message shown is the last file's rejection. |
| UploadForm.RemoveFile | components/UploadForm.js:137 | Removing file i keeps all other files in order. |
| UploadForm.StartUpload | components/UploadForm.js:49-75 | The upload is blocked exactly when a trimmed name is empty, the role is empty or no file is chosen. A blocked upload only sets the error. The checks run in that order and the first failing one sets its message: names, then role, then files. A sent one clears the messages, sets loading, and sends the trimmed names, the role and every file in order. |
| UploadForm.BlankNamesBlocked | components/UploadForm.js:51-53 | A first name of only whitespace is refused with the name message. |
| UploadForm.EnabledButtonNeverMissesFiles | components/UploadForm.js:143-146 | With the button enabled, the "no files" message never appears. |
| UploadForm.JoinSplit | components/UploadForm.js:95-96 | Per-file error lines without line breaks can be read back from the joined message. |
| UploadForm.FinishUpload | components/UploadForm.js:77-107 | Loading always ends. A network error shows its message, and an unreadable reply shows the invalid-reply text. A failed reply shows its error or the default. Success clears the files and names, shows the message, and lists per-file errors when there are any. |
| UploadForm.FailureKeepsSelection | components/UploadForm.js:90-106 | A failed upload keeps files and names, shows an error and leaves the button enabled. |
| UploadForm.CleanSuccess | components/UploadForm.js:94-101 | A success without per-file errors shows the message and no error, and disables the button. |
| Http.DecimalRoundTrip | pages/api/upload.js:152 | The printed file count reads back as the count. |
| DownloadUrl.SplitBucketPathIff | pages/api/get-download-url.js:29-34 | The split succeeds exactly on `bucket/path`: a non-empty bucket without '/', then a single-line, non-empty path. It returns those two parts. |
| DownloadUrl.Target | pages/api/get-download-url.js:17-34 | A parsed target is the normalized text split into a valid bucket and path. |
| DownloadUrl.Handle | pages/api/get-download-url.js:10-48 | A missing or empty `raw` and an unparsable target answer 400, without signing. Otherwise exactly one signing call for the parsed bucket and path is made, valid for 120 seconds. The answer is 200 exactly when signing succeeds, carrying the signed URL, or null when that is empty. A signing error gives 500 with its message. A thrown call gives 500 with its message, or "internal error" when the message is empty. |
| DownloadUrl.RelativePath | pages/api/get-download-url.js:18-34 | A relative `bucket/path`, with or without leading slashes, is signed as that bucket and path. |
| DownloadUrl.DocumentedPaths | pages/api/get-download-url.js:7 | "upload/dir/file.pdf" and "/upload/dir/file.pdf" both name bucket "upload" and path "dir/file.pdf". |
| DownloadUrl.ProjectUrlRoundTrip | pages/api/get-download-url.js:17-34 | Take a full public or signed storage URL of the configured project, for a bucket other than "sign". Its bucket and path come back unchanged. |
| DownloadUrl.SignBucketMisread | pages/api/get-download-url.js:24-26 | A public URL of object `b/p` in a bucket named "sign" resolves to bucket `b` and path `p`: "public/" and then "sign/" are both removed. |
| DownloadUrl.StripMatchingHost | pages/api/get-download-url.js:21 | An `https://` origin whose host the project pattern matches is removed together with one following slash. |
| DownloadUrl.DotMatchesAnyCharacter | pages/api/get-download-url.js:21 | The project host is inserted into the pattern unescaped. A host that differs from it only where it has a dot is therefore stripped like the project's own. |
| DownloadUrl.UploadBucketPath | pages/api/get-download-url.js:18-34 | Any single-line path in the `upload` bucket, written `upload/<path>`, is signed as that bucket and path. |
| FinalizeApi.RowFor | pages/api/finalize.js:12-20 | A file entry gives a pending row with the body's customer, role and batch, the entry's path and original name, and its public URL or null. A `null` entry gives no row. |
| FinalizeApi.RowsShape | pages/api/finalize.js:12-20 | The rows exist exactly when no entry is null. There is then one per entry, in order. |
| FinalizeApi.Handle | pages/api/finalize.js:5-25 | A non-POST gets 405. An incomplete body gets 400. A 200 reports the number of files after a single insert. At most one insert is made. |
| FinalizeApi.CompletePost | pages/api/finalize.js:7-25 | For a complete body, a null entry gives 500 with no insert. Otherwise one insert holds one pending row per entry, tagged with the body's customer, role and batch and carrying the entry's path and original name. The answer is 200 exactly when that insert succeeds; a refused insert gives 500 with the insert-failure message. |
| FinalizeApi.NonObjectBody | pages/api/finalize.js:7-10 | A missing or non-object body is refused as incomplete. |
| UploadApi.Ext | pages/api/upload.js:99 | The extension is the text after the last dot (or the whole name) and contains no dot. |
| UploadApi.ExtOfDotted | pages/api/upload.js:99 | For `stem.e` with a dot-free `e`, the extension is `e`. |
| UploadApi.KeysDistinct | pages/api/upload.js:100 | Two files of one customer with different dot-free UUIDs get different storage keys. |
| UploadApi.KeyShape | pages/api/upload.js:100 | A storage key lies in the customer's folder and ends in the original extension. |
| UploadApi.KeyDownloadable | pages/api/upload.js:100-104 | A stored file's `upload/<key>` path is resolved by the download route to bucket "upload" and that key. |
| UploadApi.ProcessFile | pages/api/upload.js:96-135 | A stored file yields a pending queue row: customer, role, the public URL of its key, and its original name. |
| UploadApi.CollectFailsIff | pages/api/upload.js:138 | The batch fails exactly when some file fails. |
| UploadApi.CollectRows | pages/api/upload.js:138 | A batch without failure yields one row per file, each that file's own row, in order. |
| UploadApi.CollectFirstFailure | pages/api/upload.js:119-138 | A failed batch reports the message of the first failed file in list order. |
| UploadApi.FailureOfSomeFile | pages/api/upload.js:117-138 | A failed batch reports the message of one of its failed files, whatever the order in which the files finish. |
| UploadApi.QueuedRows | pages/api/upload.js:96-138 | A batch without failure yields one pending row per file, in order, pointing at that file's public URL. |
| UploadApi.ProcessAll | pages/api/upload.js:96-138 | Every file is read and uploaded, since a failure does not cancel the others. The rows and the failure are those of the batch. |
| UploadApi.StoreAndQueue | pages/api/upload.js:96-153 | Every file gets its storage call. The queue insert happens exactly when no file failed, and then holds the batch's rows, one per file. Otherwise the 500 answer carries the message of a failed file, the first in list order. The answer is 200 with the file count exactly when the insert succeeds, else 500. |
| UploadApi.FileFailureFailsRequest | pages/api/upload.js:117-153 | After validation, once the customer exists, one file that cannot be read or stored makes the answer 500, and the queue receives nothing. |
| UploadApi.Proceed | pages/api/upload.js:63-153 | The role is always looked up. The answer is 400 exactly when no such role exists, and then nothing else happens. A customer named "vorname nachname" with the role's id is inserted exactly when the lookup found the role. Uploads and the queue insert happen only once that insert succeeded, and the queued rows are the batch's rows for the new customer. A 200 reports the file count. `UploadApi.AfterValidation` states every branch: a failed lookup gives 500 with the lookup message, a failed customer insert 500 with its message and no upload. Once the customer exists, every file gets its storage call, the queue insert happens exactly when no file failed, a failed file's message is the 500 answer, and the answer is 200 exactly when the insert succeeds. |
| UploadApi.Handle | pages/api/upload.js:20-165 | OPTIONS gives 200, any other non-POST 405, and a parse error 500. Missing fields or no files give 400. None of these calls the backend. The role is looked up exactly when a valid POST with files arrives. No upload or queue insert happens without a customer. A 200 reports the file count after a queue insert of one row per file. A valid POST with files then satisfies `UploadApi.AfterValidation` for its own fields and files. Once the customer exists, a failed file gives 500 and no queue insert. |

## Left out

- `UploadForm` drag-and-drop state, hover state, and all styling, icons and layout in every component are left out. They decide no data.
- `handleDrop` (components/UploadForm.js:40-47) only forwards the dropped files to `handleFiles`, which is modelled.
- The expanded-row details text (case type, status, `deep_summary` counts, `case_details` pretty-printing) is presentation. Only the decision whether it is shown is modelled.
- `toLocaleString('de-DE')` currency formatting and the progress bar width are left out.
- Numbers are exact reals, not IEEE doubles. `Math.round` is floor(x + 0.5), and `Number(string)` is the parameter `parse`.
- `Base.LowerChar` lower-cases ASCII letters and Ä, Ö, Ü only. Other Unicode case mappings of `toLowerCase` are not modelled. For example, U+212A KELVIN SIGN lower-cases to 'k' in JavaScript, so a document name "SELBSTAUS\u212AUNFT" is a self-disclosure row in the source but not in the model.
- `DownloadUrl.StripProject`: the project host is treated as a pattern in which only '.' is special. Hosts with other regular-expression metacharacters are not modelled, since configured hosts have none.
- `DownloadUrl.Handle`: an exception thrown by the signing call is the `SignThrew` answer of the parameter `sign`. Exceptions from anywhere else in the route are not modelled.
- `UploadApi.Handle`: the outer `catch` answers only while no headers have been sent (pages/api/upload.js:159). In the model no exception follows a sent answer, so that case is left out.
- `UploadApi.ProcessAll`: `Promise.all` rejects with the failure that comes first in time. The model reports the first failure in list order because timing is not modelled. `UploadApi.FailureOfSomeFile` states the part that holds whatever the timing.
- `DownloadUrl.ProjectUrlRoundTrip`: holds only for buckets other than "sign". The route removes "public/" and then "sign/", so a bucket named "sign" loses its name, as `DownloadUrl.SignBucketMisread` shows.
- UUIDs are the parameter `uuid`, drawn per file index. The model does not assume they are distinct; `UploadApi.KeysDistinct` states what distinct ones give.
- Deleting the temporary file (pages/api/upload.js:110-115), CORS headers, the `Allow` header and all logging are left out. They do not affect the answer.
- Multipart fields are modelled as lists of values, as the parser delivers them. A single non-list value is not modelled.
- Exceptions thrown by the database client itself are left out; database errors arrive as an error result.
- `FinalizeApi.Handle`: a `null` entry in `files` throws before the insert. The framework's answer to that is modelled as a bare 500.
- `Overview.SameGroupIff` and `Dashboard.DetailRowsAreGroup` hold only for customer ids without ':'. The key joins id and role with `::`, so other ids can collide, as `Overview.KeyCollision` shows.
- Group timestamps are the first row's, as the code does; no maximum over rows is taken.
- The dashboard's fetch is modelled by the events `Loaded` and `LoadFailed`. Overlapping fetches and their ordering are not modelled.
- The login page, the init-upload route and the status route are not part of this model.
