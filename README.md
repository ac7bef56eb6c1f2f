# Strava ELT pipeline: extraction, validation and S3 hand-off, in Dafny

This project models the three pieces of the weekly Strava-to-Redshift pipeline
whose behaviour does not depend on what a database or an HTTP service does with
SQL text:

- **The validator** (`src/validator.py`). It runs two SQL scripts and takes
  column 0 of the first row of each. It compares the two scalars with one of six
  operator names, and every other name yields `False`. It then builds the
  Slack message, and turns the command line into an exit status.
  The warehouse is a `Connection` class. Its answer to a statement is an
  abstract function of the statement's text, and its session log records each
  execute and commit in order.
- **The incremental extractor** (`src/extract_strava_data.py`). It requests
  activity pages 1, 2, … one at a time (`per_page` 1). It keeps every page whose
  `start_date` is strictly later than the stored watermark, projected onto the
  fixed 24-column list, and stops at the first page that is not later. It then
  writes the export file, uploads it to the `strava-data-pipeline` bucket, and
  only then inserts the new watermark. The API is a function from page
  number to an optional response object, and `strptime` is an abstract
  parser. Disk, S3 and MySQL are an `Environment` class whose log records the
  effects in order.
- **The S3/IAM string builder** (`get_s3_and_iam_details` in
  `src/utilities/redshift_utils.py`). It builds the S3 URI of the day's export
  file and the role ARN, and its configuration reads become a `Config` value.
  A parser of S3 URIs and role ARNs serves as its partner. The `Handoff` module
  proves that the S3 URI the staging load builds names the object the
  extractor uploaded when both ran on the same day and pipeline.conf's
  `aws_boto_credentials.bucket_name` is `strava-data-pipeline`, the bucket the
  extractor hard-codes; on another day it names a different object.

Files: `wrappers.dfy` (Option, Result), `dates.dfy` (strftime `%Y_%m_%d`),
`validator.dfy`, `extractor.dfy`, `redshift_utils.dfy`, `handoff.dfy`.

Timestamps are integers. Their order stands for the order of Python's naive
`datetime` values at one-second resolution. Python exceptions are `Err` values
of a per-module `Error` datatype.

Behaviour of the code worth knowing, which the model keeps:
- A response without one of the extracted columns raises `KeyError`
  (`response_json[col]`); no column is ever filled with a null
  (`Extractor.Project`).
- There is no rate-limit back-off, sleep or retry: a page without
  `start_date` raises, wherever it occurs, so the extraction ends with
  `Err(MissingKey("start_date"))`.
- `start_latlng`, `end_latlng` and `timezone` are exported unchanged, as the
  API returns them.
- The usage text and docstring call the inequality operator `not_equals`; the
  code recognises only `not_equal`, so `not_equals` always yields `False`.

## Model

| member | source | states |
|---|---|---|
| `Validator.Less` | src/validator.py:45-46 | Ordering two scalars raises exactly when either is None; otherwise it is the order of the numbers |
| `Validator.Compare` | src/validator.py:36-51 | Any name outside the six literals gives `False` without raising. Only the four ordering names can raise, and only on a None. "equals"/"not_equal" are value equality/inequality, and "greater" is "less" with the operands swapped |
| `Validator.EqualsAndNotEqualDisagree` | src/validator.py:37-48 | On the same two scalars "equals" and "not_equal" both succeed and always disagree |
| `Validator.OrderingOperators` | src/validator.py:39-46 | On numbers, greater_equals/greater/less_equals/less are >=, >, <=, <; greater(a,b) is less(b,a) and greater_equals is the negation of less |
| `Validator.DocumentedSpellingAlwaysFails` | src/validator.py:47-51 | The spelling `not_equals` from the usage text is not recognised and yields `False` for every pair |
| `Validator.FirstScalar` | src/validator.py:19-20 | A script contributes exactly column 0 of its first row. No row (fetchone gives None) is the error `NoRow`, not a `False` verdict |
| `Validator.FirstScalarIgnoresTheRest` | src/validator.py:19-20 | Further rows and further columns do not change the scalar taken |
| `Validator.Connection.Query` | src/validator.py:18-19 | Executing a statement appends one `Execute` to the session log and gives the warehouse's result set, or raises `ExecuteFailed` when the warehouse rejects it |
| `Validator.Connection.CommitWork` | src/validator.py:21 | A commit appends one `Commit` to the session log |
| `Validator.ScriptStep` | src/validator.py:16-22 | A missing script file raises before anything is executed. Otherwise the session records exactly `Execute` then `Commit` when a scalar was fetched, and only the `Execute` when the statement was rejected (`ExecuteFailed`) or the fetch raised; the scalar is column 0 of the first row of the result set |
| `Validator.FirstScriptCommittedBeforeSecond` | src/validator.py:16-31 | Script 1 is executed and committed before script 2 is executed, and a completed test leaves exactly execute 1, commit, execute 2, commit |
| `Validator.ExecuteTest` | src/validator.py:8-51 | The verdict and the new session log are those of the two script steps followed by the operator dispatch |
| `Validator.Message` | src/validator.py:64-71 | The text starts with "Validation Test Passed!: " for a passing verdict and with "Validation Test FAILED!: " otherwise |
| `Validator.VerdictOfMessage` | src/validator.py:64-71 | Reading the header back from a message recovers the verdict it was built from |
| `Validator.NotificationResult` | src/validator.py:80-87 | The function never returns True; it returns None exactly on HTTP 200, and False on any other status or an exception |
| `Validator.ExitStatus` | src/validator.py:92-123 | The status is -1, 0 or 1. It is 1 exactly for five arguments with severity "halt", and -1 exactly for a count other than 5 that is not the `-h` request |
| `Validator.RunValidator` | src/validator.py:90-123 | Bad argument counts and `-h` touch nothing. With five arguments the test runs; if it raises, the status is 1 and nothing is sent (this includes a statement the warehouse rejects). Otherwise the verdict's message is sent and the status is `ExitStatus(argv)`, whatever the verdict |
| `Dates.FormatYmd` | src/extract_strava_data.py:82 | The `%Y_%m_%d` rendering is the year's digits, '_', two characters, '_', two characters; it contains no '/' |
| `Dates.DecimalValue` | src/extract_strava_data.py:82 | The digits `%Y` prints for a year denote that year |
| `Dates.FormatYmdFields` | src/extract_strava_data.py:82 | The three '_'-separated fields of the rendering denote, in order, the year, the month and the day |
| `Dates.FormatYmdInjective` | src/extract_strava_data.py:82-83 | Two different days never render to the same string, so daily export files do not overwrite each other |
| `Extractor.ColumnsShape` | src/extract_strava_data.py:25-50 | The column list has 24 distinct names, with "start_date" at index 8 |
| `Extractor.Project` | src/extract_strava_data.py:73-75 | The projection succeeds iff every column is present. Then it has one entry per column, entry i being the value of column i. Otherwise it raises `KeyError` for the first absent column |
| `Extractor.ProjectColumns` | src/extract_strava_data.py:73-75 | The appending loop computes exactly the projection, error included |
| `Extractor.ExtractActivities` | src/extract_strava_data.py:63-79 | Terminates when some page is not kept. Requests are (per_page 1, page 1), (1, 2), … in order. On success the rows are the longest run of kept pages from page 1, and the page after them ends the loop. On failure every earlier page was kept and the last page requested raised that error |
| `Extractor.CollectedPrefixUnique` | src/extract_strava_data.py:68-79 | Only one row sequence is the kept prefix followed by a stopping page, so the loop's result is determined by the pages and the watermark |
| `Extractor.NewestFirstCollectsAllNewer` | src/extract_strava_data.py:68-79 | When the API lists activities newest first (ties allowed), a dated page is collected iff its start date is strictly after the watermark |
| `Extractor.PageAtWatermarkStops` | src/extract_strava_data.py:72-79 | A page dated exactly at the watermark is not collected and ends the loop (the comparison is strict) |
| `Extractor.CollectedRowsAreProjections` | src/extract_strava_data.py:73-76 | Every collected row has 24 entries, entry c being page i's value for column c |
| `Extractor.ExportFile` | src/extract_strava_data.py:83 | The export name starts with "strava_data/" and is 28 characters longer than the date |
| `Extractor.ExportFileInjective` | src/extract_strava_data.py:83 | Different date strings give different export names |
| `Extractor.Environment.Write` | src/extract_strava_data.py:84-86 | Writing the export appends one `WriteFile` effect |
| `Extractor.Environment.UploadFile` | src/extract_strava_data.py:90-91 | The upload succeeds iff S3 accepts it, and only a successful upload is logged |
| `Extractor.Environment.RecordWatermark` | src/extract_strava_data.py:95-101 | The watermark insert appends one `InsertWatermark` effect |
| `Extractor.RunExtraction` | src/extract_strava_data.py:52-102 | An unparsable watermark gives `BadWatermark` and a failed extraction reports the error of the first page not kept; both leave no effect. A clean stop leads to `UploadFailed` exactly when S3 refuses the upload and to success otherwise. A failed upload leaves only the write of the collected rows. A success logs the write of the collected rows, the upload of that file under the same key to "strava-data-pipeline", and then the insert of the clock time `now`. Every watermark insert follows an upload |
| `RedshiftUtils.GetS3AndIamDetails` | src/utilities/redshift_utils.py:22-32 | The pair is (S3 URI, role ARN), in that order, starting "s3://" and "arn:aws:iam::" |
| `RedshiftUtils.DefaultDate` | src/utilities/redshift_utils.py:23 | The default date is the `%Y_%m_%d` rendering of the day the module was loaded, and contains no '/' |
| `RedshiftUtils.S3UriNamesExportObject` | src/utilities/redshift_utils.py:30 | The URI names the configured bucket and the key "strava_data/" + date + "_export_file.csv" |
| `RedshiftUtils.RoleArnNamesRole` | src/utilities/redshift_utils.py:31 | The ARN names the configured account and role |
| `RedshiftUtils.S3UriInjective` | src/utilities/redshift_utils.py:30 | For one bucket, different dates give different URIs |
| `Handoff.StagingUriNamesUploadedObject` | src/utilities/redshift_utils.py:23-30 | With bucket "strava-data-pipeline" and the same day, the default URI names exactly the object the extractor uploads (src/extract_strava_data.py lines 83 and 91) |
| `Handoff.OtherDayNamesOtherObject` | src/utilities/redshift_utils.py:23 | If the module was loaded on a different day from the extraction, the default URI names a different object from the one uploaded |

## Left out

- Connection set-up (`connect_redshift`, `connect_mysql`, `connect_s3`, `connect_strava`) and configuration reads: foreign drivers and file parsing. Their values become parameters (`Config`, the webhook is not modelled) and a failed read is not modelled.
- `convert_strava_start_date` and the watermark `strptime`: abstracted as a parser `parse: string -> Option<Instant>` and as the parsed watermark `Option<Instant>`. The MySQL query and its `COALESCE` default `'1900-01-01'` are not modelled. That default does not match `"%Y-%m-%d %H:%M:%S"`, which the model can only express as the `None` watermark (`BadWatermark`).
- The SQL-issuing scripts (`copy_to_redshift_staging.py`, `redshift_staging_to_production.py`, `copy_to_redshift.py`, `build_data_model.py`): their effect is whatever Redshift does with the SQL text, so no upsert is claimed. In particular `COPY staging_table FROM {s3_file_path} iam_role {role_string};` (src/copy_to_redshift_staging.py line 12) puts the URI and the ARN in unquoted, so nothing is claimed about what the load actually reads.
- The Airflow DAG: scheduler configuration.
- The Slack HTTP POST and JSON encoding: only the message, and the return value given the POST's outcome (`Delivery`).
- The CSV encoding of the export (`csv.writer`, `|` delimiter, quoting): the written file is modelled as its rows.
- Printing, and opening and closing files and cursors.
- Validator scalars are None or numbers. Text values, float NaN and comparisons between mixed types are not modelled.
- A statement that produces no result set (psycopg2 then raises at `fetchone`) has no error of its own: the model can only express it as a rejected statement (`ExecuteFailed`), which raises at the execute instead, with the same session log and exit status. The warehouse's answer depends only on the statement text, not on the state earlier scripts leave behind.
- `Validator.ExitStatus`: gives the value passed to `exit()`. The operating system reports `exit(-1)` as 255.
- `Extractor.RunExtraction`: the local file write and the MySQL insert always succeed. Only the S3 upload can fail, and the clock reads are parameters (`today`, `now`).
- HTTP failures of the activities request (bad status, non-JSON body) are not distinguished: a response that is not a non-empty list is `EmptyPage`.
- `Dates.FormatYmd`: years before 1000 are rendered without padding, as glibc's `%Y` does; some CPython releases pad `%Y` to four digits instead. `datetime.today()` never yields such a year.
- The S3 hand-off assumes that pipeline.conf's `aws_boto_credentials.bucket_name` (read at src/utilities/redshift_utils.py line 29) equals the bucket `strava-data-pipeline` that the extractor hard-codes (src/extract_strava_data.py line 91). Nothing in the program enforces this, so `Handoff.StagingUriNamesUploadedObject` and `Handoff.OtherDayNamesOtherObject` state it as a precondition.
