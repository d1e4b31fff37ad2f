# Spreadsheet analyst: verified model of the request core

The application loads a Google Sheet as a table, and answers questions about it
through a hosted generative-AI chat with code execution. A browser first calls
the init route, which starts a chat seeded with a summary of the table and
registers it under a session id. Later calls to the query route forward
questions to that chat. The reply comes back as an ordered list of parts and is
flattened into a `{text, code, output}` record.

This Dafny project models the decision logic of `app.py`:

- `Reassembly` (reassembly.dfy): the parts of a reply and the loop that folds them into the record. `Reassemble` is a pure left fold; `ReassembleParts` is the loop itself, proved equal to it. Lemmas characterise each field independently of the fold: text is the in-order concatenation, code comes from the last part carrying code, output is the last non-empty output.
- `DataSummary` (data_summary.dfy): the table, given by its columns (name and pandas dtype) and its rows. It also holds the shape of the data summary (`get_data_summary` before JSON rendering) and of the data-info payload.
- `ExportUrl` (export_url.dfy): Python's `str.replace` and the derivation of the CSV export address from the share link.
- `Sessions` (sessions.dfy): the chat service as an oracle object that records every message it is sent, and the application object holding the `chat_sessions` registry. It also holds the init and query routes as methods.
- `Wrappers` (wrappers.dfy): `Option`, for request fields and part fields that may be absent.

The remote chat service is abstract. `ChatService.respond` is a function that decides the reply to each message from everything sent before it. A reply is either the list of parts or the text of the exception raised. The table is a constructor argument of `App`, held in a `const` field because the source never changes it after loading.

Two details of the code are easy to misread, and the model follows the code in both:
- The code field is not simply the last non-empty code. The loop assigns `executable_code.code` whenever the `executable_code` message is truthy. A protobuf message is truthy when any of its fields is set, so a block with a language tag and empty code still overwrites. `Reassembly.CarriesCode` models this.
- The init route returns no structured error when the service rejects the system context. It does not catch that exception, so the web framework answers with a generic HTTP 500. `InitFailed` carries the exception text, and the registry is left unchanged because the store comes after the send.

## Model

| member | source | states |
|---|---|---|
| `Reassembly.HasText` | app.py:89 | A part's text counts when the field is present and non-empty (Python truthiness). |
| `Reassembly.CarriesCode` | app.py:91 | A part carries code when `executable_code` is present and is not the all-default protobuf message, which is falsy. That is, it has a language tag or non-empty code. |
| `Reassembly.ProducesOutput` | app.py:93-94 | A part's execution result counts when present with a non-empty `output`. |
| `Reassembly.Absorb` | app.py:89-95 | One loop iteration appends the part's text fragment (nothing when it has none). It never turns a non-empty output back into `''`. |
| `Reassembly.Reassemble` | app.py:82-95 | The record after the loop, as a left fold from three empty strings. Its code is `''` or the code of some part carrying code; its output is `''` or the non-empty output of some part. |
| `Reassembly.ReassembleParts` | app.py:82-95 | The loop starts from three empty strings and updates text, code and output part by part. Its result is the left fold `Reassemble` of the parts. |
| `Reassembly.TextIsConcatenation` | app.py:88-90 | The reassembled text is the concatenation of every part's text fragment, in part order. |
| `Reassembly.CodeEmptyWithoutCodeParts` | app.py:82-92 | When no part carries an executable-code block, the code field is `''`; a corollary of the contract of `Reassemble`. |
| `Reassembly.CodeIsLastCarried` | app.py:91-92 | The code field is the code of the last part carrying a code block. Code from earlier parts is discarded, not concatenated. |
| `Reassembly.OutputEmptyWithoutOutputParts` | app.py:82-95 | When no part has an execution result with non-empty output, the output field is `''`; a corollary of the contract of `Reassemble`. |
| `Reassembly.OutputIsLastNonEmpty` | app.py:93-95 | The output field is the last non-empty execution output. A later result with empty output does not overwrite it. |
| `Reassembly.OutputNeverCleared` | app.py:93-95 | Once any part has produced non-empty output, the final output is non-empty. |
| `Reassembly.ThreePartReply` | app.py:82-95 | The parts {text "A"}, {code "x=1", text "B"} and {code "x=2", output "2"} reassemble to text "AB", code "x=2", output "2". |
| `DataSummary.ColumnNames` | app.py:31 | Definition mirroring `df.columns.tolist()`, also used at app.py lines 64 and 107: the column names in column order. |
| `DataSummary.DtypeLabel` | app.py:32 | Definition of the `astype(str)` rendering of one dtype: `int64`, `uint64`, `float64`, `bool` or `object`. |
| `DataSummary.DtypeLabels` | app.py:32 | Definition mirroring `df.dtypes.astype(str).to_dict()`, also used at app.py line 108: one label per column, in column order. |
| `DataSummary.IsNumeric` | app.py:36 | `select_dtypes(include=['number'])` selects the int64, uint64 and float64 columns; bool and object columns are not numbers. |
| `DataSummary.Head` | app.py:33 | `head(n)` is the prefix of the rows of length `min(n, rows)`; used with 10 here and with 5 at app.py line 109. |
| `DataSummary.NumericIndicesFrom` | app.py:36 | The numeric column indices are strictly increasing, each is numeric, and every numeric column's index is among them. |
| `DataSummary.NumericColumns` | app.py:36 | The names of exactly the numeric columns, in column order: the k-th name is that of the k-th int64, uint64 or float64 column. Every numeric column is listed and every listed name belongs to a numeric column. The list is empty exactly when no column is numeric. |
| `DataSummary.Summarize` | app.py:28-38 | The summary has rows = row count, columns = column count, and the column names and dtype labels. Its sample is the first `min(10, rows)` rows. `statistics` is present exactly when some column is numeric, and then describes the numeric columns. |
| `DataSummary.Info` | app.py:102-110 | Data-info has the same row and column counts, names and dtype labels. Its sample is the first `min(5, rows)` rows. |
| `DataSummary.InfoAgreesWithSummary` | app.py:104-109 | Compared with the summary of app.py lines 29-33: Data-info and the summary agree on the shape and column names. The data-info sample is a prefix of the summary sample. |
| `ExportUrl.ReplaceAll` | app.py:13 | Python's `str.replace` with a non-empty pattern: matches are replaced left to right without overlap. Replacing a pattern by itself changes nothing. |
| `ExportUrl.CsvUrl` | app.py:13 | The export address is the share link with every `/edit?usp=sharing` replaced by `/export?format=csv`. |
| `ExportUrl.ReplaceWithoutOccurrence` | app.py:13 | `replace` leaves a string unchanged when the pattern does not occur in it. |
| `ExportUrl.ReplaceTrailingOccurrence` | app.py:13 | `replace` on `base + pattern` gives `base + replacement`. This holds when the pattern occurs nowhere in `base` and its first character appears nowhere else in it. |
| `ExportUrl.CsvUrlOfShareLink` | app.py:13 | A share link `base + "/edit?usp=sharing"` whose base does not contain that suffix becomes `base + "/export?format=csv"`. |
| `ExportUrl.SheetCsvUrl` | app.py:12-13 | The application's own share link becomes the `/export?format=csv` address of the same document. |
| `Sessions.ChatService.StartChat` | app.py:50 | Starting a chat returns a new handle, numbered after every earlier one. It sends nothing. |
| `Sessions.ChatService.SendMessage` | app.py:80 | Used by the query's send here and by the init's send at app.py line 57. Sending appends the message to the service's log. The reply is the oracle's answer given the earlier log. |
| `Sessions.SessionKey` | app.py:48 | The session id of a request (here and at app.py line 69) is its `session_id` field, or `"default"` when the field is absent. |
| `Sessions.IsEmptyQuery` | app.py:70-72 | A query is rejected as empty when the field is absent or the empty string. |
| `Sessions.App.constructor` | app.py:26 | The registry starts empty. |
| `Sessions.App.InitSession` | app.py:46-65 | Init starts one chat and sends it the system context built from the current summary. If the send succeeds, the registry maps the session id (default `"default"`) to that new handle and keeps every other key; an earlier handle under the id is overwritten. The new handle differs from every handle already registered. If the send fails, the outcome is `InitFailed` carrying the text of the exception the send raised (the route does not catch it), and the registry is unchanged. The payload carries rows, columns and column names. |
| `Sessions.App.Query` | app.py:67-100 | An empty or missing query gives "No query provided" without a remote call. Otherwise an unregistered session id gives "Session not initialized" without a remote call. Otherwise exactly one message goes to the registered chat. A reply is answered with the reassembled record; a failure is a server error carrying the exception text. The registry is unchanged in every case. |

## Left out

- Web routing, `jsonify`, template rendering and HTTP status codes: only the result variants are modelled. `home` (app.py:42-44) renders a template and has no logic.
- Loading the sheet with `pd.read_csv` and pandas dtype inference. The table is an input, given by its columns' dtypes and its rows of rendered cells.
- `describe()` statistics values (floating point): the model keeps only whether `statistics` is present and which columns it covers.
- `json.dumps` rendering of the summary and the text of the system-context prompt. The system-context message carries the summary value itself.
- Internals of the chat service (`start_chat`, `send_message`): replies come from an oracle function.
- The environment and the startup check for the API key (app.py:16-19), and the server start (app.py:112-114).
- test_local.py: a connectivity script without logic of its own.
- Concurrent requests: the registry is used without synchronisation, and the model runs one request at a time.
- Non-string JSON values for `session_id` and `query` (null, numbers), and a request without a JSON body (an exception the route does not catch). `session_id` and `query` are modelled as absent or a string.
- `ExportUrl.ReplaceAll` requires a non-empty pattern. Python's `replace` with an empty pattern inserts the replacement between every character, a case the source never uses.
- The protobuf part's other fields (thoughts, inline data, function calls): they do not affect the record.
