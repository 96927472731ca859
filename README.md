# Upload-and-chat widget, session store: a Dafny model

The system is a small web tool. You upload a text file, then ask questions about it in a chat panel. This project models its two stateful parts and proves properties of the model.

- **The client chat widget** (`static/script.js`), in `chat.dfy`. The DOM is abstracted into the class `Chat.Page`:
  - the children of the chat panel become a sequence of entries: the empty-chat placeholder, a message bubble with its sender and text, or a loading bubble with its element id;
  - the Ask button's `disabled` flag, the visibility of the chat and the file details, and the four file-detail labels become fields;
  - every `alert()` is recorded in `alerts`, and every `fetch` the page issues is recorded in `requests`.

  The handlers `uploadFile`, `submitQuery` and `clearHistory` are methods. So are the helpers `addMessageToChat`, `addLoadingMessage`, `removeLoadingMessage` and `clearChatUI`. `submitQuery` is split at its `await`:
  - `BeginQuery` is everything up to the request;
  - `SettleQuery` is the handling of the reply;
  - `SubmitQuery` is the two in sequence.

  These inputs are parameters: how each awaited fetch settles (2xx with its body, non-2xx with the server's `detail`, or an exception), the answer to `confirm()`, the loading id and the upload time. `String.prototype.trim` is modelled in `js_text.dfy` with the ECMAScript whitespace and line-terminator set.
- **The server session store** (`main.py`), in `session_store.dfy`. `session_data` is the field `sessions` of the class `SessionStore.Store`. It maps a session id to a Python dict from file id to file record. A dict is a sequence of key-value pairs in insertion order (`ordered_dict.dfy`):
  - assigning to a new key appends it;
  - assigning to an existing key replaces the value in place, so the key keeps its position.

  The handlers `upload_file`, `process_query`, `clear_history` and `cleanup_all_sessions` are methods. The filesystem work is stripped away:
  - `upload_file` and `clear_history` take a failure of their disk work as a parameter;
  - `cleanup_all_sessions` takes what the listing of the uploads directory came to: no directory, the outcome for each entry, or a failed listing.

  `py_text.dfy` holds the Python string operations the handlers depend on: `str()` of a non-negative int, `str.encode("utf-8")`, `len(s.splitlines())`, slicing and `posixpath.join`.

Where the two sides meet, the model follows the code of this revision:
- **No upload gate.** The client never disables or gates the upload control: `uploadFile` sends every selected file, and a second upload simply becomes the latest file of the session.
- **History clear leaves the file input.** A successful history clear resets the panel, the labels and both visibility flags. It does not clear the file-selection control.

## Model

| member | source | states |
|---|---|---|
| Chat.Page.constructor | static/script.js:13-29 | A fresh page shows only the placeholder. The chat and details are hidden, every label is '-', Ask is enabled, and the only request sent so far is the best-effort cleanup-all, whose outcome is never shown. |
| Chat.Page.EnterQueryText | static/script.js:82 | The query textarea holds the text the user typed; submitQuery reads it from there. |
| Chat.Page.AddMessageToChat | static/script.js:114-133 | The placeholder is removed if present, and exactly one bubble with the given sender and text is appended at the end. All other entries keep their order. |
| Chat.Page.AddLoadingMessage | static/script.js:135-156 | One loading bubble with the given id is appended at the end, and that id is returned. |
| Chat.Page.RemoveLoadingMessage | static/script.js:158-161 | Exactly the first entry with that id is removed: `RemoveFirst`, which changes nothing when there is no such entry. |
| Chat.Page.ClearChatUI | static/script.js:192-200 | Afterwards the panel is exactly the placeholder. |
| Chat.Page.UploadFile | static/script.js:44-79 | Without a selected file: one "Please select a file" alert, and no request or screen change. Otherwise the upload request is sent. On 2xx, the details show the reply's name, type and size with the given time, both the chat and the details become visible, and the panel is reset. On failure, only the "Upload failed: "/"Error uploading file: " alert, and the screen is unchanged. The panel stays settled and Ask stays enabled. |
| Chat.Page.BeginQuery | static/script.js:81-90 | It starts exactly when the trimmed input is non-empty. If not: one "Please enter a query" alert; the panel, the input and Ask are unchanged and nothing is sent. If so: Ask is disabled, the input is emptied, the trimmed query is posted, and the panel becomes the old messages, then the user bubble, then the loading bubble. |
| Chat.Page.SettleQuery | static/script.js:101-111 | The loading bubble is removed. A 2xx reply appends exactly one assistant bubble with the response. A failed or thrown reply appends none and raises the matching alert. The user bubble stays, and Ask is enabled again whatever the outcome. |
| Chat.Page.SubmitQuery | static/script.js:81-112 | The whole handler. An empty trimmed query changes nothing but the alert. Otherwise the panel becomes the old messages, then the trimmed query, then the answer on 2xx only. The input ends empty, one query request goes out, and Ask ends enabled in every case. |
| Chat.Page.ClearHistory | static/script.js:164-190 | A cancelled confirm changes and sends nothing. Otherwise the clear request goes out. On 2xx, the screen is exactly the reset screen: placeholder only, chat and details hidden, all four labels '-'. The server's message is alerted. On failure, only the "Failed to clear history: "/"Error clearing history: " alert, and nothing is reset. |
| Chat.TwoQueriesInOrder | static/script.js:81-112 | On a fresh page, two queries answered in turn leave the panel as exactly user Q1, assistant R1, user Q2, assistant R2. |
| Chat.FailedQueryKeepsQuestion | static/script.js:102-111 | A rejected query leaves the user's bubble with no answer, Ask enabled, and "Query failed: " + detail as the last alert. |
| Chat.UploadThenClear | static/script.js:164-200 | After an upload the chat is open on the placeholder with the upload's name. A confirmed successful clear then brings back the screen of a fresh page. The requests are cleanup-all, upload, clear, in that order. |
| Chat.QueryTextIsTrimmed | static/script.js:82-83 | The texts a query may hold are exactly the non-empty texts that trimming leaves unchanged. |
| Chat.RemoveFirst | static/script.js:158-161 | Removing a node found by id: with no match, nothing changes; otherwise the sequence loses exactly one element. |
| Chat.RemoveFirstMultiset | static/script.js:158-161 | Removal takes away exactly one occurrence of the element and nothing else. |
| Chat.RemoveFirstAt | static/script.js:116-117 | When the first match sits at index i, exactly the element at i goes, and the rest keep their order on both sides. |
| Chat.Messages | static/script.js:114-133 | The message bubbles of a panel are all bubbles and no more than its entries. |
| Chat.MessagesAppend | static/script.js:131 | Taking the bubbles distributes over appending entries. |
| Chat.MessagesOfBubbles | static/script.js:131 | A panel of bubbles only is its own list of bubbles. |
| Chat.PlaceholderRemoval | static/script.js:116-117 | On a settled panel, removing the placeholder leaves exactly the conversation: nothing for the placeholder alone, the whole panel for a conversation, which holds no placeholder. |
| Chat.ChatLogExtend | static/script.js:88-104 | A conversation stays one when a trimmed user query, or an assistant answer right after a user message, is appended. |
| Chat.QueryAppend | static/script.js:88-90 | Appending a trimmed query to a settled panel removes the placeholder and gives a conversation. |
| Chat.LoadingRemoval | static/script.js:102 | Removing the loading bubble of the query in flight leaves exactly the conversation before it. |
| Chat.AnswerAppend | static/script.js:104 | An answer to the last user message is appended at the end, and the panel stays a conversation. |
| JsText.LeadingSpace | static/script.js:82 | The leading run is all whitespace, and it is followed by a non-whitespace code point or by the end of the text. |
| JsText.TrailingSpace | static/script.js:82 | The trailing run is all whitespace, and it is preceded by a non-whitespace code point or by the start of the text. |
| JsText.Trim | static/script.js:82 | The trimmed text is no longer than the input, and it neither starts nor ends with whitespace unless it is empty. |
| JsText.TrimIsSlice | static/script.js:82 | The trimmed text is a slice of the input with only whitespace outside it. |
| JsText.TrimEmptyIff | static/script.js:82-83 | A query is refused exactly when it holds nothing but whitespace, both directions. |
| JsText.TrimIdempotent | static/script.js:82 | Trimming twice is trimming once. |
| PyText.DigitChar | main.py:50 | The character for a digit is a decimal digit with that value. |
| PyText.Decimal | main.py:50 | `str(n)` is a non-empty string of decimal digits with no leading zero except for 0 itself. |
| PyText.DecimalRoundTrip | main.py:50 | Reading the digits of `str(n)` back gives n. |
| PyText.DecimalInjective | main.py:50 | Two seconds print the same exactly when they are equal. |
| PyText.Utf8Char | main.py:69 | A code point takes one byte below U+0080, otherwise two to four. The lead byte gives the length, and every later byte is a continuation byte. |
| PyText.Utf8CharRoundTrip | main.py:69 | Decoding the encoding of a code point gives the code point back. |
| PyText.Utf8EncodeAppend | main.py:69 | Encoding distributes over concatenation. |
| PyText.Utf8EncodeLength | main.py:69 | The stored size lies between the number of code points and four times it, and equals it for ASCII text. |
| PyText.LineCountCons | main.py:106 | A line without boundaries, followed by "\n", adds exactly one to `len(splitlines())`. |
| PyText.JoinPath | main.py:47-51 | `posixpath.join(a, b)`: an absolute b is the result. Otherwise the result starts with a and ends with b, with exactly one "/" added between them unless a is empty or already ends in "/". |
| PyText.Prefix | main.py:114 | `s[:n]` is a prefix of s, of length n or all of s when s is shorter. |
| OrderedDict.Keys | main.py:94 | `list(d.keys())` lists the keys in order, one per entry. |
| OrderedDict.GetFound | main.py:95 | A lookup succeeds exactly when the key is one of the keys. |
| OrderedDict.GetAt | main.py:94-95 | Looking up the key at a position gives the value at that position. |
| OrderedDict.PutGet | main.py:65 | After `d[k] = v`, `d[k]` is v. |
| OrderedDict.PutGetOther | main.py:65 | After `d[k] = v`, every other key keeps its value. |
| OrderedDict.PutKeys | main.py:65 | `d[k] = v` leaves the key order as it was for an existing key and appends a new key at the end. |
| OrderedDict.PutDistinct | main.py:65 | `d[k] = v` never makes a key appear twice. |
| OrderedDict.LastKeyAfterPut | main.py:94 | After `d[k] = v`, the last inserted pair is (k, v) when k was new. When k was already present, the last key is unchanged. |
| OrderedDict.PutNewKeyAppends | main.py:65 | Assigning a new key is appending the pair. |
| SessionStore.FileIdShape | main.py:50 | A file id is "file_", then the decimal seconds, then "_", then the filename. |
| SessionStore.FileIdCollision | main.py:50 | Two uploads get the same file id exactly when they have the same filename in the same second. |
| SessionStore.UploadPathShape | main.py:47-51 | For a session id that is not an absolute path, the stored file path is "uploads/<session id>/<file id>", with no doubled "/". |
| SessionStore.Demo | main.py:98-117 | The demo answer carries the query, the file's name and stored size, the number of lines `splitlines` gives for the content, and an excerpt. The excerpt is the prefix of the content of exactly 500 code points, or the whole content when it is shorter. |
| SessionStore.RemovedCount | main.py:153-168 | The deleted count never exceeds the number of directory entries. |
| SessionStore.Store.constructor | main.py:29 | The server starts with no sessions. |
| SessionStore.Store.UploadFile | main.py:43-82 | On a disk failure: 500 with "Error uploading file: ", and the store unchanged. Otherwise the session's dict is created if absent and the record is assigned under "file_<second>_<filename>". Every other session is unchanged and no file id appears twice. The record is retrievable, its size is the UTF-8 length of its content, and the 200 reply repeats the id, name, type and size. |
| SessionStore.Store.ProcessQuery | main.py:84-124 | The reply is 400 "No file uploaded..." exactly when the session is absent or empty. Otherwise it is 200 with the demo answer about the record whose key was inserted last, and the query and that record's filename. The store is not modified. |
| SessionStore.Store.ClearHistory | main.py:126-143 | On a disk failure: 500 and the store unchanged. Otherwise: exactly that session is removed, all others are unchanged, and the same 200 message is returned whether or not it existed. |
| SessionStore.Store.CleanupAllSessions | main.py:145-178 | When listing the uploads directory fails: 500, and nothing is cleared. Otherwise the store ends empty whatever it held. The reply counts exactly the entries that were removed as directories or files. |
| SessionStore.QueryWithoutUpload | main.py:90-91 | A query before any upload is refused with 400. So is a query after an upload followed by cleanup-all. |
| SessionStore.UploadThenQuery | main.py:62-122 | A query right after an upload answers about that file. The size it reports is the one the upload reply gave. |
| SessionStore.ReuploadInSameSecond | main.py:50-95 | Uploading a, then b, then a again within one second: a's record is overwritten where it stands, so the query analyses b. |

## Left out

- Network, JSON and framework plumbing: `fetch`, `FormData`, FastAPI routing, CORS, the static mount, `read_root` and `/health`. Each reply is a parameter.
- pydantic request validation (422 replies) is left out. It is framework behaviour.
- Rendering details are left out: the `innerHTML` templates, scrolling, the textarea auto-resize, the Ctrl+Enter binding, the `loading` CSS class and the 3-second success banner. Entries carry their text verbatim.
- `escapeHtml` is left out. It relies on the browser's HTML serialisation, which is foreign code.
- `formatBytes` is left out because it computes in floating point. The size label records the byte count it formats (`FormattedBytes`).
- `getSessionId`, the `Date.now()` loading ids and the upload time are parameters. Their time and randomness cannot be stated, and the ids are not claimed unique.
- `templates/index.html` is not part of this model. The fresh page is taken to show the placeholder, with the chat and details hidden, every label '-' and Ask enabled, which is the state a successful clear restores.
- `getElementById` searches the whole document. The model searches only the chat panel, where the loading bubbles live.
- The interleaving of async handlers (for example a clear while a query is awaited) is left out. Each handler is one atomic step, or two for `submitQuery`.
- Console logging on the client, and `print` on the server, are left out.
- Filesystem work on the server is left out: `os.makedirs`, writing and reading back the file, `shutil.rmtree`, `os.listdir` and `os.remove`. Their failure, or the outcome for each directory entry, is a parameter.
- `content` is the text as read back from disk. Decoding with `errors="ignore"` and translating universal newlines happen before the model begins.
- The `timestamp` field (`time.time()`) of the record is left out, since the store never reads it. The whole seconds used in the file id are a parameter.
- `file.content_type` may be `None` in FastAPI. The model takes it as a string.
- SessionStore.Demo: states the values the demo text interpolates (query, filename, size, line count, 500-code-point excerpt), not the fixed wording of the f-string around them. The line count is tied to `LineCount`, whose only lemma is `LineCountCons`; the full `splitlines` algorithm is not characterised further.
- SessionStore.Store.ProcessQuery: the exception path, a 500 "Error processing query: " reply, is not modelled. Nothing in the modelled lookup can raise.
- OrderedDict: a dict is a sequence of pairs, so lookups are linear. Only order and contents are modelled, not hashing.
- JsText: a JavaScript string is a sequence of UTF-16 code units and may hold lone surrogates, while a Dafny `string` holds Unicode scalar values. The model does not capture lone surrogates. `trim` treats them the same either way, because every whitespace and line-terminator code point is in the Basic Multilingual Plane.
