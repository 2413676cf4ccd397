# Calmind: a Dafny model of the request path

Calmind is a small Flask backend. A user posts free text. The service labels
its sentiment as `positive`, `negative` or `neutral`, asks Gemini for a calming
reply, appends the interaction to `data/mood_logs.csv` and to the MongoDB
collection `mood_logs`, and answers `{response, emotion, raw_text}`.

This project models the decision rules inside that glue. The foreign
libraries are replaced by inputs:

- TextBlob's polarity is a function `polarityOf: string -> real`.
- Gemini is an oracle from the request that would be sent to `Option<string>`. `None` stands for a call that raised.
- Whether the Gemini client constructor, `connect`, or the server during a `save()` fails is a boolean input.
- Clock readings are opaque strings passed in by the caller.

Modules, one per source file (app.py is split along its own sections):

- `EmotionAnalysis` (emotion_analysis.py): the threshold classifier.
- `ResponseGenerator` (response_generator.py): the rule-based reply table.
- `DbModel` (db_model.py): the connection target, the `MoodLog` schema and its default timestamp, and the collection as a class.
- `CsvLog` (app.py, `log_to_csv`): the CSV file as lines, the pure append rule, and a class whose method updates the file in place.
- `CalmindResponse` (app.py, client start-up and `generate_calmind_response`): the fallbacks, the prompt and the request sent to Gemini.
- `App` (app.py, `calmind_chat`): the reply as a pure function, plus a `Server` class whose method runs the request against both sinks.
- `Wrappers`: the `Option` type.

On these points the model follows what the code does:

- The request's `text` member is tested for Python truthiness. A missing key, `null`, `false`, `0`, `""`, `[]` and `{}` all get the 400 reply.
- A truthy value that is not a string is passed on to TextBlob, which raises. The framework then answers with an error page, and nothing is logged.
- `log_to_csv` is not wrapped in a `try` in `calmind_chat`. A file-system error there would therefore escape the handler; it is not caught as a persistence failure.
- `StringField(required=True)` is modelled as "the value was supplied". The handler's documents are additionally proved to have non-empty text and a well-formed label.

## Model

| member | source | states |
|---|---|---|
| `EmotionAnalysis.Emotion.Name` | emotion_analysis.py:19-24 | each label is written as exactly one of the strings `positive`, `negative`, `neutral` |
| `EmotionAnalysis.ClassifyPolarity` | emotion_analysis.py:16-24 | `positive` exactly when polarity > 0.2, `negative` exactly when polarity < -0.2, `neutral` exactly on the closed interval [-0.2, 0.2], both ends included |
| `EmotionAnalysis.AnalyzeEmotion` | emotion_analysis.py:5-24 | empty text is `neutral` whatever the scorer says; any other text gets the label of its polarity under the same three thresholds |
| `EmotionAnalysis.ClassifyMonotone` | emotion_analysis.py:19-24 | a higher polarity never gets a lower label (negative < neutral < positive) |
| `EmotionAnalysis.NameInjective` | emotion_analysis.py:19-24 | two labels have the same string exactly when they are the same label |
| `EmotionAnalysis.EmptyTextIgnoresScorer` | emotion_analysis.py:10-14 | for empty text, any two scorers give the same result, `neutral`, so the score is never used |
| `ResponseGenerator.SimpleResponse` | response_generator.py:5-12 | `positive` and `negative` get their own fixed replies; every other string, `neutral` and unknown ones included, gets the listening reply |
| `ResponseGenerator.RepliesDistinct` | response_generator.py:7-12 | the three fixed replies are pairwise different |
| `ResponseGenerator.SameReplyIffSameBranch` | response_generator.py:7-12 | two labels get the same reply exactly when they are equal or both fall into the catch-all branch |
| `ResponseGenerator.ReplyForLabel` | response_generator.py:7-12 | each classifier label is mapped to the reply of its own branch |
| `DbModel.ConfiguredUri` | db_model.py:11 | an unset `MONGODB_URI` means `calmind_db`; a set one is used as is, even when empty |
| `DbModel.SelectTarget` | db_model.py:14-19 | the value is connected as a host exactly when it starts with `mongodb://` or `mongodb+srv://`; otherwise it is connected as a database name; the value itself is passed unchanged |
| `DbModel.LoadDbModule` | db_model.py:11-22 | loading always completes with the selected target; a failing `connect` leaves the module without a connection instead of aborting |
| `DbModel.UnsetUriUsesDefaultDatabase` | db_model.py:11-19 | with the variable unset, the target is the database `calmind_db` |
| `DbModel.DefineMoodLog` | db_model.py:24-34 | the schema uses collection `mood_logs`; its timestamp default is the time at which the class body ran |
| `DbModel.NewMoodLog` | db_model.py:28-30 | as written: text and emotion are kept as given; an omitted timestamp takes the schema's default |
| `DbModel.DefaultTimestampShared` | db_model.py:30 | as written: all documents created without a timestamp carry the same value |
| `DbModel.DefaultTimestampIsStale` | db_model.py:30 | as written: a document created a day after the class was defined carries the definition time, which differs from the stamp the corrected constructor gives at its creation time |
| `DbModel.NewMoodLogAt` | db_model.py:30 | corrected: an omitted timestamp is the time at which the document is created |
| `DbModel.InsertTimesDistinguishDocuments` | db_model.py:30 | corrected: documents created at different times carry different timestamps |
| `DbModel.MoodLogCollection.constructor` | db_model.py:32-34 | the collection is `mood_logs`, reached through the connection the module set up |
| `DbModel.MoodLogCollection.Save` | app.py:109-113 | the document is appended exactly when there is a connection, the server answers and both required fields are present; otherwise nothing changes |
| `CsvLog.Cells` | app.py:45-46 | the header is `Text,Emotion,Timestamp`, and a record's cells are its text, emotion and timestamp in those columns |
| `CsvLog.Append` | app.py:41-54 | a missing file becomes the header followed by the record; an existing file keeps its lines and gains the record at the end |
| `CsvLog.AppendHeaderOnce` | app.py:41-54 | one call keeps every earlier line, ends the file with the new record, and adds a header exactly when the file did not exist |
| `CsvLog.AppendAllLines` | app.py:49-54 | any non-empty run of calls appends the records in call order, after a single header when the file started missing |
| `CsvLog.FreshLogHasOneHeader` | app.py:41-54 | starting without a file, the log is the header followed by one record per call, with exactly one header line |
| `CsvLog.MoodLogFile.constructor` | app.py:39-42 | the sink stands for `data/mood_logs.csv` and starts from whatever file state is on disk |
| `CsvLog.MoodLogFile.LogToCsv` | app.py:34-54 | the directory and the file exist afterwards, and the file is the old one after one append of `(text, emotion, timestamp)` |
| `CalmindResponse.InitClient` | app.py:23-30 | a client exists exactly when the API key is set, not empty, and the client constructor does not raise |
| `CalmindResponse.SystemPrompt` | app.py:64-68 | the prompt starts with the fixed persona text and is exactly as long as that text, the label and the closing sentence together |
| `CalmindResponse.PromptRoundTrip` | app.py:64-68 | the label can be read back out of its prompt, so different labels never give the same prompt |
| `CalmindResponse.PromptEmbedsEmotion` | app.py:64-68 | the system prompt contains the detected label |
| `CalmindResponse.GenerateCalmindResponse` | app.py:58-81 | with no client, the unavailability reply is returned and no call is made; otherwise exactly one call is made with model `gemini-2.5-flash`, temperature 0.7, the user text as contents and a prompt carrying the label; the reply is that call's text, or the fixed error reply when the call raised |
| `CalmindResponse.FallbacksDistinct` | app.py:60-81 | the two fallback replies are different |
| `App.ServedText` | app.py:94-98 | the handler goes on exactly when `text` is a non-empty string |
| `App.ChatResponse` | app.py:92-121 | a falsy `text` gets status 400 with the fixed message; a truthy non-string is a server error; a non-empty string gets status 200 with exactly the keys `response`, `emotion`, `raw_text`, where `raw_text` is the input verbatim, `emotion` is its label and `response` is the generated reply for that label |
| `App.MissingOrEmptyTextRejected` | app.py:95-98 | a body without `text` and one with empty `text` both get 400 and `Please provide some text input.` |
| `App.ServedEmotionIsLabel` | app.py:101 | a served reply's `emotion` is one of the three labels |
| `App.NoClientStillServes` | app.py:101-121 | without an AI client a valid request still gets 200 with the correct label and the unavailability reply |
| `App.PositiveTextExample` | app.py:101-121 | a text scored above 0.2 is answered with `positive` and echoed verbatim |
| `App.SavedDocumentWellFormed` | app.py:109-111 | the saved document has the non-empty request text, a well-formed label and the request's time, so it always passes validation |
| `App.Server.constructor` | app.py:16-30 | start-up records whether a client exists, the database connection state, and the sinks as found |
| `App.Server.CalmindChat` | app.py:92-121 | the reply is `ChatResponse`; a refused or failed request touches neither sink; a served request appends one CSV record, and appends one document only when the database answers |
| `App.MongoFailureInvisible` | app.py:107-121 | two servers that differ only in whether the database works give the same reply and the same CSV file; the failing one stores nothing |

## Findings

| source | as written | input that shows it | evidently intended | confidence | as-written member | corrected member |
|---|---|---|---|---|---|---|
| db_model.py:30 | the `timestamp` default is computed once, when the class body runs | class defined at `2025-01-01 09:00:00`; a document created at `2025-01-02 10:30:00` is stored with `2025-01-01 09:00:00` | each document is stamped with the time it is created, as the CSV log does in app.py:45 | medium, not executed | `DbModel.DefaultTimestampIsStale` | `DbModel.NewMoodLogAt` |

The handler (`App.Server.CalmindChat`) saves documents built with the corrected
`DbModel.NewMoodLogAt`. It uses the same request time `now` as the CSV record.

## Left out

- TextBlob's polarity computation: a foreign library with floating-point scoring. The score is an exact `real` input, and the thresholds are the exact reals ±0.2 rather than the nearest binary doubles.
- The Gemini client object and the network call: the client is a flag, and the call is an oracle. A reply whose `text` is `None` is not modelled; the oracle always yields a string on success.
- Flask routing, `GET /` and `render_template`. A body that is not JSON, or JSON that is not an object, is not modelled either; the request is the value of its `text` member.
- pandas' CSV text serialisation and quoting: the file is modelled as a sequence of header and record lines.
- File-system errors in `log_to_csv`: the append always succeeds in the model. In the source such an error would escape `calmind_chat` and surface as a server error.
- The mongoengine driver's internals: a failed `connect` or `save()` is a boolean input. Its field checks beyond the presence of required fields belong to the library.
- The console messages printed for a failed client start, a failed connection and a failed save.
- Loading `.env` files: the environment values are passed to the constructors.
- Clock readings and `strftime` formatting: timestamps are opaque strings. The CSV record and the saved document share one request time `now`, whereas the source reads the clock for the CSV record only.
- `generate_simple_response` is not wired into the handler. The source never calls it either; it is modelled on its own.
- Concurrent requests and unsynchronised CSV appends: the model is single-threaded, one request at a time.
- script.js: the browser front end.
