/**
 * The request handler of app.py: `POST /api/calmind` validates the `text`
 * member of the JSON body, classifies it, asks for a reply, writes both
 * logs and answers `{response, emotion, raw_text}`.
 *
 * Flask is not part of this model: the request is the value of the body's
 * `text` member and the response a status with a string-to-string body.
 */
module App {

  import opened Wrappers
  import opened EmotionAnalysis
  import opened CalmindResponse
  import CsvLog
  import DbModel

  /** A JSON value, as `request.get_json()` decodes it. */
  datatype Json =
    | JNull
    | JBool(b: bool)
    | JNumber(n: real)
    | JString(s: string)
    | JArray(items: seq<Json>)
    | JObject(members: map<string, Json>)

  /** Python truthiness of a decoded JSON value. */
  predicate Truthy(v: Json)
  {
    match v
    case JNull => false
    case JBool(b) => b
    case JNumber(n) => n != 0.0
    case JString(s) => s != []
    case JArray(items) => items != []
    case JObject(members) => members != map[]
  }

  /** The `text` member of the request body, `None` when it is absent. */
  datatype Request = Request(text: Option<Json>)

  /** `data.get('text', '')`. */
  function TextField(req: Request): Json
  {
    req.text.GetOr(JString(""))
  }

  /** The text the handler goes on to process: a non-empty string. */
  function ServedText(req: Request): (t: Option<string>)
    ensures t.Some? <==> Truthy(TextField(req)) && TextField(req).JString?
    ensures t.Some? ==> t.value != [] && TextField(req) == JString(t.value)
  {
    match TextField(req)
    case JString(s) => if s != [] then Some(s) else None
    case _ => None
  }

  /** A JSON reply with its status, or the framework's error page when the
      handler raises. */
  datatype Response = JsonResponse(status: int, body: map<string, string>) | ServerError

  const MissingTextMessage := "Please provide some text input."

  /** The injected collaborators: whether a Gemini client exists, the Gemini
      oracle, and TextBlob's polarity. */
  datatype Config = Config(clientReady: bool, generate: GenerateRequest -> Option<string>,
                           polarityOf: string -> real)

  /** The label the handler computes for `text`, as a string. */
  function LabelOf(cfg: Config, text: string): string
  {
    AnalyzeEmotion(text, cfg.polarityOf).Name()
  }

  /** What `calmind_chat` answers. A falsy `text` is refused with 400; a
      truthy value that is not a string makes TextBlob raise, so the
      framework answers with an error; a non-empty string is served. */
  function ChatResponse(cfg: Config, req: Request): (resp: Response)
    ensures !Truthy(TextField(req)) ==>
      resp == JsonResponse(400, map["response" := "Please provide some text input."])
    ensures Truthy(TextField(req)) && !TextField(req).JString? ==> resp == ServerError
    ensures ServedText(req).Some? ==>
      var text := ServedText(req).value;
      && resp.JsonResponse?
      && resp.status == 200
      && resp.body.Keys == {"response", "emotion", "raw_text"}
      && resp.body["raw_text"] == text
      && resp.body["emotion"] == AnalyzeEmotion(text, cfg.polarityOf).Name()
      && resp.body["response"] == GenerateCalmindResponse(cfg.clientReady, cfg.generate,
                                                          resp.body["emotion"], text).text
  {
    var value := TextField(req);
    if !Truthy(value) then JsonResponse(400, map["response" := MissingTextMessage])
    else if !value.JString? then ServerError
    else
      var emotion := LabelOf(cfg, value.s);
      var aiReply := GenerateCalmindResponse(cfg.clientReady, cfg.generate, emotion, value.s);
      JsonResponse(200, map["response" := aiReply.text, "emotion" := emotion, "raw_text" := value.s])
  }

  /** A body without `text`, or with an empty one, gets the fixed 400. */
  lemma MissingOrEmptyTextRejected(cfg: Config)
    ensures ChatResponse(cfg, Request(None)) == JsonResponse(400, map["response" := MissingTextMessage])
    ensures ChatResponse(cfg, Request(Some(JString("")))) == ChatResponse(cfg, Request(None))
  {
  }

  /** Every served reply names one of the three labels. */
  lemma ServedEmotionIsLabel(cfg: Config, req: Request)
    requires ServedText(req).Some?
    ensures var e := ChatResponse(cfg, req).body["emotion"];
            e == "positive" || e == "negative" || e == "neutral"
  {
  }

  /** Without a Gemini client every valid request still succeeds, with the
      right label and the fixed unavailability reply. */
  lemma NoClientStillServes(cfg: Config, req: Request)
    requires !cfg.clientReady && ServedText(req).Some?
    ensures var resp := ChatResponse(cfg, req);
            && resp == JsonResponse(200, resp.body)
            && resp.body["response"] == "The AI service is unavailable due to a missing or invalid API key."
            && resp.body["emotion"] == AnalyzeEmotion(ServedText(req).value, cfg.polarityOf).Name()
  {
  }

  /** A clearly positive text is answered with the label `positive` and
      echoed verbatim. */
  lemma PositiveTextExample(cfg: Config)
    requires cfg.polarityOf("I am so happy today!") > 0.2
    ensures var resp := ChatResponse(cfg, Request(Some(JString("I am so happy today!"))));
            && resp.JsonResponse? && resp.status == 200
            && resp.body["emotion"] == "positive"
            && resp.body["raw_text"] == "I am so happy today!"
  {
  }

  /** The document the handler saves has the request's text, which is never
      empty, and a well-formed label, so it always passes validation. */
  lemma SavedDocumentWellFormed(cfg: Config, req: Request, now: string)
    requires ServedText(req).Some?
    ensures var text := ServedText(req).value;
            var doc := DbModel.NewMoodLogAt(Some(text), Some(LabelOf(cfg, text)), None, now);
            && DbModel.IsValid(doc)
            && doc.text == Some(text) && text != []
            && doc.emotion.value in {"positive", "negative", "neutral"}
            && doc.timestamp == now
  {
  }

  /** The running service: its start-up configuration and its two sinks. */
  class Server {
    const cfg: Config
    const csv: CsvLog.MoodLogFile
    const store: DbModel.MoodLogCollection

    /** Process start-up: the Gemini client is created from the API key, the
        database module picks and tries its target, and the CSV file is
        whatever is found on disk. */
    constructor (apiKey: Option<string>, clientConstructs: bool,
                 generate: GenerateRequest -> Option<string>, polarityOf: string -> real,
                 mongoUri: Option<string>, connectSucceeds: bool,
                 diskFile: CsvLog.CsvFile, storedDocs: seq<DbModel.MoodLog>)
      ensures cfg.clientReady == InitClient(apiKey, clientConstructs)
      ensures cfg.generate == generate && cfg.polarityOf == polarityOf
      ensures fresh(csv) && csv.Valid() && csv.File() == diskFile
      ensures fresh(store) && store.name == DbModel.CollectionName && store.docs == storedDocs
      ensures store.connected == DbModel.LoadDbModule(mongoUri, connectSucceeds).connected
    {
      cfg := Config(InitClient(apiKey, clientConstructs), generate, polarityOf);
      csv := new CsvLog.MoodLogFile(diskFile);
      store := new DbModel.MoodLogCollection(DbModel.LoadDbModule(mongoUri, connectSucceeds), storedDocs);
    }

    /** `calmind_chat` for one request: `now` is the time of the request and
        `serverReachable` whether the database answers the save. */
    method CalmindChat(req: Request, now: string, serverReachable: bool) returns (resp: Response)
      requires csv.Valid()
      modifies csv, store
      ensures csv.Valid()
      ensures resp == ChatResponse(cfg, req)
      ensures ServedText(req).None? ==>
        unchanged(csv) && unchanged(store)
      ensures ServedText(req).Some? ==>
        var text := ServedText(req).value;
        var emotion := LabelOf(cfg, text);
        && csv.File() == CsvLog.Append(old(csv.File()), CsvLog.Row(text, emotion, now))
        && store.docs == (if store.connected && serverReachable
                          then old(store.docs) + [DbModel.NewMoodLogAt(Some(text), Some(emotion), None, now)]
                          else old(store.docs))
    {
      var value := TextField(req);
      if !Truthy(value) {
        return JsonResponse(400, map["response" := MissingTextMessage]);
      }
      if !value.JString? {
        // TextBlob refuses a value that is not a string; the exception
        // escapes the handler before anything is logged.
        return ServerError;
      }
      var userText := value.s;
      var emotion := LabelOf(cfg, userText);
      var aiReply := GenerateCalmindResponse(cfg.clientReady, cfg.generate, emotion, userText);
      csv.LogToCsv(userText, emotion, now);
      var doc := DbModel.NewMoodLogAt(Some(userText), Some(emotion), None, now);
      var saved := store.Save(doc, serverReachable);
      // A failed save is reported on the console only; the reply is the same.
      resp := JsonResponse(200, map["response" := aiReply.text, "emotion" := emotion, "raw_text" := userText]);
    }
  }

  /** The reply does not depend on the database: two servers with the same
      configuration, one whose store fails, answer the same requests alike,
      and the CSV record is written either way. */
  method MongoFailureInvisible(a: Server, b: Server, req: Request, now: string)
    returns (ra: Response, rb: Response)
    requires a.cfg == b.cfg
    requires a.csv != b.csv && a.store != b.store
    requires a.csv.Valid() && b.csv.Valid() && a.csv.File() == b.csv.File()
    requires a.store.connected && !b.store.connected
    modifies a.csv, a.store, b.csv, b.store
    ensures ra == rb
    ensures a.csv.Valid() && b.csv.Valid() && a.csv.File() == b.csv.File()
    ensures b.store.docs == old(b.store.docs)
  {
    ra := a.CalmindChat(req, now, true);
    rb := b.CalmindChat(req, now, true);
  }
}
