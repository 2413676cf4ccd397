/**
 * db_model.py: the choice of connection target made when the module is
 * loaded, the `MoodLog` document schema, and the `mood_logs` collection
 * that `save()` appends to.
 *
 * The mongoengine driver is not part of this model: whether `connect`
 * raises and whether the server answers a `save()` are boolean inputs.
 */
module DbModel {

  import opened Wrappers

  const DefaultDatabase := "calmind_db"
  const PlainScheme := "mongodb://"
  const SrvScheme := "mongodb+srv://"
  const CollectionName := "mood_logs"

  /** What `connect` is called with: a full connection string passed as
      `host=`, or a bare database name on the local server. */
  datatype Target = Host(uri: string) | Database(name: string)

  /** `os.getenv("MONGODB_URI", 'calmind_db')`: the default applies only
      when the variable is unset, not when it is set to the empty string. */
  function ConfiguredUri(env: Option<string>): (uri: string)
    ensures env.None? ==> uri == DefaultDatabase
    ensures env.Some? ==> uri == env.value
  {
    env.GetOr(DefaultDatabase)
  }

  /** The prefix dispatch: either scheme makes the value a host string,
      anything else is a database name. */
  function SelectTarget(uri: string): (t: Target)
    ensures t.Host? <==> (PlainScheme <= uri || SrvScheme <= uri)
    ensures t.Host? ==> t.uri == uri
    ensures t.Database? ==> t.name == uri
  {
    if PlainScheme <= uri || SrvScheme <= uri then Host(uri) else Database(uri)
  }

  /** The connection state the module leaves behind once loaded. */
  datatype Connection = Connection(target: Target, connected: bool)

  /** Loading db_model.py: the target is chosen, `connect` is attempted, and
      an exception from it is swallowed so that loading always completes,
      leaving no default connection behind. */
  function LoadDbModule(env: Option<string>, connectSucceeds: bool): (c: Connection)
    ensures c.target == SelectTarget(ConfiguredUri(env))
    ensures c.connected <==> connectSucceeds
  {
    Connection(SelectTarget(ConfiguredUri(env)), connectSucceeds)
  }

  /** With `MONGODB_URI` unset the module connects to the local database
      `calmind_db`. */
  lemma UnsetUriUsesDefaultDatabase(connectSucceeds: bool)
    ensures LoadDbModule(None, connectSucceeds).target == Database("calmind_db")
  {
    assert !(PlainScheme <= DefaultDatabase) by {
      assert DefaultDatabase[7] != PlainScheme[7];
    }
    assert !(SrvScheme <= DefaultDatabase) by {
      assert |DefaultDatabase| < |SrvScheme|;
    }
  }

  /** A `MoodLog` document. The two required fields are optional here
      because the constructor accepts them missing; only `save()` checks. */
  datatype MoodLog = MoodLog(text: Option<string>, emotion: Option<string>, timestamp: string)

  /** The `MoodLog` class as it exists once its body has run: the collection
      named in `meta` and the timestamp default, a string computed once, at
      the moment the class is defined. */
  datatype MoodLogSchema = MoodLogSchema(collection: string, defaultTimestamp: string)

  /** Running the class body at time `definitionTime`. */
  function DefineMoodLog(definitionTime: string): (s: MoodLogSchema)
    ensures s.collection == "mood_logs"
    ensures s.defaultTimestamp == definitionTime
  {
    MoodLogSchema(CollectionName, definitionTime)
  }

  /** `MoodLog(text=..., emotion=..., timestamp=...)` as written: an omitted
      timestamp takes the schema's default, fixed at definition time. */
  function NewMoodLog(schema: MoodLogSchema, text: Option<string>, emotion: Option<string>,
                      timestamp: Option<string>): (d: MoodLog)
    ensures d.text == text && d.emotion == emotion
    ensures timestamp.Some? ==> d.timestamp == timestamp.value
    ensures timestamp.None? ==> d.timestamp == schema.defaultTimestamp
  {
    MoodLog(text, emotion, timestamp.GetOr(schema.defaultTimestamp))
  }

  /** As written, every document created without an explicit timestamp,
      whenever that happens, carries the same value. */
  lemma DefaultTimestampShared(schema: MoodLogSchema, t1: string, e1: string, t2: string, e2: string)
    ensures NewMoodLog(schema, Some(t1), Some(e1), None).timestamp
         == NewMoodLog(schema, Some(t2), Some(e2), None).timestamp
  {
  }

  /** A concrete case: the class defined at 09:00 on one day, a document
      created the next day gets the definition time, not the time at which
      it was created. */
  lemma DefaultTimestampIsStale()
    ensures var schema := DefineMoodLog("2025-01-01 09:00:00");
            var doc := NewMoodLog(schema, Some("hello"), Some("neutral"), None);
            && doc.timestamp == "2025-01-01 09:00:00"
            && doc.timestamp != NewMoodLogAt(Some("hello"), Some("neutral"), None, "2025-01-02 10:30:00").timestamp
  {
  }

  /** The evidently intended constructor: an omitted timestamp is the time
      `now` at which the document is created. */
  function NewMoodLogAt(text: Option<string>, emotion: Option<string>, timestamp: Option<string>,
                        now: string): (d: MoodLog)
    ensures d.text == text && d.emotion == emotion
    ensures timestamp.Some? ==> d.timestamp == timestamp.value
    ensures timestamp.None? ==> d.timestamp == now
  {
    MoodLog(text, emotion, timestamp.GetOr(now))
  }

  /** With the corrected default, documents created at different times
      without an explicit timestamp carry different timestamps. */
  lemma InsertTimesDistinguishDocuments(t1: string, e1: string, now1: string,
                                        t2: string, e2: string, now2: string)
    requires now1 != now2
    ensures NewMoodLogAt(Some(t1), Some(e1), None, now1).timestamp
         != NewMoodLogAt(Some(t2), Some(e2), None, now2).timestamp
  {
  }

  /** Both `StringField(required=True)` fields must be supplied for
      `save()` to pass validation; the timestamp always has a value. */
  predicate IsValid(d: MoodLog)
  {
    d.text.Some? && d.emotion.Some?
  }

  /** The `mood_logs` collection, as seen through the module's connection. */
  class MoodLogCollection {
    const name: string
    const connected: bool
    var docs: seq<MoodLog>

    /** The collection as the loaded module leaves it, holding `existing`. */
    constructor (conn: Connection, existing: seq<MoodLog>)
      ensures name == CollectionName
      ensures connected == conn.connected
      ensures docs == existing
    {
      name := CollectionName;
      connected := conn.connected;
      docs := existing;
    }

    /** `MoodLog(...).save()`: the document is appended when a connection
        was established, the server answers and validation passes;
        otherwise the call raises and the collection is left as it was. */
    method Save(doc: MoodLog, serverReachable: bool) returns (saved: bool)
      modifies this`docs
      ensures saved <==> connected && serverReachable && IsValid(doc)
      ensures docs == if saved then old(docs) + [doc] else old(docs)
    {
      if !connected || !serverReachable {
        saved := false;
      } else if !IsValid(doc) {
        saved := false;
      } else {
        docs := docs + [doc];
        saved := true;
      }
    }
  }
}
