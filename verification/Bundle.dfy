/** The bundle payload, its JSON shape, and the reader and writer around the archive. */
module Bundle {
  import opened Wrappers
  import opened Types
  import opened Bytes
  import opened Search
  import opened Archive
  import Envelope

  const NAMESPACE := "urn:xlpod:bundle:v1"
  const SCHEMA_VERSION: int := 1
  const MAX_BUNDLE_BYTES: nat := 64 * 1024 * 1024
  const DEFAULT_ENCODING := "base64+zlib"

  /** The library functions the module calls: JSON text, zlib, Base64 and `int()` of a string. */
  datatype Codec = Codec(
    dumps: Value -> seq<Byte>,
    loads: seq<Byte> -> Option<Value>,
    compress: seq<Byte> -> seq<Byte>,
    decompress: seq<Byte> -> Option<seq<Byte>>,
    toBase64: seq<Byte> -> string,
    fromBase64: string -> Option<seq<Byte>>,
    parseInt: string -> Option<int>)

  /** What is assumed of them: inverse pairs; a compressed stream is never empty, nor is its Base64
      text; and the text of a JSON object cut short is not JSON. */
  ghost predicate Lawful(codec: Codec) {
    && (forall v :: codec.loads(codec.dumps(v)) == Some(v))
    && (forall b :: codec.decompress(codec.compress(b)) == Some(b))
    && (forall b :: codec.fromBase64(codec.toBase64(codec.compress(b))) == Some(codec.compress(b)))
    && (forall b :: codec.toBase64(codec.compress(b)) != "")
    && (forall fields, k :: 0 <= k < |codec.dumps(Obj(fields))| ==> codec.loads(codec.dumps(Obj(fields))[..k]) == None)
  }

  /** `Uncaught` is a Python error that is not one of the bundle's own. */
  datatype BundleError = NotFound | TooLarge | SchemaMismatch | Corrupt | Uncaught

  datatype Payload = Payload(
    schemaVersion: int,
    createdMs: int,
    fingerprint: Value,
    minVersion: Value,
    snapshot: Option<seq<Byte>>,
    encoding: Value,
    sessions: seq<Value>,
    modules: seq<Value>)

  // ---- Python's view of JSON values -----------------------------------------------------------------

  /** `x or default` */
  function Or(v: Value, default: Value): Value {
    if Truthy(v) then v else default
  }

  /** `int(x)`: numbers truncate towards zero, strings parse, everything else raises. */
  function ToInt(codec: Codec, v: Value): Option<int> {
    match v
    case Bool(b) => Some(if b then 1 else 0)
    case Int(n) => Some(n)
    case Float(whole, _) => Some(whole)
    case Str(s) => codec.parseInt(s)
    case _ => None
  }

  // ---- to_dict and from_dict --------------------------------------------------------------------------

  function EncodeSnapshot(codec: Codec, blob: seq<Byte>): Result<string, BundleError> {
    if |blob| > MAX_BUNDLE_BYTES then Err(TooLarge) else Ok(codec.toBase64(codec.compress(blob)))
  }

  function DecodeSnapshot(codec: Codec, text: string): Result<seq<Byte>, BundleError> {
    match codec.fromBase64(text)
    case None => Err(Corrupt)
    case Some(b) => match codec.decompress(b) case None => Err(Corrupt) case Some(blob) => Ok(blob)
  }

  function Metadata(p: Payload): map<string, Value> {
    var m0 := map["created_ms" := Int(p.createdMs), "schema_version" := Int(p.schemaVersion)];
    var m1 := if Truthy(p.minVersion) then m0["launcher_min_version" := p.minVersion] else m0;
    if Truthy(p.fingerprint) then m1["workbook_fingerprint" := p.fingerprint] else m1
  }

  function Fields(p: Payload): map<string, Value> {
    map["schema" := Str(NAMESPACE),
        "metadata" := Obj(Metadata(p)),
        "ai_history" := Obj(map["sessions" := Arr(p.sessions)]),
        "python_modules" := Arr(p.modules)]
  }

  function ToDict(codec: Codec, p: Payload): Result<Value, BundleError> {
    match p.snapshot
    case None => Ok(Obj(Fields(p)))
    case Some(blob) =>
      match EncodeSnapshot(codec, blob)
      case Err(e) => Err(e)
      case Ok(text) =>
        Ok(Obj(Fields(p)["pyodide" := Obj(map["encoding" := Or(p.encoding, Str(DEFAULT_ENCODING)),
                                              "snapshot" := Str(text)])]))
  }

  /** The snapshot part: nothing to decode unless it is a non-empty string. */
  function SnapshotOf(codec: Codec, pyodide: map<string, Value>): Result<Option<seq<Byte>>, BundleError> {
    match Member(pyodide, "snapshot")
    case Str(text) =>
      if text == "" then Ok(None)
      else (match DecodeSnapshot(codec, text) case Err(e) => Err(e) case Ok(blob) => Ok(Some(blob)))
    case _ => Ok(None)
  }

  function ListOf(v: Value): Result<seq<Value>, BundleError> {
    match Or(v, Arr([]))
    case Arr(items) => Ok(items)
    case _ => Err(Corrupt)
  }

  function FromDict(codec: Codec, data: Value): Result<Payload, BundleError> {
    if !data.Obj? then Err(Corrupt)
    else if Member(data.fields, "schema") != Str(NAMESPACE) then Err(SchemaMismatch)
    else
      var metadata := Or(Member(data.fields, "metadata"), Obj(map[]));
      if !metadata.Obj? then Err(Uncaught)
      else
        match ToInt(codec, Or(Member(metadata.fields, "schema_version"), Int(0)))
        case None => Err(Uncaught)
        case Some(version) =>
          if version > SCHEMA_VERSION then Err(SchemaMismatch)
          else FromParts(codec, data.fields, metadata.fields, version)
  }

  function FromParts(codec: Codec, data: map<string, Value>, metadata: map<string, Value>,
                     version: int): Result<Payload, BundleError>
  {
    var pyodide := Or(Member(data, "pyodide"), Obj(map[]));
    if !pyodide.Obj? then Err(Uncaught)
    else
      match SnapshotOf(codec, pyodide.fields)
      case Err(e) => Err(e)
      case Ok(snapshot) =>
        var history := Or(Member(data, "ai_history"), Obj(map[]));
        if !history.Obj? then Err(Uncaught)
        else
          match ListOf(Member(history.fields, "sessions"))
          case Err(e) => Err(e)
          case Ok(sessions) =>
            match ListOf(Member(data, "python_modules"))
            case Err(e) => Err(e)
            case Ok(modules) =>
              match ToInt(codec, Or(Member(metadata, "created_ms"), Int(0)))
              case None => Err(Uncaught)
              case Some(created) =>
                Ok(Payload(version, created, Member(metadata, "workbook_fingerprint"),
                           Member(metadata, "launcher_min_version"), snapshot,
                           Member(pyodide.fields, "encoding"), sessions, modules))
  }

  /** What survives a round trip: optional texts that are empty read back as absent, an encoding
      without a snapshot is forgotten, a snapshot without one gets the default. */
  function Normalise(p: Payload): Payload {
    p.(fingerprint := Or(p.fingerprint, Null),
       minVersion := Or(p.minVersion, Null),
       encoding := if p.snapshot.None? then Null else Or(p.encoding, Str(DEFAULT_ENCODING)))
  }

  lemma NormaliseIdempotent(p: Payload)
    ensures Normalise(Normalise(p)) == Normalise(p)
  {
    assert Truthy(Str(DEFAULT_ENCODING));
  }

  lemma MetadataReads(p: Payload)
    ensures Member(Metadata(p), "created_ms") == Int(p.createdMs)
    ensures Member(Metadata(p), "schema_version") == Int(p.schemaVersion)
    ensures Member(Metadata(p), "launcher_min_version") == Or(p.minVersion, Null)
    ensures Member(Metadata(p), "workbook_fingerprint") == Or(p.fingerprint, Null)
    ensures Metadata(p) != map[]
  {
    assert "created_ms" in Metadata(p);
  }

  lemma FieldsRead(p: Payload)
    ensures Member(Fields(p), "schema") == Str(NAMESPACE)
    ensures Member(Fields(p), "metadata") == Obj(Metadata(p))
    ensures Member(Fields(p), "ai_history") == Obj(map["sessions" := Arr(p.sessions)])
    ensures Member(Fields(p), "python_modules") == Arr(p.modules)
    ensures Member(Fields(p), "pyodide") == Null
  {
  }

  lemma WithoutSnapshot(codec: Codec, p: Payload)
    requires p.snapshot.None?
    ensures FromDict(codec, Obj(Fields(p))) == (if p.schemaVersion <= 1 then Ok(Normalise(p)) else Err(SchemaMismatch))
  {
    FieldsRead(p);
    FromFields(codec, p, Fields(p), None, Null);
  }

  lemma WithSnapshot(codec: Codec, p: Payload, text: string)
    requires Lawful(codec) && p.snapshot.Some? && text == codec.toBase64(codec.compress(p.snapshot.value))
    ensures var pyodide := Obj(map["encoding" := Or(p.encoding, Str(DEFAULT_ENCODING)), "snapshot" := Str(text)]);
      FromDict(codec, Obj(Fields(p)["pyodide" := pyodide]))
        == (if p.schemaVersion <= 1 then Ok(Normalise(p)) else Err(SchemaMismatch))
  {
    var pyodide := map["encoding" := Or(p.encoding, Str(DEFAULT_ENCODING)), "snapshot" := Str(text)];
    SnapshotReads(codec, p);
    FieldsRead(p);
    StillHasFields(p, Obj(pyodide));
    FromFields(codec, p, Fields(p)["pyodide" := Obj(pyodide)], p.snapshot, Or(p.encoding, Str(DEFAULT_ENCODING)));
  }

  lemma StillHasFields(p: Payload, pyodide: Value)
    ensures HasFields(Fields(p)["pyodide" := pyodide], p)
    ensures Member(Fields(p)["pyodide" := pyodide], "pyodide") == pyodide
  {
    FieldsRead(p);
  }

  /** `from_dict` inverts `to_dict` up to normalisation, exactly for the payloads whose snapshot
      fits and whose schema version is at most 1; the others fail with the matching error. */
  lemma FromDictOfToDict(codec: Codec, p: Payload)
    requires Lawful(codec)
    ensures ToDict(codec, p).Ok? <==> (p.snapshot.Some? ==> |p.snapshot.value| <= MAX_BUNDLE_BYTES)
    ensures ToDict(codec, p).Err? ==> ToDict(codec, p).error == TooLarge
    ensures ToDict(codec, p).Ok? ==>
      FromDict(codec, ToDict(codec, p).value)
        == (if p.schemaVersion <= 1 then Ok(Normalise(p)) else Err(SchemaMismatch))
  {
    if p.snapshot.None? {
      WithoutSnapshot(codec, p);
    } else {
      WithSnapshot(codec, p, codec.toBase64(codec.compress(p.snapshot.value)));
    }
  }

  /** A round trip loses nothing that an earlier one left. */
  lemma RoundTripSettles(codec: Codec, p: Payload)
    requires Lawful(codec) && ToDict(codec, p).Ok? && p.schemaVersion <= 1
    ensures var once := FromDict(codec, ToDict(codec, p).value);
      once.Ok? && ToDict(codec, once.value).Ok? && FromDict(codec, ToDict(codec, once.value).value) == once
  {
    FromDictOfToDict(codec, p);
    FromDictOfToDict(codec, Normalise(p));
    NormaliseIdempotent(p);
  }

  /** `data` has the fields of `p`, whatever else it has. */
  ghost predicate HasFields(data: map<string, Value>, p: Payload) {
    && Member(data, "schema") == Str(NAMESPACE)
    && Member(data, "metadata") == Obj(Metadata(p))
    && Member(data, "ai_history") == Obj(map["sessions" := Arr(p.sessions)])
    && Member(data, "python_modules") == Arr(p.modules)
  }

  lemma PartsRead(codec: Codec, p: Payload, data: map<string, Value>, snapshot: Option<seq<Byte>>, encoding: Value)
    requires HasFields(data, p)
    requires var pyodide := Or(Member(data, "pyodide"), Obj(map[]));
      pyodide.Obj? && SnapshotOf(codec, pyodide.fields) == Ok(snapshot)
        && Member(pyodide.fields, "encoding") == encoding
    ensures FromParts(codec, data, Metadata(p), p.schemaVersion)
         == Ok(p.(fingerprint := Or(p.fingerprint, Null), minVersion := Or(p.minVersion, Null), snapshot := snapshot,
                  encoding := encoding))
  {
    MetadataReads(p);
    HistoryReads(p.sessions);
  }

  /** Reading the fields of `p` back, whatever the snapshot part `data` adds to them. */
  lemma FromFields(codec: Codec, p: Payload, data: map<string, Value>, snapshot: Option<seq<Byte>>, encoding: Value)
    requires HasFields(data, p)
    requires var pyodide := Or(Member(data, "pyodide"), Obj(map[]));
      pyodide.Obj? && SnapshotOf(codec, pyodide.fields) == Ok(snapshot)
        && Member(pyodide.fields, "encoding") == encoding
    ensures FromDict(codec, Obj(data)) ==
      if p.schemaVersion > 1 then Err(SchemaMismatch)
      else Ok(p.(fingerprint := Or(p.fingerprint, Null), minVersion := Or(p.minVersion, Null), snapshot := snapshot,
                 encoding := encoding))
  {
    MetadataReads(p);
    PartsRead(codec, p, data, snapshot, encoding);
  }

  lemma HistoryReads(sessions: seq<Value>)
    ensures var h := map["sessions" := Arr(sessions)];
      Truthy(Obj(h)) && ListOf(Member(h, "sessions")) == Ok(sessions)
  {
    assert "sessions" in map["sessions" := Arr(sessions)];
  }

  lemma SnapshotReads(codec: Codec, p: Payload)
    requires Lawful(codec) && p.snapshot.Some?
    ensures var text := codec.toBase64(codec.compress(p.snapshot.value));
      var pyodide := map["encoding" := Or(p.encoding, Str(DEFAULT_ENCODING)), "snapshot" := Str(text)];
      && Truthy(Obj(pyodide))
      && SnapshotOf(codec, pyodide) == Ok(p.snapshot)
      && Member(pyodide, "encoding") == Or(p.encoding, Str(DEFAULT_ENCODING))
  {
    var text := codec.toBase64(codec.compress(p.snapshot.value));
    assert "snapshot" in map["encoding" := Or(p.encoding, Str(DEFAULT_ENCODING)), "snapshot" := Str(text)];
  }

  // ---- Reader and writer ------------------------------------------------------------------------------

  function ReadBundle(codec: Codec, zip: Option<Zip>): Result<Payload, BundleError> {
    match zip
    case None => Err(Corrupt)
    case Some(z) =>
      match Read(z, BUNDLE_PART)
      case None => Err(NotFound)
      case Some(raw) =>
        if |raw| > MAX_BUNDLE_BYTES then Err(TooLarge)
        else
          match Envelope.Unwrap(raw)
          case None => Err(Corrupt)
          case Some(body) =>
            match codec.loads(body)
            case None => Err(Corrupt)
            case Some(data) => FromDict(codec, data)
  }

  /** The bytes of the bundle part a payload becomes, or why it does not fit. */
  function PartOf(codec: Codec, p: Payload): Result<seq<Byte>, BundleError> {
    match ToDict(codec, p)
    case Err(e) => Err(e)
    case Ok(data) =>
      var wrapped := Envelope.Wrap(codec.dumps(data));
      if |wrapped| > MAX_BUNDLE_BYTES then Err(TooLarge) else Ok(wrapped)
  }

  /** The archive after a write, or why the file is left as it was. */
  function Written(codec: Codec, zip: Option<Zip>, p: Payload): Result<Zip, BundleError> {
    match PartOf(codec, p)
    case Err(e) => Err(e)
    case Ok(wrapped) =>
      match zip
      case None => Err(Corrupt)
      case Some(z) => match Rewrite(z, wrapped) case None => Err(Uncaught) case Some(out) => Ok(out)
  }

  method WriteBundle(codec: Codec, file: XlsxFile, p: Payload) returns (r: Result<(), BundleError>)
    modifies file
    ensures match Written(codec, old(file.zip), p)
            case Ok(out) => r == Ok(()) && file.zip == Some(out)
            case Err(e) => r == Err(e) && file.zip == old(file.zip)
  {
    var data := ToDict(codec, p);
    if data.Err? {
      return Err(data.error);
    }
    var wrapped := Envelope.Wrap(codec.dumps(data.value));
    if |wrapped| > MAX_BUNDLE_BYTES {
      return Err(TooLarge);
    }
    if file.zip.None? {
      return Err(Corrupt);
    }
    var done := file.Replace(wrapped);
    return if done then Ok(()) else Err(Uncaught);
  }

  /** Reading what was written, for every archive and payload: the payload comes back, normalised,
      exactly if its JSON text is free of `]]>` and its schema version is at most 1. In the first
      failing case the reader reports corruption, in the second a schema mismatch. The writer's
      size cap implies the reader's. */
  lemma ReadOfWritten(codec: Codec, zip: Option<Zip>, p: Payload)
    requires Lawful(codec) && Written(codec, zip, p).Ok?
    ensures var json := codec.dumps(ToDict(codec, p).value);
      ReadBundle(codec, Some(Written(codec, zip, p).value)) ==
        if Contains(json, Envelope.CdataClose()) then Err(Corrupt)
        else if p.schemaVersion > 1 then Err(SchemaMismatch)
        else Ok(Normalise(p))
  {
    var data := ToDict(codec, p).value;
    var json := codec.dumps(data);
    ReadsBackBundle(zip.value, Envelope.Wrap(json));
    Envelope.UnwrapOfWrap(json);
    FromDictOfToDict(codec, p);
    StoredText(codec, data.fields);
  }

  /** The body the reader extracts parses back to what was written, or not at all. */
  lemma StoredText(codec: Codec, fields: map<string, Value>)
    requires Lawful(codec)
    ensures var json := codec.dumps(Obj(fields));
      codec.loads(json[..Envelope.BodyEnd(json)])
        == if Contains(json, Envelope.CdataClose()) then None else Some(Obj(fields))
  {
    var json := codec.dumps(Obj(fields));
    Envelope.BodyEndIff(json);
    if Contains(json, Envelope.CdataClose()) {
      assert Envelope.BodyEnd(json) < |json|;
    }
  }

  // ---- What is rejected -------------------------------------------------------------------------------

  /** No archive, no part, a part past 64 MiB, or one without envelope and JSON inside: each has its own
      error. Everything else is up to the payload. */
  lemma ReadBundleIff(codec: Codec, zip: Option<Zip>)
    ensures var r := ReadBundle(codec, zip);
      var part := if zip.Some? then Read(zip.value, "customXml/xlpodBundle.json") else None;
      && (zip.None? ==> r == Err(Corrupt))
      && (r == Err(NotFound) <==> zip.Some? && part.None?)
      && (r == Err(TooLarge) <==> part.Some? && |part.value| > 67_108_864)
      && (part.Some? && |part.value| <= 67_108_864 ==>
            match Envelope.Unwrap(part.value)
            case None => r == Err(Corrupt)
            case Some(body) =>
              match codec.loads(body) case None => r == Err(Corrupt) case Some(data) => r == FromDict(codec, data))
  {
  }

  /** A payload comes only from an object of this schema, of version 1 or less, and what it holds is what
      the object holds, or nothing where that is falsy. */
  lemma FromDictReads(codec: Codec, data: Value)
    ensures var r := FromDict(codec, data);
      && (!data.Obj? ==> r == Err(Corrupt))
      && (data.Obj? && Member(data.fields, "schema") != Str("urn:xlpod:bundle:v1") ==> r == Err(SchemaMismatch))
      && (r.Ok? ==>
            && data.Obj? && Member(data.fields, "schema") == Str("urn:xlpod:bundle:v1")
            && var metadata, history := Member(data.fields, "metadata"), Member(data.fields, "ai_history");
            && ToInt(codec, Or(FieldOr(metadata, "schema_version", Null), Int(0))) == Some(r.value.schemaVersion)
            && ToInt(codec, Or(FieldOr(metadata, "created_ms", Null), Int(0))) == Some(r.value.createdMs)
            && r.value.schemaVersion <= 1
            && r.value.fingerprint == FieldOr(metadata, "workbook_fingerprint", Null)
            && r.value.minVersion == FieldOr(metadata, "launcher_min_version", Null)
            && Or(FieldOr(history, "sessions", Null), Arr([])) == Arr(r.value.sessions)
            && Or(Member(data.fields, "python_modules"), Arr([])) == Arr(r.value.modules))
  {
  }

  /** The dict form, key by key. */
  lemma DictReads(codec: Codec, p: Payload)
    requires ToDict(codec, p).Ok?
    ensures var d := ToDict(codec, p).value;
      && FieldOr(d, "schema", Null) == Str("urn:xlpod:bundle:v1")
      && FieldOr(FieldOr(d, "metadata", Null), "created_ms", Null) == Int(p.createdMs)
      && FieldOr(FieldOr(d, "metadata", Null), "schema_version", Null) == Int(p.schemaVersion)
      && FieldOr(FieldOr(d, "metadata", Null), "launcher_min_version", Null) == Or(p.minVersion, Null)
      && FieldOr(FieldOr(d, "metadata", Null), "workbook_fingerprint", Null) == Or(p.fingerprint, Null)
      && FieldOr(FieldOr(d, "ai_history", Null), "sessions", Null) == Arr(p.sessions)
      && FieldOr(d, "python_modules", Null) == Arr(p.modules)
      && (p.snapshot.None? ==> FieldOr(d, "pyodide", Null) == Null)
      && (p.snapshot.Some? ==>
            && |p.snapshot.value| <= 67_108_864
            && FieldOr(FieldOr(d, "pyodide", Null), "encoding", Null) == Or(p.encoding, Str("base64+zlib"))
            && FieldOr(FieldOr(d, "pyodide", Null), "snapshot", Null)
               == Str(codec.toBase64(codec.compress(p.snapshot.value))))
  {
    FieldsRead(p);
    MetadataReads(p);
  }
}
