/** The living-workbook panel: its history, and saving it into the workbook. */
module Panel {
  import opened Wrappers
  import opened Types
  import opened FsRead
  import opened Auth
  import opened Search
  import opened Bundle
  import opened BundleRoutes
  import opened Bytes
  import Archive
  import Envelope
  import Utf8

  datatype AiSession = AiSession(id: string, provider: string, model: string)

  datatype Event =
    | SessionOpened(id: string)
    | BundleMissing
    | HistoryRestored(messages: nat)
    | UserMessage(message: Value)
    | ProviderMissing
    | AssistantMessage(message: Value)
    | SaveSkipped(reason: string)
    | Saved(messages: nat)
    | SessionReset(id: string)

  /** How a chat request ended: a reply, no provider key, or any other error, which is raised. */
  datatype ChatAnswer = Reply(message: Value) | ProviderUnconfigured | Other

  function UserText(text: string): Value {
    Obj(map["role" := Str("user"), "content" := Arr([Obj(map["type" := Str("text"), "text" := Str(text)])])])
  }

  function SessionEntry(session: AiSession, history: seq<Value>): Value {
    Obj(map["session_id" := Str(session.id), "provider" := Str(session.provider), "model" := Str(session.model),
            "messages" := Arr(history)])
  }

  /** The request body `save` sends. It names no schema. */
  function SaveBody(session: AiSession, history: seq<Value>, createdMs: int): Value {
    Obj(map["metadata" := Obj(map["created_ms" := Int(createdMs), "schema_version" := Int(1)]),
            "ai_history" := Obj(map["sessions" := Arr([SessionEntry(session, history)])]),
            "python_modules" := Arr([])])
  }

  /** What a read payload restores: nothing, the last session's messages, or a Python error. */
  datatype Restored = Nothing | History(messages: seq<Value>) | Raises

  function RestoredFrom(payload: Value): Restored {
    if !payload.Obj? then Raises
    else
      var ai := Or(Member(payload.fields, "ai_history"), Obj(map[]));
      if !ai.Obj? then Raises
      else
        match Or(Member(ai.fields, "sessions"), Arr([]))
        case Arr(sessions) =>
          if sessions == [] then Nothing
          else if !sessions[|sessions| - 1].Obj? then Raises
          else (match ToList(MemberOr(sessions[|sessions| - 1].fields, "messages", Arr([])))
                case Some(messages) => History(messages)
                case None => Raises)
        case _ => Raises
  }

  /** The launcher as the panel sees it: one token, the workbook files, the codecs. */
  class Launcher {
    const codec: Codec
    const fs: FileSystem
    const record: TokenRecord
    var files: Files

    constructor (codec: Codec, fs: FileSystem, record: TokenRecord, files: Files)
      ensures this.codec == codec && this.fs == fs && this.record == record && this.files == files
    {
      this.codec, this.fs, this.record, this.files := codec, fs, record, files;
    }

    method BundleRead(path: string) returns (r: Result<Value, ApiError>)
      ensures r == ReadRoute(codec, fs, files, record, path)
    {
      r := ReadRoute(codec, fs, files, record, path);
    }

    method BundleWrite(path: string, body: Value, approved: bool) returns (r: Result<(), ApiError>)
      modifies this
      ensures (r, files) == WriteRoute(codec, fs, old(files), record, path, body, approved)
    {
      var (result, after) := WriteRoute(codec, fs, files, record, path, body, approved);
      files := after;
      return result;
    }
  }

  class LivingWorkbookPanel {
    var workbookPath: Option<string>
    var session: Option<AiSession>
    var history: seq<Value>
    var events: seq<Event>

    constructor ()
      ensures workbookPath == None && session == None && history == [] && events == []
    {
      workbookPath, session, history, events := None, None, [], [];
    }

    /** After the handshake and the session request succeeded. */
    method OnOpen(launcher: Launcher, path: Option<string>, started: AiSession) returns (raised: bool)
      modifies this
      ensures workbookPath == path && session == Some(started)
      ensures path.None? ==> !raised && history == old(history) && events == old(events) + [SessionOpened(started.id)]
      ensures path.Some? ==>
        match ReadRoute(launcher.codec, launcher.fs, launcher.files, launcher.record, path.value)
        case Err(_) =>
          !raised && history == old(history) && events == old(events) + [SessionOpened(started.id), BundleMissing]
        case Ok(payload) =>
          match RestoredFrom(payload)
          case Raises => raised && history == old(history) && events == old(events) + [SessionOpened(started.id)]
          case Nothing => !raised && history == old(history) && events == old(events) + [SessionOpened(started.id)]
          case History(m) =>
            !raised && history == m && events == old(events) + [SessionOpened(started.id), HistoryRestored(|m|)]
    {
      workbookPath := path;
      session := Some(started);
      events := events + [SessionOpened(started.id)];
      raised := false;
      if path.Some? {
        raised := RestoreBundle(launcher);
      }
    }

    method RestoreBundle(launcher: Launcher) returns (raised: bool)
      modifies `history, `events
      ensures workbookPath.None? ==> !raised && history == old(history) && events == old(events)
      ensures workbookPath.Some? ==>
        match ReadRoute(launcher.codec, launcher.fs, launcher.files, launcher.record, workbookPath.value)
        case Err(_) => !raised && history == old(history) && events == old(events) + [BundleMissing]
        case Ok(payload) =>
          match RestoredFrom(payload)
          case Raises => raised && history == old(history) && events == old(events)
          case Nothing => !raised && history == old(history) && events == old(events)
          case History(m) => !raised && history == m && events == old(events) + [HistoryRestored(|m|)]
    {
      if workbookPath.None? {
        return false;
      }
      var r := launcher.BundleRead(workbookPath.value);
      if r.Err? {
        events := events + [BundleMissing];
        return false;
      }
      match RestoredFrom(r.value)
      case Raises => return true;
      case Nothing => return false;
      case History(m) =>
        history := m;
        events := events + [HistoryRestored(|m|)];
        return false;
    }

    /** The user's message alone is sent, `ask` is what the launcher answers. It is kept whatever happens;
        the reply only if there is one. */
    method Send(text: string, ask: (AiSession, seq<Value>) -> ChatAnswer) returns (raised: bool)
      modifies `history, `events
      ensures session.None? ==> raised && history == old(history) && events == old(events)
      ensures session.Some? ==>
        match ask(session.value, [UserText(text)])
        case Reply(m) =>
          && !raised && history == old(history) + [UserText(text), m]
          && events == old(events) + [UserMessage(UserText(text)), AssistantMessage(m)]
        case ProviderUnconfigured =>
          && !raised && history == old(history) + [UserText(text)]
          && events == old(events) + [UserMessage(UserText(text)), ProviderMissing]
        case Other =>
          && raised && history == old(history) + [UserText(text)]
          && events == old(events) + [UserMessage(UserText(text))]
    {
      if session.None? {
        return true;
      }
      history := history + [UserText(text)];
      events := events + [UserMessage(UserText(text))];
      match ask(session.value, [UserText(text)])
      case Other => return true;
      case ProviderUnconfigured =>
        events := events + [ProviderMissing];
        return false;
      case Reply(m) =>
        history := history + [m];
        events := events + [AssistantMessage(m)];
        return false;
    }

    /** An error of the write route is raised to the host. */
    method Save(launcher: Launcher, createdMs: int, approved: bool) returns (raised: bool)
      modifies launcher, `events
      ensures workbookPath.None? ==>
        !raised && launcher.files == old(launcher.files) && events == old(events) + [SaveSkipped("no workbook path")]
      ensures workbookPath.Some? && session.None? ==>
        !raised && launcher.files == old(launcher.files) && events == old(events) + [SaveSkipped("no session")]
      ensures workbookPath.Some? && session.Some? ==>
        var (r, after) := WriteRoute(launcher.codec, launcher.fs, old(launcher.files), launcher.record,
                                     workbookPath.value, SaveBody(session.value, history, createdMs), approved);
        && launcher.files == after
        && raised == r.Err?
        && events == if r.Ok? then old(events) + [Saved(|history|)] else old(events)
    {
      if workbookPath.None? {
        events := events + [SaveSkipped("no workbook path")];
        return false;
      }
      if session.None? {
        events := events + [SaveSkipped("no session")];
        return false;
      }
      var r := launcher.BundleWrite(workbookPath.value, SaveBody(session.value, history, createdMs), approved);
      if r.Err? {
        return true;
      }
      events := events + [Saved(|history|)];
      return false;
    }

    method NewSession(started: AiSession)
      modifies this
      ensures session == Some(started) && history == [] && workbookPath == old(workbookPath)
      ensures events == old(events) + [SessionReset(started.id)]
    {
      session := Some(started);
      history := [];
      events := events + [SessionReset(started.id)];
    }
  }

  // ---- Save, then reopen ----------------------------------------------------------------------------

  function SavedPayload(session: AiSession, history: seq<Value>, createdMs: int): Payload {
    Payload(SCHEMA_VERSION, createdMs, Null, Null, None, Null, [SessionEntry(session, history)], [])
  }

  lemma BodyMeansPayload(codec: Codec, session: AiSession, history: seq<Value>, createdMs: int)
    ensures PayloadOf(codec, SaveBody(session, history, createdMs)) == Ok(SavedPayload(session, history, createdMs))
  {
    var metadata := map["created_ms" := Int(createdMs), "schema_version" := Int(1)];
    var ai := map["sessions" := Arr([SessionEntry(session, history)])];
    assert "created_ms" in metadata && "sessions" in ai;
    assert Truthy(Obj(metadata)) && Truthy(Obj(ai));
    var root := map["metadata" := Obj(metadata), "ai_history" := Obj(ai), "python_modules" := Arr([])];
    assert SaveBody(session, history, createdMs) == Obj(root);
    assert "metadata" in root && "schema" !in root;
    assert Member(root, "metadata") == Obj(metadata) && Member(root, "ai_history") == Obj(ai);
    assert ToInt(codec, Or(Int(createdMs), Int(0))) == Some(createdMs);
  }

  /** Of several stored sessions the last one is restored, whoever wrote them. */
  lemma LastSessionIsRestored(payload: Value, sessions: seq<Value>)
    requires FieldOr(FieldOr(payload, "ai_history", Null), "sessions", Null) == Arr(sessions)
    ensures sessions == [] ==> RestoredFrom(payload) == Nothing
    ensures sessions != [] ==>
      var last := sessions[|sessions| - 1];
      && (!last.Obj? ==> RestoredFrom(payload) == Raises)
      && (last.Obj? && FieldOr(last, "messages", Arr([])).Arr? ==>
            RestoredFrom(payload) == History(FieldOr(last, "messages", Arr([])).items))
  {
    var ai := FieldOr(payload, "ai_history", Null);
    assert payload.Obj? && ai.Obj? && "sessions" in ai.fields && Truthy(ai);
  }

  lemma SavedDictRestores(codec: Codec, session: AiSession, history: seq<Value>, createdMs: int)
    ensures ToDict(codec, SavedPayload(session, history, createdMs)).Ok?
    ensures var d := ToDict(codec, SavedPayload(session, history, createdMs)).value;
      exists s: map<string, Value> ::
        && FieldOr(FieldOr(d, "ai_history", Null), "sessions", Null) == Arr([Obj(s)])
        && Member(s, "session_id") == Str(session.id) && Member(s, "provider") == Str(session.provider)
        && Member(s, "model") == Str(session.model) && Member(s, "messages") == Arr(history)
    ensures RestoredFrom(ToDict(codec, SavedPayload(session, history, createdMs)).value) == History(history)
  {
    var p := SavedPayload(session, history, createdMs);
    FieldsRead(p);
    HistoryReads(p.sessions);
    var entry := SessionEntry(session, history);
    assert "messages" in entry.fields && entry.fields["messages"] == Arr(history);
    assert Or(Arr(p.sessions), Arr([])) == Arr(p.sessions);
  }

  /** The JSON text a save stores. */
  function SavedText(codec: Codec, session: AiSession, history: seq<Value>, createdMs: int): seq<Byte> {
    codec.dumps(Obj(Fields(SavedPayload(session, history, createdMs))))
  }

  /** The file is a zip archive whose content types, if it has any, are UTF-8. */
  predicate Rewritable(zip: Option<Archive.Zip>) {
    && zip.Some?
    && match Archive.Read(zip.value, Archive.CONTENT_TYPES)
       case None => true
       case Some(registry) => Utf8.Decode(registry).Some?
  }

  /** A save goes through exactly if the token may write, the path resolves to a file under its roots,
      the user agrees, the file can be rewritten, and the wrapped text fits into 64 MiB. */
  lemma SaveGoesThroughIff(codec: Codec, fs: FileSystem, files: Files, writer: TokenRecord, path: string,
                           session: AiSession, history: seq<Value>, createdMs: int, approved: bool)
    ensures WriteRoute(codec, fs, files, writer, path, SaveBody(session, history, createdMs), approved).0.Ok? <==>
      && BundleWrite in writer.scopes
      && path in fs.canonical && UnderAny(fs.canonical[path], writer.fsRoots)
      && approved
      && fs.canonical[path] in files && Rewritable(files[fs.canonical[path]])
      && |Envelope.Wrap(SavedText(codec, session, history, createdMs))| <= 67_108_864
  {
    BodyMeansPayload(codec, session, history, createdMs);
    if path in fs.canonical && fs.canonical[path] in files {
      SaveWritesIff(codec, files[fs.canonical[path]], session, history, createdMs);
    }
  }

  lemma SaveWritesIff(codec: Codec, zip: Option<Archive.Zip>, session: AiSession, history: seq<Value>, createdMs: int)
    ensures Written(codec, zip, SavedPayload(session, history, createdMs)).Ok?
      <==> Rewritable(zip) && |Envelope.Wrap(SavedText(codec, session, history, createdMs))| <= MAX_BUNDLE_BYTES
  {
    if zip.Some? {
      Archive.RewriteFailsIff(zip.value, Envelope.Wrap(SavedText(codec, session, history, createdMs)));
    }
  }

  /** A panel that opens after a successful save, with a token that may read the file, restores
      exactly the saved history, if and only if the saved JSON text does not contain `]]>`.
      Otherwise the stored bundle reads as corrupt and the panel reports it missing. */
  lemma SaveThenReopen(codec: Codec, fs: FileSystem, files: Files, writer: TokenRecord, reader: TokenRecord,
                       path: string, session: AiSession, history: seq<Value>, createdMs: int)
    requires Lawful(codec)
    requires BundleRead in reader.scopes && path in fs.canonical && UnderAny(fs.canonical[path], reader.fsRoots)
    ensures var (saved, after) := WriteRoute(codec, fs, files, writer, path, SaveBody(session, history, createdMs),
                                             true);
      saved.Ok? ==>
        var r := ReadRoute(codec, fs, after, reader, path);
        if Contains(SavedText(codec, session, history, createdMs), Envelope.CdataClose())
        then r == Err(BundleCorrupt)
        else r.Ok? && RestoredFrom(r.value) == History(history)
  {
    BodyMeansPayload(codec, session, history, createdMs);
    WriteThenReopen(codec, fs, files, writer, reader, path, SaveBody(session, history, createdMs), session, history,
                    createdMs);
  }

  /** The same for any request body that means the saved payload. */
  lemma WriteThenReopen(codec: Codec, fs: FileSystem, files: Files, writer: TokenRecord, reader: TokenRecord,
                        path: string, body: Value, session: AiSession, history: seq<Value>, createdMs: int)
    requires Lawful(codec)
    requires PayloadOf(codec, body) == Ok(SavedPayload(session, history, createdMs))
    requires BundleRead in reader.scopes && path in fs.canonical && UnderAny(fs.canonical[path], reader.fsRoots)
    ensures var (saved, after) := WriteRoute(codec, fs, files, writer, path, body, true);
      saved.Ok? ==>
        var r := ReadRoute(codec, fs, after, reader, path);
        if Contains(SavedText(codec, session, history, createdMs), Envelope.CdataClose())
        then r == Err(BundleCorrupt)
        else r.Ok? && RestoredFrom(r.value) == History(history)
  {
    var (saved, after) := WriteRoute(codec, fs, files, writer, path, body, true);
    if saved.Ok? {
      WriteStores(codec, fs, files, writer, path, body, SavedPayload(session, history, createdMs));
      ReopenRestores(codec, fs, after, reader, path, files[fs.canonical[path]], session, history, createdMs);
    }
  }

  lemma CorruptIsReported()
    ensures MapWorkerError(CodeOf(Corrupt)) == BundleCorrupt
  {
  }

  /** Wherever the file holds what a save wrote, a reader restores it. */
  lemma ReopenRestores(codec: Codec, fs: FileSystem, files: Files, reader: TokenRecord, path: string,
                       zip: Option<Archive.Zip>, session: AiSession, history: seq<Value>, createdMs: int)
    requires Lawful(codec) && Written(codec, zip, SavedPayload(session, history, createdMs)).Ok?
    requires BundleRead in reader.scopes && path in fs.canonical && UnderAny(fs.canonical[path], reader.fsRoots)
    requires fs.canonical[path] in files
    requires files[fs.canonical[path]] == Some(Written(codec, zip, SavedPayload(session, history, createdMs)).value)
    ensures var r := ReadRoute(codec, fs, files, reader, path);
      if Contains(SavedText(codec, session, history, createdMs), Envelope.CdataClose())
      then r == Err(BundleCorrupt)
      else r.Ok? && RestoredFrom(r.value) == History(history)
  {
    ReadServes(codec, fs, files, reader, path);
    CorruptIsReported();
    StoredRestores(codec, zip, session, history, createdMs);
  }

  lemma StoredRestores(codec: Codec, zip: Option<Archive.Zip>, session: AiSession, history: seq<Value>, createdMs: int)
    requires Lawful(codec) && Written(codec, zip, SavedPayload(session, history, createdMs)).Ok?
    ensures var r := ReadBundle(codec, Some(Written(codec, zip, SavedPayload(session, history, createdMs)).value));
      if Contains(SavedText(codec, session, history, createdMs), Envelope.CdataClose()) then r == Err(Corrupt)
      else r.Ok? && ToDict(codec, r.value).Ok? && RestoredFrom(ToDict(codec, r.value).value) == History(history)
  {
    var p := SavedPayload(session, history, createdMs);
    ReadOfWritten(codec, zip, p);
    NormalisedIsSame(p);
    SavedDictRestores(codec, session, history, createdMs);
  }

  lemma NormalisedIsSame(p: Payload)
    requires p.fingerprint == Null && p.minVersion == Null && p.snapshot == None && p.encoding == Null
    ensures Normalise(p) == p
  {
  }

  /** Saving a panel and opening another one on the same workbook: if the save goes through, the new
      panel has the saved history exactly if its text has no `]]>`, and otherwise reports the bundle
      missing and starts empty. */
  method SaveAndReopen(panel: LivingWorkbookPanel, launcher: Launcher, createdMs: int, approved: bool,
                       started: AiSession)
    returns (raised: bool, reopened: seq<Value>)
    requires Lawful(launcher.codec) && BundleRead in launcher.record.scopes
    requires panel.workbookPath.Some? && panel.session.Some?
    modifies panel, launcher
    ensures panel.history == old(panel.history)
    ensures !raised ==>
      reopened ==
        if Contains(SavedText(launcher.codec, old(panel.session).value, old(panel.history), createdMs),
                    Envelope.CdataClose())
                  then [] else old(panel.history)
  {
    var codec, fs, files, record := launcher.codec, launcher.fs, launcher.files, launcher.record;
    var path, session, history := panel.workbookPath.value, panel.session.value, panel.history;
    raised := panel.Save(launcher, createdMs, approved);
    reopened := [];
    if !raised {
      SavedFiles(codec, fs, files, record, path, session, history, createdMs, approved);
      SaveThenReopen(codec, fs, files, record, record, path, session, history, createdMs);
      var second := new LivingWorkbookPanel();
      var failed := second.OnOpen(launcher, Some(path), started);
      reopened := second.history;
    }
  }

  /** A save that went through was approved, and its path lies under the roots. */
  lemma SavedFiles(codec: Codec, fs: FileSystem, files: Files, record: TokenRecord, path: string, session: AiSession,
                   history: seq<Value>, createdMs: int, approved: bool)
    requires WriteRoute(codec, fs, files, record, path, SaveBody(session, history, createdMs), approved).0.Ok?
    ensures approved && path in fs.canonical && UnderAny(fs.canonical[path], record.fsRoots)
  {
    WriteIsConfined(codec, fs, files, record, path, SaveBody(session, history, createdMs), approved);
  }
}
