/** The session bookkeeping of old/V2/ui_components.py: the conversation
    kept in the session state (reset, the system prompt kept in slot 0, the
    user and assistant turns appended at the tail), the list of uploaded
    files reconciled against the uploader on every run, and the icon shown
    for a file type. Widgets and rendering are not modelled; what a widget
    returns is a parameter. */
module UIComponents {
  import opened Outcomes
  import opened Text

  datatype Role = System | User | Assistant

  datatype Message = Message(role: Role, content: string)

  /** A file handed over by the uploader; two handles are the same file
      when they are equal. */
  datatype Upload = Upload(id: nat, name: string, mimeType: string, data: seq<bv8>)

  /** An entry of the file database: the upload, its bytes, name and type. */
  datatype FileEntry = FileEntry(file: Upload, content: seq<bv8>, name: string, fileType: string)

  /** What PDFManager.query_pdf does: answer, raise ValueError (no PDF has
      been processed), or raise something else. */
  datatype PdfOutcome = PdfAnswer(text: string) | PdfValueError | PdfRaises(message: string)

  /** The session keys __init__ tests and sets. */
  const MessagesKey: string := "messages"
  const SystemPromptKey: string := "system_prompt"
  const DatabaseKey: string := "database"
  const ExternalDatabaseKey: string := "external_database"
  /** The key the external-database guard actually tests, spelled as in the source. */
  const GuardedExternalKey: string := "external_databse"

  // ---------------------------------------------------------------------
  // System prompt in slot 0
  // ---------------------------------------------------------------------

  /** The conversation after the system-prompt step: unchanged when slot 0
      already holds this prompt, slot 0 overwritten when it holds another
      system message, a system message inserted in front otherwise. */
  function Synced(messages: seq<Message>, prompt: string): seq<Message>
  {
    var system := Message(System, prompt);
    if messages != [] && messages[0] == system then messages
    else if messages != [] && messages[0].role == System then [system] + messages[1..]
    else [system] + messages
  }

  /** After the step, slot 0 is a system message with the prompt; an old
      system message in slot 0 is replaced in place, otherwise the old
      messages move one place right; nothing else changes. */
  lemma SyncedShape(messages: seq<Message>, prompt: string)
    ensures var r := Synced(messages, prompt);
      && r != [] && r[0] == Message(System, prompt)
      && (messages != [] && messages[0].role == System ==>
            |r| == |messages| && r[1..] == messages[1..])
      && (messages == [] || messages[0].role != System ==>
            |r| == |messages| + 1 && r[1..] == messages)
  {
  }

  /** Doing the step twice is doing it once. */
  lemma SyncedIdempotent(messages: seq<Message>, prompt: string)
    ensures Synced(Synced(messages, prompt), prompt) == Synced(messages, prompt)
  {
  }

  /** Only slot 0 may hold a system message. */
  predicate SystemOnlyAtHead(messages: seq<Message>)
  {
    forall i :: 0 < i < |messages| ==> messages[i].role != System
  }

  /** The step keeps system messages out of every slot but the first. */
  lemma SyncedSystemOnlyAtHead(messages: seq<Message>, prompt: string)
    requires SystemOnlyAtHead(messages)
    ensures SystemOnlyAtHead(Synced(messages, prompt))
  {
    var r := Synced(messages, prompt);
    if !(messages != [] && messages[0] == Message(System, prompt)) && !(messages != [] && messages[0].role == System) {
      forall i | 0 < i < |r| ensures r[i].role != System {
        assert r[i] == messages[i - 1];
      }
    }
  }

  // ---------------------------------------------------------------------
  // Streaming the reply
  // ---------------------------------------------------------------------

  /** Iterating over a Python string yields its characters as one-character strings. */
  function Chunks(response: string): (chunks: seq<string>)
    ensures |chunks| == |response|
    ensures forall i :: 0 <= i < |response| ==> chunks[i] == [response[i]]
  {
    seq(|response|, i requires 0 <= i < |response| => [response[i]])
  }

  /** Gluing the characters of a string back together gives the string. */
  lemma {:induction false} ChunksConcat(response: string)
    ensures Concat(Chunks(response)) == response
    decreases |response|
  {
    if response != [] {
      var init := response[..|response| - 1];
      ChunksConcat(init);
      assert Chunks(response)[..|response| - 1] == Chunks(init);
      assert response == init + [response[|response| - 1]];
    }
  }

  /** The `full_response += chunk` loop: the reply is the chunks glued in order. */
  method Accumulate(chunks: seq<string>) returns (full: string)
    ensures full == Concat(chunks)
  {
    full := "";
    for i := 0 to |chunks|
      invariant full == Concat(chunks[..i])
    {
      assert chunks[..i + 1][..i] == chunks[..i];
      full := full + chunks[i];
    }
    assert chunks[..|chunks|] == chunks;
  }

  // ---------------------------------------------------------------------
  // File reconciliation
  // ---------------------------------------------------------------------

  function Files(entries: seq<FileEntry>): (files: seq<Upload>)
    ensures |files| == |entries|
    ensures forall i :: 0 <= i < |entries| ==> files[i] == entries[i].file
  {
    seq(|entries|, i requires 0 <= i < |entries| => entries[i].file)
  }

  function EntryOf(u: Upload): FileEntry
  {
    FileEntry(u, u.data, u.name, u.mimeType)
  }

  /** The entries appended for the uploads not among `current`, in upload order. */
  function Added(uploaded: seq<Upload>, current: seq<Upload>): seq<FileEntry>
  {
    if uploaded == [] then []
    else
      var rest := Added(uploaded[..|uploaded| - 1], current);
      var u := uploaded[|uploaded| - 1];
      if u !in current then rest + [EntryOf(u)] else rest
  }

  /** An entry is added for exactly the uploads not among `current`. */
  lemma {:induction false} AddedSpec(uploaded: seq<Upload>, current: seq<Upload>)
    ensures forall e :: e in Added(uploaded, current) ==> e.file in uploaded && e.file !in current
    ensures forall u :: u in uploaded && u !in current ==> EntryOf(u) in Added(uploaded, current)
    decreases |uploaded|
  {
    if uploaded != [] {
      var init := uploaded[..|uploaded| - 1];
      AddedSpec(init, current);
      assert uploaded == init + [uploaded[|uploaded| - 1]];
    }
  }

  /** Nothing is added when every upload is already present. */
  lemma {:induction false} AddedNothing(uploaded: seq<Upload>, current: seq<Upload>)
    requires forall u :: u in uploaded ==> u in current
    ensures Added(uploaded, current) == []
    decreases |uploaded|
  {
    if uploaded != [] {
      var init := uploaded[..|uploaded| - 1];
      assert forall u :: u in init ==> u in uploaded;
      AddedNothing(init, current);
    }
  }

  /** The filter at the end of the upload step: the entries whose file is
      still uploaded, in their order. */
  function Kept(entries: seq<FileEntry>, uploaded: seq<Upload>): seq<FileEntry>
  {
    if entries == [] then []
    else
      var rest := Kept(entries[..|entries| - 1], uploaded);
      var e := entries[|entries| - 1];
      if e.file in uploaded then rest + [e] else rest
  }

  /** The filter keeps exactly the entries whose file is uploaded. */
  lemma {:induction false} KeptSpec(entries: seq<FileEntry>, uploaded: seq<Upload>)
    ensures forall e :: e in Kept(entries, uploaded) <==> e in entries && e.file in uploaded
    decreases |entries|
  {
    if entries != [] {
      var init := entries[..|entries| - 1];
      KeptSpec(init, uploaded);
      assert entries == init + [entries[|entries| - 1]];
    }
  }

  /** Filtering two runs of entries is filtering each. */
  lemma {:induction false} KeptAppend(a: seq<FileEntry>, b: seq<FileEntry>, uploaded: seq<Upload>)
    ensures Kept(a + b, uploaded) == Kept(a, uploaded) + Kept(b, uploaded)
    decreases |b|
  {
    if b == [] {
      assert a + b == a;
    } else {
      assert (a + b)[..|a + b| - 1] == a + b[..|b| - 1];
      KeptAppend(a, b[..|b| - 1], uploaded);
    }
  }

  lemma {:induction false} KeptAll(entries: seq<FileEntry>, uploaded: seq<Upload>)
    requires forall e :: e in entries ==> e.file in uploaded
    ensures Kept(entries, uploaded) == entries
    decreases |entries|
  {
    if entries != [] {
      var init := entries[..|entries| - 1];
      assert forall e :: e in init ==> e in entries;
      KeptAll(init, uploaded);
      assert entries == init + [entries[|entries| - 1]];
    }
  }

  /** The database after the upload step. */
  function Reconciled(database: seq<FileEntry>, uploaded: seq<Upload>): seq<FileEntry>
  {
    Kept(database + Added(uploaded, Files(database)), uploaded)
  }

  /** After reconciliation every entry's file is uploaded, every upload has
      an entry, and the entries that stay keep their order, with the new
      uploads after them in upload order. */
  lemma ReconciledSpec(database: seq<FileEntry>, uploaded: seq<Upload>)
    ensures var r := Reconciled(database, uploaded);
      && (forall e :: e in r ==> e.file in uploaded)
      && (forall u :: u in uploaded ==> exists e :: e in r && e.file == u)
      && r == Kept(database, uploaded) + Added(uploaded, Files(database))
  {
    var added := Added(uploaded, Files(database));
    AddedSpec(uploaded, Files(database));
    KeptSpec(database + added, uploaded);
    KeptAppend(database, added, uploaded);
    KeptAll(added, uploaded);
    var r := Reconciled(database, uploaded);
    forall u | u in uploaded ensures exists e :: e in r && e.file == u {
      if u in Files(database) {
        var i :| 0 <= i < |database| && Files(database)[i] == u;
        assert database[i] in r;
      } else {
        assert EntryOf(u) in r;
      }
    }
  }

  /** Reconciling again with the same uploads changes nothing. */
  lemma ReconciledIdempotent(database: seq<FileEntry>, uploaded: seq<Upload>)
    ensures Reconciled(Reconciled(database, uploaded), uploaded) == Reconciled(database, uploaded)
  {
    ReconciledSpec(database, uploaded);
    var r := Reconciled(database, uploaded);
    var added := Added(uploaded, Files(r));
    forall u | u in uploaded ensures u in Files(r) {
      var w :| w in r && w.file == u;
      var j :| 0 <= j < |r| && r[j] == w;
      assert Files(r)[j] == u;
    }
    AddedNothing(uploaded, Files(r));
    assert r + added == r;
    KeptAll(r, uploaded);
  }

  // ---------------------------------------------------------------------
  // File icons
  // ---------------------------------------------------------------------

  const DefaultIcon: string := "\U{1F4C4}"

  /** The icon display_database shows for a file type: looked up by the
      lower-cased type, with a page icon when the type has none. */
  function Icon(fileIcons: map<string, string>, fileType: string): (icon: string)
    ensures Lower(fileType) in fileIcons ==> icon == fileIcons[Lower(fileType)]
    ensures Lower(fileType) !in fileIcons ==> icon == DefaultIcon
  {
    GetOr(Get(fileIcons, Lower(fileType)), DefaultIcon)
  }

  /** The lookup ignores the case of the type. */
  lemma IconIgnoresCase(fileIcons: map<string, string>, a: string, b: string)
    requires |a| == |b|
    requires forall i :: 0 <= i < |a| ==> LowerChar(a[i]) == LowerChar(b[i])
    ensures Icon(fileIcons, a) == Icon(fileIcons, b)
  {
    assert Lower(a) == Lower(b);
  }

  // ---------------------------------------------------------------------
  // The session state
  // ---------------------------------------------------------------------

  /** The conversation after one run of the chat interface. */
  function Turn(messages: seq<Message>, reset: bool, systemPrompt: string, prompt: Option<string>,
                pdf: PdfOutcome, respond: seq<Message> -> string): seq<Message>
  {
    var base := Synced(if reset then [] else messages, systemPrompt);
    if prompt.None? || prompt.value == "" then base
    else
      var asked := base + [Message(User, prompt.value)];
      match pdf
      case PdfAnswer(text) => asked + [Message(Assistant, text)]
      case PdfValueError => asked + [Message(Assistant, respond(asked))]
      case PdfRaises(_) => asked
  }

  /** A run with a prompt adds the question and then the reply at the tail
      of the synced conversation; the reply is the PDF answer, or the
      chatbot's answer to the whole conversation when no PDF is loaded. */
  lemma TurnAppends(messages: seq<Message>, reset: bool, systemPrompt: string, prompt: Option<string>,
                    pdf: PdfOutcome, respond: seq<Message> -> string)
    requires prompt.Some? && prompt.value != "" && !pdf.PdfRaises?
    ensures var base := Synced(if reset then [] else messages, systemPrompt);
      var r := Turn(messages, reset, systemPrompt, prompt, pdf, respond);
      && |r| == |base| + 2
      && r[..|base|] == base
      && r[|base|] == Message(User, prompt.value)
      && r[|base| + 1].role == Assistant
      && r[|base| + 1].content == (if pdf.PdfAnswer? then pdf.text else respond(base + [Message(User, prompt.value)]))
  {
  }

  /** A reset empties the conversation before anything else happens: the
      old messages play no part, and what remains is the system prompt and
      at most this run's turn. */
  lemma ResetStartsOver(messages: seq<Message>, systemPrompt: string, prompt: Option<string>,
                        pdf: PdfOutcome, respond: seq<Message> -> string)
    ensures Turn(messages, true, systemPrompt, prompt, pdf, respond) ==
      Turn([], false, systemPrompt, prompt, pdf, respond)
    ensures var r := Turn(messages, true, systemPrompt, prompt, pdf, respond);
      1 <= |r| <= 3 && r[0] == Message(System, systemPrompt)
  {
  }

  /** A run keeps system messages out of every slot but the first. */
  lemma TurnSystemOnlyAtHead(messages: seq<Message>, reset: bool, systemPrompt: string, prompt: Option<string>,
                             pdf: PdfOutcome, respond: seq<Message> -> string)
    requires SystemOnlyAtHead(messages)
    ensures var r := Turn(messages, reset, systemPrompt, prompt, pdf, respond);
      r != [] && r[0] == Message(System, systemPrompt) && SystemOnlyAtHead(r)
  {
    var start := if reset then [] else messages;
    SyncedSystemOnlyAtHead(start, systemPrompt);
    SyncedShape(start, systemPrompt);
  }

  /** `st.session_state` as far as the chat and the file list use it:
      `present` is the set of keys the session holds. */
  class Session {
    var present: set<string>
    var messages: seq<Message>
    var systemPrompt: string
    var database: seq<FileEntry>
    var externalDatabase: seq<string>

    /** Nothing in the application ever stores the misspelled key. */
    predicate Valid()
      reads this
    {
      GuardedExternalKey !in present
    }

    /** A fresh browser session holds no keys. */
    constructor ()
      ensures Valid() && present == {}
      ensures messages == [] && systemPrompt == "" && database == [] && externalDatabase == []
    {
      present := {};
      messages := [];
      systemPrompt := "";
      database := [];
      externalDatabase := [];
    }

    /** UIComponents.__init__: each missing key gets its empty value; the
        external-database guard tests the misspelled key, so that list is
        emptied on every run. */
    method InitUI()
      requires Valid()
      modifies this
      ensures Valid()
      ensures present == old(present) + {MessagesKey, SystemPromptKey, DatabaseKey, ExternalDatabaseKey}
      ensures messages == (if MessagesKey in old(present) then old(messages) else [])
      ensures systemPrompt == (if SystemPromptKey in old(present) then old(systemPrompt) else "")
      ensures database == (if DatabaseKey in old(present) then old(database) else [])
      ensures externalDatabase == []
    {
      if MessagesKey !in present {
        messages := [];
        present := present + {MessagesKey};
      }
      if SystemPromptKey !in present {
        systemPrompt := "";
        present := present + {SystemPromptKey};
      }
      if DatabaseKey !in present {
        database := [];
        present := present + {DatabaseKey};
      }
      if GuardedExternalKey !in present {
        externalDatabase := [];
        present := present + {ExternalDatabaseKey};
      }
    }

    /** The message-list part of create_chat_interface: the optional reset,
        the system-prompt step, then, when the user typed a prompt, the
        question and the streamed reply appended at the tail. A failure of
        the PDF query other than ValueError escapes after the question was
        stored. `respond` is the chatbot's reply to a conversation. */
    method ChatTurn(reset: bool, prompt: string, userInput: Option<string>,
                    pdf: PdfOutcome, respond: seq<Message> -> string) returns (r: Result<(), string>)
      modifies this
      ensures messages == Turn(old(messages), reset, prompt, userInput, pdf, respond)
      ensures r.Err? <==> userInput.Some? && userInput.value != "" && pdf.PdfRaises?
      ensures present == old(present) && database == old(database)
      ensures systemPrompt == old(systemPrompt) && externalDatabase == old(externalDatabase)
    {
      if reset {
        messages := [];
      }
      var system := Message(System, prompt);
      ghost var start := messages;
      if messages == [] || messages[0].role != System || messages[0].content != prompt {
        if messages != [] && messages[0].role == System {
          messages := messages[0 := system];
          assert messages == [system] + start[1..];
        } else {
          messages := [system] + messages;
        }
      }
      assert messages == Synced(start, prompt);
      if userInput.None? || userInput.value == "" {
        return Ok(());
      }
      messages := messages + [Message(User, userInput.value)];
      var response: string;
      match pdf {
        case PdfAnswer(text) => response := text;
        case PdfValueError => response := respond(messages);
        case PdfRaises(m) => return Err(m);
      }
      var full := Accumulate(Chunks(response));
      ChunksConcat(response);
      messages := messages + [Message(Assistant, full)];
      r := Ok(());
    }

    /** The list update of create_file_uploader: every upload not among the
        files present before the loop is appended, then only the entries
        whose file is still uploaded are kept. */
    method UploadFiles(uploaded: seq<Upload>)
      modifies this
      ensures database == Reconciled(old(database), uploaded)
      ensures present == old(present) && messages == old(messages)
      ensures systemPrompt == old(systemPrompt) && externalDatabase == old(externalDatabase)
    {
      var currentFiles := Files(database);
      ghost var start := database;
      for i := 0 to |uploaded|
        invariant database == start + Added(uploaded[..i], currentFiles)
        invariant present == old(present) && messages == old(messages)
        invariant systemPrompt == old(systemPrompt) && externalDatabase == old(externalDatabase)
      {
        assert uploaded[..i + 1][..i] == uploaded[..i];
        if uploaded[i] !in currentFiles {
          database := database + [EntryOf(uploaded[i])];
        }
      }
      assert uploaded[..|uploaded|] == uploaded;
      database := Kept(database, uploaded);
    }
  }
}
