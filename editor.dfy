/** The form's editor state and the handlers that change it. Each handler is
    one atomic update of the fields. Parsing and serialising JSON are not
    modelled: the editor holds the parser and the serialiser as constant
    functions, and the server catalog is reduced to the predicate
    `isTerminal`, true for a server installed by a terminal command rather
    than by a JSON entry. */
module Editor {

  import opened Document
  import Selection
  import ShellCommand

  /** Outcome of the most recent attempt to load a document. */
  datatype UploadStatus = Idle | Success | Error

  class ConfigEditor {
    /** The configuration document being edited. */
    var doc: Doc
    /** Servers chosen for a terminal install, in the order they were added. */
    var terminalServers: seq<ServerId>
    /** True while an uploaded file is being read. */
    var isLoading: bool
    var uploadStatus: UploadStatus
    /** Whether the "load your config file" instructions are expanded. */
    var isInstructionsOpen: bool
    /** The catalog's verdict on each server identifier. */
    const isTerminal: ServerId -> bool
    /** `JSON.parse`, with `None` for a thrown parse error. */
    const parse: string -> Option<Doc>
    /** `JSON.stringify(doc, null, 2)`. */
    const serialize: Doc -> string

    constructor (isTerminal: ServerId -> bool, parse: string -> Option<Doc>, serialize: Doc -> string)
      ensures this.isTerminal == isTerminal && this.parse == parse && this.serialize == serialize
      ensures doc == EmptyDoc && terminalServers == []
      ensures !isLoading && uploadStatus == Idle && isInstructionsOpen
    {
      this.isTerminal := isTerminal;
      this.parse := parse;
      this.serialize := serialize;
      doc := EmptyDoc;
      terminalServers := [];
      isLoading := false;
      uploadStatus := Idle;
      isInstructionsOpen := true;
    }

    /** Pasting text: a parsed document replaces the current one wholesale and
        closes the instructions; unparsable text only flags the error. */
    method PasteConfig(text: string)
      modifies this
      ensures parse(text).Some? ==>
        doc == parse(text).value && uploadStatus == Success && !isInstructionsOpen
      ensures parse(text).None? ==>
        doc == old(doc) && uploadStatus == Error && isInstructionsOpen == old(isInstructionsOpen)
      ensures terminalServers == old(terminalServers) && isLoading == old(isLoading)
    {
      match parse(text)
      case Some(content) =>
        doc := content;
        uploadStatus := Success;
        isInstructionsOpen := false;
      case None =>
        uploadStatus := Error;
    }

    /** Choosing a file: with a file selected, loading starts and the status is
        reset; with none, nothing happens. */
    method StartUpload(fileSelected: bool)
      modifies this
      ensures fileSelected ==> isLoading && uploadStatus == Idle
      ensures !fileSelected ==> isLoading == old(isLoading) && uploadStatus == old(uploadStatus)
      ensures doc == old(doc) && terminalServers == old(terminalServers)
      ensures isInstructionsOpen == old(isInstructionsOpen)
    {
      if fileSelected {
        isLoading := true;
        uploadStatus := Idle;
      }
    }

    /** The read completes with the file's text: as for pasting, except that
        the instructions stay as they are, and loading ends either way. */
    method FinishUpload(text: string)
      modifies this
      ensures !isLoading
      ensures parse(text).Some? ==> doc == parse(text).value && uploadStatus == Success
      ensures parse(text).None? ==> doc == old(doc) && uploadStatus == Error
      ensures terminalServers == old(terminalServers)
      ensures isInstructionsOpen == old(isInstructionsOpen)
    {
      match parse(text) {
        case Some(content) =>
          doc := content;
          uploadStatus := Success;
        case None =>
          uploadStatus := Error;
      }
      isLoading := false;
    }

    /** Adding a server: a terminal-installed one is appended to the selection
        (duplicates allowed); any other gets the entry `{command: "mcp",
        args: [id]}` in the document, replacing an earlier one. */
    method AddServer(id: ServerId)
      modifies this
      ensures isTerminal(id) ==>
        terminalServers == old(terminalServers) + [id] && doc == old(doc)
      ensures !isTerminal(id) ==>
        terminalServers == old(terminalServers) &&
        doc == old(doc).(mcpServers := WithServer(old(doc).mcpServers, id))
      ensures uploadStatus == old(uploadStatus) && isLoading == old(isLoading)
      ensures isInstructionsOpen == old(isInstructionsOpen)
    {
      if isTerminal(id) {
        terminalServers := terminalServers + [id];
      } else {
        doc := doc.(mcpServers := WithServer(doc.mcpServers, id));
      }
    }

    /** Removing a server: every occurrence leaves the selection and the key
        leaves the document, each only if present, independently of the other
        and of the catalog. */
    method RemoveServer(id: ServerId)
      modifies this
      ensures terminalServers == Selection.RemoveAll(old(terminalServers), id)
      ensures doc == old(doc).(mcpServers := WithoutServer(old(doc).mcpServers, id))
      ensures uploadStatus == old(uploadStatus) && isLoading == old(isLoading)
      ensures isInstructionsOpen == old(isInstructionsOpen)
    {
      if id in terminalServers {
        terminalServers := Selection.RemoveAll(terminalServers, id);
      } else {
        Selection.RemoveAllAbsent(terminalServers, id);
      }
      if id in doc.mcpServers {
        doc := doc.(mcpServers := WithoutServer(doc.mcpServers, id));
      } else {
        WithoutAbsent(doc.mcpServers, id);
      }
    }

    /** The instructions' checkbox. */
    method SetInstructionsOpen(open: bool)
      modifies this
      ensures isInstructionsOpen == open
      ensures doc == old(doc) && terminalServers == old(terminalServers)
      ensures uploadStatus == old(uploadStatus) && isLoading == old(isLoading)
    {
      isInstructionsOpen := open;
    }

    /** The server panel needs a document with at least one top-level member and
        a successful load; the document always has `mcpServers`, so only the
        status decides. */
    function ServerPanelShown(): (shown: bool)
      reads this
      ensures shown <==> uploadStatus == Success
    {
      |TopLevelKeys(doc)| > 0 && uploadStatus == Success
    }

    /** The "apply your changes" section sits in the server panel and needs a
        JSON entry or a terminal selection. */
    function ApplySectionShown(): (shown: bool)
      reads this
      ensures shown ==> uploadStatus == Success
      ensures shown <==> ServerPanelShown() && (doc.mcpServers != map[] || terminalServers != [])
    {
      ServerPanelShown() && (|doc.mcpServers.Keys| > 0 || |terminalServers| > 0)
    }

    /** The JSON write command sits in the apply section and needs a JSON
        entry; the terminal selection then plays no part. */
    function JsonCommandShown(): (shown: bool)
      reads this
      ensures shown <==> uploadStatus == Success && doc.mcpServers != map[]
    {
      ApplySectionShown() && |doc.mcpServers.Keys| > 0
    }

    /** The command `handleSaveCommand` builds for the clipboard, and the one
        the apply section displays. */
    function SaveCommand(): (cmd: string)
      reads this
      ensures cmd == ShellCommand.EchoOpen + ShellCommand.Escape(serialize(doc)) + ShellCommand.EchoClose
      ensures '\n' !in cmd
    {
      ShellCommand.ApplyCommand(serialize(doc))
    }
  }

  /** Adding a server and removing it again, for a server that was neither
      listed nor a key, restores the document and the selection. */
  method AddThenRemove(e: ConfigEditor, id: ServerId)
    requires id !in e.terminalServers && id !in e.doc.mcpServers
    modifies e
    ensures e.doc == old(e.doc) && e.terminalServers == old(e.terminalServers)
    ensures e.uploadStatus == old(e.uploadStatus)
  {
    e.AddServer(id);
    e.RemoveServer(id);
    if e.isTerminal(id) {
      Selection.AppendThenRemoveRestores(old(e.terminalServers), id);
      WithoutAbsent(old(e.doc.mcpServers), id);
    } else {
      AddThenRemoveRestores(old(e.doc.mcpServers), id);
      Selection.RemoveAllAbsent(old(e.terminalServers), id);
    }
  }
}
