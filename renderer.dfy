/**
 * The Electron renderer process (renderer.js): the mapping of recorded
 * interactions into the records the script translator consumes, and the
 * session state machine driven by the Start, Stop, Edit, Save and New
 * Session buttons and by interactions arriving from the main process.
 */
module Renderer {
  import opened Wrappers
  import MainProcess

  // ---------------------------------------------------------------------
  // The record mapping
  // ---------------------------------------------------------------------

  /** An interaction as the translator receives it: `{type, path, value, title}`. */
  datatype Mapped = Mapped(typeName: string, path: string, value: Option<string>, title: string)

  /** `url` starts with `http://` or `https://`. */
  predicate HasScheme(url: string) {
    "http://" <= url || "https://" <= url
  }

  /** The title: `url` with one leading `http://` or `https://` removed. */
  function StripScheme(url: string): string {
    if "https://" <= url then url[8..]
    else if "http://" <= url then url[7..]
    else url
  }

  /**
   * The title is what follows a removed prefix that is empty, `http://` or
   * `https://`, and it differs from the URL exactly when the URL has a scheme.
   */
  lemma StripSchemeSuffix(url: string)
    ensures var r := StripScheme(url);
            && |r| <= |url| && url == url[..|url| - |r|] + r
            && (url[..|url| - |r|] == "" || url[..|url| - |r|] == "http://" || url[..|url| - |r|] == "https://")
            && (r == url <==> !HasScheme(url))
  {
    var r := StripScheme(url);
    if "https://" <= url {
      assert url == url[..8] + r;
    } else if "http://" <= url {
      assert url == url[..7] + r;
    }
  }

  /** Exactly one scheme is removed, whatever follows it (even a second scheme). */
  lemma StripSchemeOf(secure: bool, rest: string)
    ensures StripScheme((if secure then "https://" else "http://") + rest) == rest
  {
    var url := (if secure then "https://" else "http://") + rest;
    if secure {
      assert url[..8] == "https://";
    } else {
      assert url[..7] == "http://";
      assert url[4] == ':';
    }
  }

  /**
   * The translator's type for a recorded event type: `input` becomes
   * `text` and every other type is kept, so only `input` and `text` events
   * end up as `text`.
   */
  function MapType(eventType: string): (r: string)
    ensures eventType != "input" ==> r == eventType
    ensures r == "text" <==> eventType == "input" || eventType == "text"
  {
    if eventType == "input" then "text" else eventType
  }

  function MapInteraction(d: MainProcess.Info, url: string): Mapped {
    Mapped(MapType(d.eventType), d.selector, d.value, StripScheme(url))
  }

  /** `interactionsData.map(...)`: one record per interaction, in order. */
  function MapInteractions(data: seq<MainProcess.Info>, url: string): (r: seq<Mapped>)
    ensures |r| == |data|
  {
    if data == [] then [] else [MapInteraction(data[0], url)] + MapInteractions(data[1..], url)
  }

  /**
   * Each record keeps its interaction's selector as `path` and its value,
   * takes the stripped URL as `title`, and has type `text` for an `input`
   * event and the event's own type otherwise.
   */
  lemma {:induction false} MapInteractionsAt(data: seq<MainProcess.Info>, url: string, i: nat)
    requires i < |data|
    ensures var r := MapInteractions(data, url)[i];
            && r.path == data[i].selector && r.value == data[i].value && r.title == StripScheme(url)
            && r.typeName == (if data[i].eventType == "input" then "text" else data[i].eventType)
  {
    if i > 0 {
      MapInteractionsAt(data[1..], url, i - 1);
    }
  }

  /** Mapping after a push extends the earlier mapping by one record. */
  lemma {:induction false} MapInteractionsAppend(data: seq<MainProcess.Info>, d: MainProcess.Info, url: string)
    ensures MapInteractions(data + [d], url) == MapInteractions(data, url) + [MapInteraction(d, url)]
  {
    if data != [] {
      assert (data + [d])[1..] == data[1..] + [d];
      MapInteractionsAppend(data[1..], d, url);
    }
  }

  // ---------------------------------------------------------------------
  // The session state machine
  // ---------------------------------------------------------------------

  /** The renderer's messages to the main process, in the order sent. */
  datatype IpcMessage =
    | StartTracking(url: string)
    | StopTracking
    | SaveCustomScript(content: string, isAutoSave: bool)
    | ClearSession

  const DEMO_FLAG := true
  const VERIFY_FLAG := true

  /** The two texts the edit button shows: `Edit Script` and `Cancel Editing`. */
  datatype EditLabel = EditScript | CancelEditing

  /**
   * The parts of the page that follow edit mode: whether the output area
   * and the editor are displayed, and the edit button's label.
   */
  datatype View = View(outputShown: bool, editorShown: bool, editLabel: EditLabel)

  /** Viewing: the output is displayed and the button offers to edit. */
  const VIEWING := View(true, false, EditScript)
  /** Editing: the editor is displayed and the button offers to cancel. */
  const EDITING := View(false, true, CancelEditing)

  /**
   * The module-level state of the renderer and the parts of the page it
   * writes: the URL input, the three buttons' `disabled` flags, the output
   * area's text, the editor's text and the view (which of them is
   * displayed, and the edit button's label). `translatorReady` says whether `translator` has
   * been initialised; `outbox` is the sequence of messages sent.
   */
  class Ui {
    const generateFile: (seq<Mapped>, int, bool, bool) -> string
    var urlValue: string
    var startDisabled: bool
    var stopDisabled: bool
    var editDisabled: bool
    var isEditing: bool
    var interactionsData: seq<MainProcess.Info>
    var originalScript: string
    var outputText: string
    var editorText: string
    var view: View
    var translatorReady: bool
    var outbox: seq<IpcMessage>

    /**
     * Exactly one of Start and Stop is enabled; Stop is enabled only once
     * a translator exists; the view and the edit button's label follow
     * `isEditing`; and edit mode is entered only through an enabled edit
     * button.
     */
    ghost predicate Valid()
      reads this
    {
      startDisabled != stopDisabled
      && (!stopDisabled ==> translatorReady)
      && view == (if isEditing then EDITING else VIEWING)
      && (isEditing ==> !editDisabled)
    }

    /** The script the translator produces for `data` recorded from `url`. */
    function Script(data: seq<MainProcess.Info>, url: string): string {
      var mapped := MapInteractions(data, url);
      generateFile(mapped, |mapped|, DEMO_FLAG, VERIFY_FLAG)
    }

    /** The page as loaded: Start enabled, Stop and Edit disabled, nothing recorded. */
    constructor(generateFile: (seq<Mapped>, int, bool, bool) -> string)
      ensures Valid()
      ensures this.generateFile == generateFile
      ensures urlValue == "" && interactionsData == [] && outbox == []
      ensures !startDisabled && stopDisabled && editDisabled && !isEditing && !translatorReady
      ensures originalScript == "" && outputText == "" && editorText == ""
    {
      this.generateFile := generateFile;
      urlValue := "";
      startDisabled := false;
      stopDisabled := true;
      editDisabled := true;
      isEditing := false;
      interactionsData := [];
      originalScript := "";
      outputText := "";
      editorText := "";
      view := VIEWING;
      translatorReady := false;
      outbox := [];
    }

    /** The user types into the URL input. */
    method EnterUrl(url: string)
      requires Valid()
      modifies this
      ensures Valid()
      ensures urlValue == url
      ensures startDisabled == old(startDisabled) && stopDisabled == old(stopDisabled)
      ensures editDisabled == old(editDisabled) && isEditing == old(isEditing)
      ensures interactionsData == old(interactionsData) && originalScript == old(originalScript)
      ensures outputText == old(outputText) && editorText == old(editorText)
      ensures view == old(view)
      ensures translatorReady == old(translatorReady) && outbox == old(outbox)
    {
      urlValue := url;
    }

    /** The user types into the script editor. */
    method TypeInEditor(text: string)
      requires Valid()
      modifies this
      ensures Valid()
      ensures editorText == text
      ensures urlValue == old(urlValue) && startDisabled == old(startDisabled) && stopDisabled == old(stopDisabled)
      ensures editDisabled == old(editDisabled) && isEditing == old(isEditing)
      ensures interactionsData == old(interactionsData) && originalScript == old(originalScript)
      ensures outputText == old(outputText)
      ensures view == old(view)
      ensures translatorReady == old(translatorReady) && outbox == old(outbox)
    {
      editorText := text;
    }

    /**
     * Start: an empty URL changes nothing (the user is alerted); otherwise
     * Start is disabled, Stop enabled, tracking requested, a translator
     * initialised and the data and output cleared.
     */
    method ClickStart()
      requires Valid() && !startDisabled
      modifies this
      ensures Valid()
      ensures old(urlValue) == "" ==> unchanged(this)
      ensures old(urlValue) != "" ==>
        startDisabled && !stopDisabled && translatorReady
        && outbox == old(outbox) + [StartTracking(old(urlValue))]
        && interactionsData == [] && outputText == ""
        && urlValue == old(urlValue) && editDisabled == old(editDisabled) && isEditing == old(isEditing)
        && originalScript == old(originalScript) && editorText == old(editorText)
        && view == old(view)
    {
      if urlValue == "" {
        return;
      }
      startDisabled := true;
      stopDisabled := false;
      outbox := outbox + [StartTracking(urlValue)];
      translatorReady := true;
      interactionsData := [];
      outputText := "";
    }

    /**
     * Stop: Stop is disabled, Start and Edit enabled, and the script
     * generated from the mapped interactions becomes `originalScript`, the
     * output text and the editor text.
     */
    method ClickStop()
      requires Valid() && !stopDisabled
      modifies this
      ensures Valid()
      ensures stopDisabled && !startDisabled && !editDisabled
      ensures outbox == old(outbox) + [StopTracking]
      ensures originalScript == Script(old(interactionsData), old(urlValue)) && outputText == originalScript && editorText == originalScript
      ensures urlValue == old(urlValue) && isEditing == old(isEditing) && interactionsData == old(interactionsData)
      ensures view == old(view)
      ensures translatorReady == old(translatorReady)
    {
      var script := Script(interactionsData, urlValue);
      stopDisabled := true;
      startDisabled := false;
      outbox := outbox + [StopTracking];
      originalScript := script;
      outputText := script;
      editDisabled := false;
      editorText := script;
    }

    /**
     * Edit: toggles edit mode; entering it shows the editor holding a copy
     * of the output text, leaving it shows the output again.
     */
    method ClickEdit()
      requires Valid() && !editDisabled
      modifies this
      ensures Valid()
      ensures isEditing == !old(isEditing)
      ensures isEditing ==> editorText == old(outputText)
      ensures !isEditing ==> editorText == old(editorText)
      ensures view == (if isEditing then EDITING else VIEWING)
      ensures urlValue == old(urlValue) && startDisabled == old(startDisabled) && stopDisabled == old(stopDisabled)
      ensures editDisabled == old(editDisabled) && interactionsData == old(interactionsData)
      ensures originalScript == old(originalScript) && outputText == old(outputText)
      ensures translatorReady == old(translatorReady) && outbox == old(outbox)
    {
      isEditing := !isEditing;
      if isEditing {
        view := view.(outputShown := false);
        view := view.(editorShown := true);
        editorText := outputText;
        view := view.(editLabel := CancelEditing);
      } else {
        view := view.(outputShown := true);
        view := view.(editorShown := false);
        view := view.(editLabel := EditScript);
      }
    }

    /**
     * Save: in edit mode the editor text becomes the output text and
     * `originalScript`; then the output text is sent for saving (not as an
     * auto-save).
     */
    method ClickSave()
      requires Valid()
      modifies this
      ensures Valid()
      ensures old(isEditing) ==> outputText == old(editorText) && originalScript == old(editorText)
      ensures !old(isEditing) ==> outputText == old(outputText) && originalScript == old(originalScript)
      ensures outbox == old(outbox) + [SaveCustomScript(outputText, false)]
      ensures urlValue == old(urlValue) && startDisabled == old(startDisabled) && stopDisabled == old(stopDisabled)
      ensures editDisabled == old(editDisabled) && isEditing == old(isEditing) && interactionsData == old(interactionsData)
      ensures editorText == old(editorText)
      ensures view == old(view)
      ensures translatorReady == old(translatorReady)
    {
      if isEditing {
        var customScript := editorText;
        outputText := customScript;
        originalScript := customScript;
      }
      outbox := outbox + [SaveCustomScript(outputText, false)];
    }

    /**
     * New Session: with recorded data the user must confirm; declining
     * changes nothing. Otherwise the data, output and editor are cleared,
     * Start enabled, Stop and Edit disabled, edit mode left, and the main
     * process told to clear its session.
     */
    method ClickNewSession(confirmed: bool)
      requires Valid()
      modifies this
      ensures Valid()
      ensures |old(interactionsData)| > 0 && !confirmed ==> unchanged(this)
      ensures (|old(interactionsData)| == 0 || confirmed) ==>
        interactionsData == [] && outputText == "" && editorText == ""
        && !startDisabled && stopDisabled && editDisabled && !isEditing
        && view == VIEWING
        && outbox == old(outbox) + [ClearSession]
        && urlValue == old(urlValue) && originalScript == old(originalScript)
        && translatorReady == old(translatorReady)
    {
      if |interactionsData| > 0 && !confirmed {
        return;
      }
      interactionsData := [];
      outputText := "";
      editorText := "";
      startDisabled := false;
      stopDisabled := true;
      editDisabled := true;
      if isEditing {
        view := view.(outputShown := true);
        view := view.(editorShown := false);
        isEditing := false;
        view := view.(editLabel := EditScript);
      }
      outbox := outbox + [ClearSession];
    }

    /**
     * An interaction arrives: it is always appended; outside edit mode the
     * script is regenerated into `originalScript` and the output. With no
     * translator yet the regeneration throws, leaving only the push.
     */
    method OnInteraction(d: MainProcess.Info)
      requires Valid()
      modifies this
      ensures Valid()
      ensures interactionsData == old(interactionsData) + [d]
      ensures !isEditing && translatorReady ==> originalScript == Script(interactionsData, urlValue) && outputText == originalScript
      ensures isEditing || !translatorReady ==> originalScript == old(originalScript) && outputText == old(outputText)
      ensures urlValue == old(urlValue) && startDisabled == old(startDisabled) && stopDisabled == old(stopDisabled)
      ensures editDisabled == old(editDisabled) && isEditing == old(isEditing) && editorText == old(editorText)
      ensures view == old(view)
      ensures translatorReady == old(translatorReady) && outbox == old(outbox)
    {
      interactionsData := interactionsData + [d];
      if !isEditing && translatorReady {
        originalScript := Script(interactionsData, urlValue);
        outputText := originalScript;
      }
    }

    /** An auto-save request: the current output text is sent as an auto-save. */
    method RequestAutoSave()
      requires Valid()
      modifies this
      ensures Valid()
      ensures outbox == old(outbox) + [SaveCustomScript(old(outputText), true)]
      ensures urlValue == old(urlValue) && startDisabled == old(startDisabled) && stopDisabled == old(stopDisabled)
      ensures editDisabled == old(editDisabled) && isEditing == old(isEditing) && interactionsData == old(interactionsData)
      ensures originalScript == old(originalScript) && outputText == old(outputText) && editorText == old(editorText)
      ensures view == old(view)
      ensures translatorReady == old(translatorReady)
    {
      outbox := outbox + [SaveCustomScript(outputText, true)];
    }
  }

  /**
   * Edits survive tracking: a script edited after Stop is kept while a new
   * recording delivers interactions, and Save sends the edited text.
   */
  method EditsSurviveNewRecording(
    generateFile: (seq<Mapped>, int, bool, bool) -> string,
    url: string, edited: string, d: MainProcess.Info)
    returns (sent: seq<IpcMessage>, shown: string)
    requires url != ""
    ensures sent == [StartTracking(url), StopTracking, StartTracking(url), SaveCustomScript(edited, false)]
    ensures shown == edited
  {
    var ui := new Ui(generateFile);
    ui.EnterUrl(url);
    ui.ClickStart();
    ui.ClickStop();
    ui.ClickEdit();
    ui.TypeInEditor(edited);
    ui.ClickStart();
    ui.OnInteraction(d);
    ui.ClickSave();
    sent := ui.outbox;
    shown := ui.outputText;
  }
}
